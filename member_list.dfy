/**
 * The member panel of a server (SafeZone-Web/src/components/MemberList.jsx): members split into
 * an online and an offline group, each sorted by username, and the colour of a status dot.
 */
module MemberList {
  import opened Common
  import opened Sorting

  datatype Member = Member(id: int, username: string)

  function IsOnline(onlineIds: seq<string>): Member -> bool {
    (m: Member) => m.username in onlineIds
  }

  function IsOffline(onlineIds: seq<string>): Member -> bool {
    (m: Member) => m.username !in onlineIds
  }

  /** `a.username.localeCompare(b.username) <= 0`, taken as code-unit order. */
  predicate UsernameLe(a: Member, b: Member) {
    StrLe(a.username, b.username)
  }

  lemma UsernameLeIsTotalPreorder()
    ensures TotalPreorder(UsernameLe)
  {
    forall a: Member, b: Member ensures UsernameLe(a, b) || UsernameLe(b, a) {
      StrLeTotal(a.username, b.username);
    }
    forall a: Member, b: Member, c: Member | UsernameLe(a, b) && UsernameLe(b, c) ensures UsernameLe(a, c) {
      StrLeTrans(a.username, b.username, c.username);
    }
  }

  /** `group.sort((a, b) => a.username.localeCompare(b.username))`. */
  function SortByUsername(ms: seq<Member>): (r: seq<Member>)
    ensures multiset(r) == multiset(ms)
    ensures SortedBy(r, UsernameLe)
  {
    UsernameLeIsTotalPreorder();
    SortBy(ms, UsernameLe)
  }

  /** One more element through the filter. */
  lemma FilterSnoc<T(!new)>(s: seq<T>, i: nat, p: T -> bool)
    requires i < |s|
    ensures Filter(s[..i + 1], p) == Filter(s[..i], p) + (if p(s[i]) then [s[i]] else [])
  {
    assert s[..i + 1] == s[..i] + [s[i]];
    FilterAppend(s[..i], [s[i]], p);
  }

  /** Putting `m` in front of either part of a split of `t` splits `[m] + t`. */
  lemma SplitCons(m: Member, a: seq<Member>, b: seq<Member>, t: seq<Member>)
    requires multiset(a) + multiset(b) == multiset(t)
    ensures multiset([m] + a) + multiset(b) == multiset([m] + t)
    ensures multiset(a) + multiset([m] + b) == multiset([m] + t)
  {
    assert multiset([m] + a) == multiset{m} + multiset(a);
    assert multiset([m] + b) == multiset{m} + multiset(b);
    assert multiset([m] + t) == multiset{m} + multiset(t);
  }

  /** The online and the offline filters split the members into two parts that together hold every member once. */
  lemma {:induction false} FilterSplit(members: seq<Member>, onlineIds: seq<string>)
    ensures multiset(Filter(members, IsOnline(onlineIds))) + multiset(Filter(members, IsOffline(onlineIds))) == multiset(members)
  {
    if members != [] {
      var m, t := members[0], members[1..];
      FilterSplit(t, onlineIds);
      assert members == [m] + t;
      SplitCons(m, Filter(t, IsOnline(onlineIds)), Filter(t, IsOffline(onlineIds)), t);
    }
  }

  /** The grouping of `groupedMembers`: each group holds the members it should, sorted by username. */
  ghost predicate Grouped(members: seq<Member>, onlineIds: seq<string>, online: seq<Member>, offline: seq<Member>) {
    && (forall m :: m in online <==> m in members && m.username in onlineIds)
    && (forall m :: m in offline <==> m in members && m.username !in onlineIds)
    && multiset(online + offline) == multiset(members)
    && SortedBy(online, UsernameLe) && SortedBy(offline, UsernameLe)
  }

  /**
   * `groupedMembers`: the `forEach` that pushes each member onto the online or the offline
   * list, then the two in-place sorts.
   */
  method GroupMembers(members: seq<Member>, onlineIds: seq<string>) returns (online: seq<Member>, offline: seq<Member>)
    ensures online == SortByUsername(Filter(members, IsOnline(onlineIds)))
    ensures offline == SortByUsername(Filter(members, IsOffline(onlineIds)))
    ensures Grouped(members, onlineIds, online, offline)
  {
    online, offline := [], [];
    var i := 0;
    while i < |members|
      invariant 0 <= i <= |members|
      invariant online == Filter(members[..i], IsOnline(onlineIds))
      invariant offline == Filter(members[..i], IsOffline(onlineIds))
    {
      var m := members[i];
      FilterSnoc(members, i, IsOnline(onlineIds));
      FilterSnoc(members, i, IsOffline(onlineIds));
      if m.username in onlineIds {
        online := online + [m];
      } else {
        offline := offline + [m];
      }
      i := i + 1;
    }
    assert members[..i] == members;
    GroupedSound(members, onlineIds);
    online := SortByUsername(online);
    offline := SortByUsername(offline);
  }

  /** The two sorted groups partition the members: each member lands in exactly one, by its online state. */
  lemma GroupedSound(members: seq<Member>, onlineIds: seq<string>)
    ensures Grouped(members, onlineIds,
      SortByUsername(Filter(members, IsOnline(onlineIds))),
      SortByUsername(Filter(members, IsOffline(onlineIds))))
  {
    var on := Filter(members, IsOnline(onlineIds));
    var off := Filter(members, IsOffline(onlineIds));
    var online := SortByUsername(on);
    var offline := SortByUsername(off);
    MultisetMembership(online, on);
    MultisetMembership(offline, off);
    FilterSplit(members, onlineIds);
  }

  /** The two headings count their groups, and together they count every member. */
  lemma CountsAddUp(members: seq<Member>, onlineIds: seq<string>, online: seq<Member>, offline: seq<Member>)
    requires Grouped(members, onlineIds, online, offline)
    ensures |online| + |offline| == |members|
  {
    assert |multiset(online + offline)| == |multiset(members)|;
  }

  /** `getStatusColor(username)`: the status is `userStatuses?.[username] || 'online'`. */
  function StatusColor(statuses: Option<map<string, string>>, username: string): (r: string)
    ensures var s := if statuses.Some? && username in statuses.value then statuses.value[username] else "";
      && (s == "idle" <==> r == "#FAA61A")
      && (s == "dnd" <==> r == "#ED4245")
      && (s == "invisible" <==> r == "#747F8D")
      && (s != "idle" && s != "dnd" && s != "invisible" <==> r == "#34C759")
  {
    var status := if statuses.Some? && username in statuses.value then OrDefault(Some(statuses.value[username]), "online") else "online";
    match status
    case "idle" => "#FAA61A"
    case "dnd" => "#ED4245"
    case "invisible" => "#747F8D"
    case _ => "#34C759"
  }
}
