/**
 * The friends page (SafeZone-Web/src/components/FriendsDashboard.jsx): the status colour and
 * label of a friend, the friends counted as online, and the rows the online and all tabs show.
 */
module FriendsDashboard {
  import opened Common

  datatype Friend = Friend(id: int, username: string)

  const Grey := "#747F8D"
  const OfflineText := "\U{C7}evrimd\U{131}\U{15F}\U{131}"

  /** `getStatusColor(status)`. */
  function StatusColor(status: string): (r: string)
    ensures status !in {"online", "idle", "dnd"} <==> r == Grey
    ensures (status == "online" <==> r == "#3BA55C") && (status == "idle" <==> r == "#FAA61A") && (status == "dnd" <==> r == "#ED4245")
  {
    match status
    case "online" => "#3BA55C"
    case "idle" => "#FAA61A"
    case "dnd" => "#ED4245"
    case _ => Grey
  }

  /** `getStatusText(status)`. */
  function StatusText(status: string): (r: string)
    ensures status !in {"online", "idle", "dnd"} <==> r == OfflineText
    ensures status == "online" <==> r == "\U{C7}evrimi\U{E7}i"
  {
    match status
    case "online" => "\U{C7}evrimi\U{E7}i"
    case "idle" => "Bo\U{15F}ta"
    case "dnd" => "Rahats\U{131}z Etmeyin"
    case _ => OfflineText
  }

  /** `userStatuses[username] !== 'invisible'`: a missing entry is not invisible. */
  predicate NotInvisible(statuses: map<string, string>, username: string) {
    !(username in statuses && statuses[username] == "invisible")
  }

  function CountsOnline(onlineIds: seq<string>, statuses: map<string, string>): Friend -> bool {
    (f: Friend) => f.username in onlineIds && NotInvisible(statuses, f.username)
  }

  /** `safeFriends`: a null list reads as empty. */
  function SafeFriends(friends: Option<seq<Friend>>): seq<Friend> {
    friends.GetOr([])
  }

  /** `onlineFriends`. */
  function OnlineFriends(friends: Option<seq<Friend>>, onlineIds: seq<string>, statuses: map<string, string>): (r: seq<Friend>)
    ensures forall f :: f in r <==> f in SafeFriends(friends) && f.username in onlineIds && NotInvisible(statuses, f.username)
    ensures friends.None? ==> r == []
  {
    Filter(SafeFriends(friends), CountsOnline(onlineIds, statuses))
  }

  /** The status a row shows: the stored one (default 'online') for an online friend, 'invisible' for the others. */
  function DisplayedStatus(f: Friend, onlineIds: seq<string>, statuses: map<string, string>): (r: string)
    ensures f.username !in onlineIds ==> r == "invisible"
    ensures f.username in onlineIds && NotInvisible(statuses, f.username) ==> r != "invisible"
  {
    if f.username in onlineIds then
      (if f.username in statuses then OrDefault(Some(statuses[f.username]), "online") else "online")
    else "invisible"
  }

  datatype Row = Row(friend: Friend, status: string)

  function WithStatus(onlineIds: seq<string>, statuses: map<string, string>): Friend -> Row {
    (f: Friend) => Row(f, DisplayedStatus(f, onlineIds, statuses))
  }

  function Visible(tab: string): Row -> bool {
    (r: Row) => !(tab == "online" && r.status == "invisible")
  }

  /** The rows of the online or the all tab; the render returns `null` for an invisible row on the online tab. */
  function Rows(tab: string, friends: Option<seq<Friend>>, onlineIds: seq<string>, statuses: map<string, string>): (r: seq<Row>)
    ensures tab == "online" ==> forall row :: row in r ==> row.status != "invisible"
  {
    if tab != "online" && tab != "all" then []
    else
      var listed := if tab == "online" then OnlineFriends(friends, onlineIds, statuses) else SafeFriends(friends);
      Filter(MapSeq(listed, WithStatus(onlineIds, statuses)), Visible(tab))
  }

  /**
   * The `null` branch never fires on the online tab: it shows one row per online friend, so the
   * heading's count is the number of rows.
   */
  lemma OnlineTabShowsAll(friends: Option<seq<Friend>>, onlineIds: seq<string>, statuses: map<string, string>)
    ensures Rows("online", friends, onlineIds, statuses) == MapSeq(OnlineFriends(friends, onlineIds, statuses), WithStatus(onlineIds, statuses))
    ensures |Rows("online", friends, onlineIds, statuses)| == |OnlineFriends(friends, onlineIds, statuses)|
  {
    var listed := OnlineFriends(friends, onlineIds, statuses);
    var rows := MapSeq(listed, WithStatus(onlineIds, statuses));
    forall row | row in rows ensures Visible("online")(row) {
      var i :| 0 <= i < |rows| && rows[i] == row;
      assert listed[i] in listed;
    }
    FilterAll(rows, Visible("online"));
  }

  /** The all tab shows every friend, offline ones as invisible. */
  lemma AllTabShowsEveryone(friends: Option<seq<Friend>>, onlineIds: seq<string>, statuses: map<string, string>)
    ensures Rows("all", friends, onlineIds, statuses) == MapSeq(SafeFriends(friends), WithStatus(onlineIds, statuses))
  {
    FilterAll(MapSeq(SafeFriends(friends), WithStatus(onlineIds, statuses)), Visible("all"));
  }
}
