/**
 * The message pane (SafeZone-Web/src/components/ChatArea.jsx): which list it renders, how each
 * entry yields a sender and a text, whether it is the user's own, and which URL, if any, gets
 * a link preview.
 */
module ChatArea {
  import opened Common

  const Separator := ": "

  /** An entry of the list: a legacy "sender: text" string, or a message object. */
  datatype Entry =
    | Legacy(line: string)
    | Message(sender: string, content: Option<string>, text: Option<string>, attachmentUrl: Option<string>)

  /** How a rendered entry reads. */
  datatype View = View(sender: string, text: Option<string>, isMe: bool, preview: Option<string>)

  // ---------------------------------------------------------------------------
  // "sender: text" lines: `split(': ')[0]` and `split(': ').slice(1).join(': ')`.
  // ---------------------------------------------------------------------------

  /** The first index at which `pat` occurs in `s` at or after `from`. */
  function FirstMatchFrom(s: string, pat: string, from: nat): (r: Option<nat>)
    requires from <= |s|
    ensures r.None? <==> forall j :: from <= j <= |s| ==> !MatchAt(s, pat, j)
    ensures r.Some? ==> from <= r.value && MatchAt(s, pat, r.value) && forall j :: from <= j < r.value ==> !MatchAt(s, pat, j)
    decreases |s| - from
  {
    if MatchAt(s, pat, from) then Some(from)
    else if from == |s| then None
    else FirstMatchFrom(s, pat, from + 1)
  }

  function SenderOf(line: string): string {
    match FirstMatchFrom(line, Separator, 0)
    case None => line
    case Some(i) => line[..i]
  }

  function TextOf(line: string): string {
    match FirstMatchFrom(line, Separator, 0)
    case None => ""
    case Some(i) => line[i + 2..]
  }

  /**
   * When ": " occurs, the sender is the text before its first occurrence and contains no ": ",
   * and sender + ": " + text gives the line back; otherwise the sender is the whole line and
   * the text is empty.
   */
  lemma LineSplitRoundTrip(line: string)
    ensures (exists j :: MatchAt(line, Separator, j)) ==>
      && SenderOf(line) + Separator + TextOf(line) == line
      && forall j :: !MatchAt(SenderOf(line), Separator, j)
    ensures (forall j :: !MatchAt(line, Separator, j)) ==> SenderOf(line) == line && TextOf(line) == ""
  {
    match FirstMatchFrom(line, Separator, 0)
    case None =>
    case Some(i) =>
      assert line == line[..i] + line[i..i + 2] + line[i + 2..];
      forall j ensures !MatchAt(line[..i], Separator, j) {
        if MatchAt(line[..i], Separator, j) {
          assert line[j..j + 2] == line[..i][j..j + 2];
          assert MatchAt(line, Separator, j);
        }
      }
  }

  // ---------------------------------------------------------------------------
  // The link preview: the first match of /(https?:\/\/[^\s]+)/.
  // ---------------------------------------------------------------------------

  /** The length of the run of non-whitespace characters starting at `j`. */
  function Run(s: string, j: nat): (n: nat)
    requires j <= |s|
    ensures j + n <= |s|
    ensures forall k :: j <= k < j + n ==> !IsSpace(s[k])
    ensures j + n == |s| || IsSpace(s[j + n])
    decreases |s| - j
  {
    if j < |s| && !IsSpace(s[j]) then 1 + Run(s, j + 1) else 0
  }

  /** The match of the pattern that starts at `i`, if one does: the scheme, then the longest run of non-space characters, at least one. */
  function UrlAt(s: string, i: nat): (r: Option<string>)
    requires i <= |s|
  {
    var k := if MatchAt(s, "https://", i) then 8 else if MatchAt(s, "http://", i) then 7 else 0;
    if k > 0 && i + k < |s| && !IsSpace(s[i + k]) then Some(s[i..i + k + Run(s, i + k)]) else None
  }

  /** A match is an http or https address with something after the scheme and no whitespace, and it runs as far as it can. */
  lemma UrlAtShape(s: string, i: nat)
    requires i <= |s| && UrlAt(s, i).Some?
    ensures var u := UrlAt(s, i).value;
      && (StartsWith(u, "https://") || StartsWith(u, "http://"))
      && i + |u| <= |s| && s[i..i + |u|] == u
      && (forall k :: 0 <= k < |u| ==> !IsSpace(u[k]))
      && (i + |u| == |s| || IsSpace(s[i + |u|]))
  {
    var u := UrlAt(s, i).value;
    var p := if MatchAt(s, "https://", i) then "https://" else "http://";
    assert s[i..i + |p|] == p;
    assert u[..|p|] == s[i..i + |p|];
    forall k | 0 <= k < |u| ensures !IsSpace(u[k]) {
      assert u[k] == s[i + k];
      if k < |p| {
        assert u[k] == p[k];
      }
    }
  }

  /** The match at each position of `s`, as one function value (no match past the end). */
  function UrlsOf(s: string): nat -> Option<string> {
    (j: nat) => if j <= |s| then UrlAt(s, j) else None
  }

  /** The first `Some` among `f(i)`, ..., `f(n)`: how a regular expression search scans its positions. */
  function FirstSome(f: nat -> Option<string>, i: nat, n: nat): (r: Option<string>)
    requires i <= n
    ensures r.None? <==> forall j :: i <= j <= n ==> f(j).None?
    ensures r.Some? ==> exists k :: i <= k <= n && f(k) == r && forall j :: i <= j < k ==> f(j).None?
    decreases n - i
  {
    if f(i).Some? then f(i)
    else if i == n then None
    else FirstSome(f, i + 1, n)
  }

  /** The leftmost match at or after position `i`. */
  function FirstUrlFrom(s: string, i: nat): (r: Option<string>)
    requires i <= |s|
    ensures r.None? <==> forall j :: i <= j <= |s| ==> UrlAt(s, j).None?
    ensures r.Some? ==> exists k :: i <= k <= |s| && UrlAt(s, k) == r && forall j :: i <= j < k ==> UrlAt(s, j).None?
  {
    var f := UrlsOf(s);
    var r := FirstSome(f, i, |s|);
    assert forall j :: i <= j <= |s| ==> f(j) == UrlAt(s, j);
    r
  }

  /** `text.match(/(https?:\/\/[^\s]+)/)`: the leftmost match. */
  function FirstUrl(s: string): Option<string> {
    FirstUrlFrom(s, 0)
  }

  /** `u` is the piece of `s` that starts at `i`. */
  predicate PieceAt(s: string, u: string, i: nat) {
    i + |u| <= |s| && s[i..i + |u|] == u
  }

  /** The match at `k`, with none before it, has the shape of a previewed URL. */
  lemma ShapeOfLeftmost(s: string, u: string, k: nat)
    requires k <= |s| && UrlAt(s, k) == Some(u) && forall j :: 0 <= j < k ==> UrlAt(s, j).None?
    ensures StartsWith(u, "https://") || StartsWith(u, "http://")
    ensures forall i :: 0 <= i < |u| ==> !IsSpace(u[i])
    ensures exists i: nat :: PieceAt(s, u, i) && forall j: nat :: j < i ==> UrlAt(s, j).None?
  {
    UrlAtShape(s, k);
    assert PieceAt(s, u, k);
  }

  /** A previewed URL is an http(s) address of the text, free of whitespace, with no match anywhere before it. */
  lemma FirstUrlShape(s: string)
    requires FirstUrl(s).Some?
    ensures var u := FirstUrl(s).value;
      && (StartsWith(u, "https://") || StartsWith(u, "http://"))
      && (forall k :: 0 <= k < |u| ==> !IsSpace(u[k]))
      && exists i: nat :: PieceAt(s, u, i) && forall j: nat :: j < i ==> UrlAt(s, j).None?
  {
    var k :| 0 <= k <= |s| && UrlAt(s, k) == FirstUrl(s) && forall j :: 0 <= j < k ==> UrlAt(s, j).None?;
    ShapeOfLeftmost(s, FirstUrl(s).value, k);
  }

  // ---------------------------------------------------------------------------
  // One rendered entry and the rendered list.
  // ---------------------------------------------------------------------------

  /** The text shown for a message object: `content` in a DM, `content || text` in a channel. */
  function ObjectText(content: Option<string>, text: Option<string>, inDm: bool): (r: Option<string>)
    ensures inDm ==> r == content
    ensures !inDm && Truthy(content) ==> r == content
    ensures !inDm && !Truthy(content) ==> r == text
  {
    if inDm then content else if Truthy(content) then content else text
  }

  /** The preview: the first URL of the text, for an entry without an attachment. */
  function Preview(text: Option<string>, attachmentUrl: Option<string>): (r: Option<string>)
    ensures r.Some? <==> text.Some? && FirstUrl(text.value).Some? && !Truthy(attachmentUrl)
  {
    if text.Some? && !Truthy(attachmentUrl) then FirstUrl(text.value) else None
  }

  function ViewOf(e: Entry, inDm: bool, me: string): (v: View)
    ensures v.isMe <==> v.sender == me
  {
    match e
    case Legacy(line) =>
      View(SenderOf(line), Some(TextOf(line)), SenderOf(line) == me, Preview(Some(TextOf(line)), None))
    case Message(sender, content, text, url) =>
      var shown := ObjectText(content, text, inDm);
      View(sender, shown, sender == me, Preview(shown, url))
  }

  function Viewer(inDm: bool, me: string): Entry -> View {
    (e: Entry) => ViewOf(e, inDm, me)
  }

  /** `currentMessages`: the DM history while a DM is selected, the channel's messages otherwise, each rendered. */
  function Render(selectedDm: bool, dmHistory: seq<Entry>, messages: seq<Entry>, me: string): (r: seq<View>)
    ensures selectedDm ==> |r| == |dmHistory| && forall i :: 0 <= i < |r| ==> r[i] == ViewOf(dmHistory[i], true, me)
    ensures !selectedDm ==> |r| == |messages| && forall i :: 0 <= i < |r| ==> r[i] == ViewOf(messages[i], false, me)
  {
    MapSeq(if selectedDm then dmHistory else messages, Viewer(selectedDm, me))
  }
}
