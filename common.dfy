/** Small value types and sequence/string helpers shared by every module. */
module Common {

  datatype Option<+T> = None | Some(value: T) {
    function GetOr(default: T): T {
      match this
      case Some(v) => v
      case None => default
    }
  }

  /** A key of a parsed JSON object: missing, present with `null`, or present with a value. */
  datatype Field<+T> = Absent | Null | Present(value: T) {
    /** Python's `data.get(key, default)`: the default only for a missing key; `null` reads as `None`. */
    function Get(default: T): (r: Option<T>)
      ensures r.None? <==> this.Null?
      ensures this.Absent? ==> r == Some(default)
      ensures this.Present? ==> r == Some(this.value)
    {
      match this
      case Absent => Some(default)
      case Null => None
      case Present(v) => Some(v)
    }
  }

  /** Python's and JavaScript's truthiness of an optional string: absent or empty is false. */
  predicate Truthy(s: Option<string>) {
    s.Some? && s.value != ""
  }

  /** `s.value or default` in Python: the stored text unless it is NULL or empty. */
  function OrDefault(s: Option<string>, default: string): (r: string)
    ensures Truthy(s) ==> r == s.value
    ensures !Truthy(s) ==> r == default
  {
    if Truthy(s) then s.value else default
  }

  // ---------------------------------------------------------------------------
  // Filtering: the model of `DELETE ... WHERE`, `list.filter` and list comprehensions.
  // ---------------------------------------------------------------------------

  function Filter<T(!new)>(s: seq<T>, p: T -> bool): (r: seq<T>)
    ensures |r| <= |s|
    ensures forall x :: x in r <==> x in s && p(x)
    ensures forall i :: 0 <= i < |r| ==> p(r[i])
  {
    if s == [] then [] else if p(s[0]) then [s[0]] + Filter(s[1..], p) else Filter(s[1..], p)
  }

  lemma {:induction false} FilterAll<T(!new)>(s: seq<T>, p: T -> bool)
    requires forall x :: x in s ==> p(x)
    ensures Filter(s, p) == s
  {
    if s != [] {
      FilterAll(s[1..], p);
    }
  }

  lemma {:induction false} FilterNone<T(!new)>(s: seq<T>, p: T -> bool)
    requires forall x :: x in s ==> !p(x)
    ensures Filter(s, p) == []
  {
    if s != [] {
      FilterNone(s[1..], p);
    }
  }

  /** Two predicates that agree on the elements of `s` filter it to the same sequence. */
  lemma {:induction false} FilterCongruent<T(!new)>(s: seq<T>, p: T -> bool, q: T -> bool)
    requires forall x :: x in s ==> p(x) == q(x)
    ensures Filter(s, p) == Filter(s, q)
  {
    if s != [] {
      FilterCongruent(s[1..], p, q);
    }
  }

  /** Filtering by `p` and then by `q` is filtering once by their conjunction `pq`. */
  lemma {:induction false} FilterFilter<T(!new)>(s: seq<T>, p: T -> bool, q: T -> bool, pq: T -> bool)
    requires forall x :: x in s ==> pq(x) == (p(x) && q(x))
    ensures Filter(Filter(s, p), q) == Filter(s, pq)
  {
    if s != [] {
      FilterFilter(s[1..], p, q, pq);
    }
  }

  lemma {:induction false} FilterAppend<T(!new)>(s: seq<T>, t: seq<T>, p: T -> bool)
    ensures Filter(s + t, p) == Filter(s, p) + Filter(t, p)
  {
    if s == [] {
      assert s + t == t;
    } else {
      assert (s + t)[1..] == s[1..] + t;
      FilterAppend(s[1..], t, p);
    }
  }

  /** A relation that holds between every earlier and later element still holds after filtering. */
  ghost predicate Pairwise<T>(s: seq<T>, R: (T, T) -> bool) {
    forall i, j :: 0 <= i < j < |s| ==> R(s[i], s[j])
  }

  lemma {:induction false} FilterPairwise<T(!new)>(s: seq<T>, p: T -> bool, R: (T, T) -> bool)
    requires Pairwise(s, R)
    ensures Pairwise(Filter(s, p), R)
  {
    if s != [] {
      var rest := s[1..];
      assert Pairwise(rest, R) by {
        forall i, j | 0 <= i < j < |rest| ensures R(rest[i], rest[j]) {
          assert rest[i] == s[i + 1] && rest[j] == s[j + 1];
        }
      }
      FilterPairwise(rest, p, R);
      if p(s[0]) {
        var f := Filter(rest, p);
        forall y | y in f ensures R(s[0], y) {
          var k :| 0 <= k < |rest| && rest[k] == y;
          assert s[k + 1] == y;
        }
        assert Filter(s, p) == [s[0]] + f;
      }
    }
  }

  /** Index of the first element of `s` satisfying `p`, if any. */
  function FindIndex<T>(s: seq<T>, p: T -> bool): (r: Option<nat>)
    ensures r.None? <==> forall i :: 0 <= i < |s| ==> !p(s[i])
    ensures r.Some? ==> r.value < |s| && p(s[r.value]) && forall i :: 0 <= i < r.value ==> !p(s[i])
  {
    if s == [] then None
    else if p(s[0]) then Some(0)
    else match FindIndex(s[1..], p)
      case None =>
        assert forall i :: 1 <= i < |s| ==> s[i] == s[1..][i - 1];
        None
      case Some(k) =>
        assert forall i :: 1 <= i < k + 1 ==> s[i] == s[1..][i - 1];
        Some(k + 1)
  }

  /** The first element of `s` satisfying `p` (SQLite's `fetchone` over a table scanned in row order). */
  function FindFirst<T>(s: seq<T>, p: T -> bool): (r: Option<T>)
    ensures r.None? <==> forall i :: 0 <= i < |s| ==> !p(s[i])
    ensures r.Some? ==> exists k :: 0 <= k < |s| && s[k] == r.value && p(r.value) && forall i :: 0 <= i < k ==> !p(s[i])
  {
    match FindIndex(s, p)
    case None => None
    case Some(k) => Some(s[k])
  }

  /** Appending an element that relates to every earlier one keeps a pairwise relation. */
  lemma AppendPairwise<T>(s: seq<T>, y: T, R: (T, T) -> bool)
    requires Pairwise(s, R)
    requires forall i :: 0 <= i < |s| ==> R(s[i], y)
    ensures Pairwise(s + [y], R)
  {
    var t := s + [y];
    forall i, j | 0 <= i < j < |t| ensures R(t[i], t[j]) {
      if j < |s| { assert t[i] == s[i] && t[j] == s[j]; } else { assert t[i] == s[i] && t[j] == y; }
    }
  }

  /** Replacing elements one-for-one with `f` keeps every key that `f` does not change. */
  function MapSeq<T, U>(s: seq<T>, f: T -> U): (r: seq<U>)
    ensures |r| == |s|
    ensures forall i :: 0 <= i < |s| ==> r[i] == f(s[i])
  {
    if s == [] then [] else [f(s[0])] + MapSeq(s[1..], f)
  }

  // ---------------------------------------------------------------------------
  // Strings.
  // ---------------------------------------------------------------------------

  predicate StartsWith(s: string, prefix: string) {
    |prefix| <= |s| && s[..|prefix|] == prefix
  }

  /** Number of occurrences of the character `c` in `s`. */
  function CountChar(s: string, c: char): (n: nat)
    ensures n <= |s|
    ensures n == 0 <==> c !in s
  {
    if s == [] then 0 else (if s[0] == c then 1 else 0) + CountChar(s[1..], c)
  }

  lemma {:induction false} CountCharAppend(s: string, t: string, c: char)
    ensures CountChar(s + t, c) == CountChar(s, c) + CountChar(t, c)
  {
    if s == [] {
      assert s + t == t;
    } else {
      assert (s + t)[1..] == s[1..] + t;
      CountCharAppend(s[1..], t, c);
    }
  }

  /** Index of the first `c` in `s`, if any. */
  function IndexOfChar(s: string, c: char): (r: Option<nat>)
    ensures r.None? <==> c !in s
    ensures r.Some? ==> r.value < |s| && s[r.value] == c && c !in s[..r.value]
    ensures r.Some? ==> forall j :: 0 <= j < r.value ==> s[j] != c
  {
    if s == [] then None
    else if s[0] == c then Some(0)
    else match IndexOfChar(s[1..], c)
      case None => None
      case Some(k) =>
        assert s[..k + 1] == [s[0]] + s[1..][..k];
        Some(k + 1)
  }

  /** Index of the last `c` in `s`, if any. */
  function LastIndexOfChar(s: string, c: char): (r: Option<nat>)
    ensures r.None? <==> c !in s
    ensures r.Some? ==> r.value < |s| && s[r.value] == c && c !in s[r.value + 1..]
  {
    if s == [] then None
    else if s[|s| - 1] == c then Some(|s| - 1)
    else
      var r := LastIndexOfChar(s[..|s| - 1], c);
      if r.Some? then
        assert s[r.value + 1..] == s[..|s| - 1][r.value + 1..] + [s[|s| - 1]];
        r
      else
        assert s == s[..|s| - 1] + [s[|s| - 1]];
        r
  }

  /** Python's `s.split(c)[-1]`: the text after the last `c`, or all of `s` when there is none. */
  function AfterLast(s: string, c: char): (r: string)
    ensures c !in r
    ensures c !in s ==> r == s
    ensures c in s ==> exists k :: 0 <= k < |s| && s == s[..k] + [c] + r
  {
    match LastIndexOfChar(s, c)
    case None => s
    case Some(k) =>
      assert s == s[..k] + [c] + s[k + 1..];
      s[k + 1..]
  }

  /** Splitting at the last `c` gives back a suffix that was appended after a `c` and holds none. */
  lemma AfterLastAppend(p: string, c: char, e: string)
    requires c !in e
    ensures AfterLast(p + [c] + e, c) == e
  {
    var s := p + [c] + e;
    var k := LastIndexOfChar(s, c).value;
    assert s[|p|] == c;
    assert forall j :: k + 1 <= j < |s| ==> s[j] != c by {
      assert forall j :: k + 1 <= j < |s| ==> s[j] == s[k + 1..][j - k - 1];
    }
    assert forall j :: |p| < j < |s| ==> s[j] != c by {
      assert forall j :: |p| < j < |s| ==> s[j] == e[j - |p| - 1];
    }
    assert s[k + 1..] == e;
  }

  /**
   * A path built as `dir + (pre + hex + "." + ext)` starts with `dir + pre`, has the eight
   * characters of `hex` right after it and ends in the extension `ext`.
   */
  lemma DottedNameShape(dir: string, pre: string, hex: string, ext: string)
    requires |hex| == 8 && '.' !in ext
    ensures var url := dir + (pre + hex + "." + ext);
      && StartsWith(url, dir + pre)
      && AfterLast(url, '.') == ext
      && url[|dir| + |pre|..][..8] == hex
  {
    var url := dir + (pre + hex + "." + ext);
    assert url == (dir + pre + hex) + "." + ext;
    assert url[..|dir + pre|] == dir + pre;
    assert url[|dir| + |pre|..] == hex + "." + ext;
    AfterLastAppend(dir + pre + hex, '.', ext);
  }

  /** Python's `int`-to-`str` for a natural number, in base 10. */
  function NatToString(n: nat): (r: string)
    ensures |r| >= 1
    ensures forall i :: 0 <= i < |r| ==> '0' <= r[i] <= '9'
    decreases n
  {
    var d := [(('0' as int) + n % 10) as char];
    if n < 10 then d else NatToString(n / 10) + d
  }

  /** The integer a string of decimal digits denotes. */
  function DigitsValue(s: string): int
    requires forall i :: 0 <= i < |s| ==> '0' <= s[i] <= '9'
  {
    if s == [] then 0 else DigitsValue(s[..|s| - 1]) * 10 + (s[|s| - 1] as int - '0' as int)
  }

  /** Python's `str()` of an integer. */
  function IntToString(n: int): (r: string)
    ensures forall i :: 0 <= i < |r| ==> r[i] == '-' || '0' <= r[i] <= '9'
  {
    if n < 0 then "-" + NatToString(-n) else NatToString(n)
  }

  lemma {:induction false} NatToStringValue(n: nat)
    ensures DigitsValue(NatToString(n)) == n
    decreases n
  {
    var r := NatToString(n);
    if n >= 10 {
      NatToStringValue(n / 10);
      assert r[..|r| - 1] == NatToString(n / 10);
    }
  }

  /** `pat` occurs in `s` starting at index `i`. */
  predicate MatchAt(s: string, pat: string, i: int) {
    0 <= i <= |s| - |pat| && s[i..i + |pat|] == pat
  }

  /** `pat` occurs somewhere in `s`. */
  ghost predicate Occurs(s: string, pat: string) {
    exists i :: MatchAt(s, pat, i)
  }

  /** A match in `s` away from the front is a match in `s[1..]`, one place earlier, and back. */
  lemma MatchShift(s: string, pat: string, i: int)
    requires s != [] && 1 <= i
    ensures MatchAt(s, pat, i) <==> MatchAt(s[1..], pat, i - 1)
  {
    if 0 <= i - 1 <= |s[1..]| - |pat| {
      assert s[1..][i - 1..i - 1 + |pat|] == s[i..i + |pat|];
    }
  }

  /**
   * JavaScript's WhiteSpace and LineTerminator characters, the set both `String.prototype.trim`
   * and the regex class `\s` use: tab, vertical tab, form feed, the byte-order mark, the
   * space separators of Unicode (category Zs), line feed, carriage return and the line and
   * paragraph separators. All of them are a single UTF-16 unit.
   */
  predicate IsSpace(c: char) {
    c == ' ' || c == '\t' || c == '\n' || c == '\r' || c == '\U{B}' || c == '\U{C}'
    || c == '\U{A0}' || c == '\U{1680}' || '\U{2000}' <= c <= '\U{200A}' || c == '\U{202F}'
    || c == '\U{205F}' || c == '\U{3000}' || c == '\U{2028}' || c == '\U{2029}' || c == '\U{FEFF}'
  }

  /** `!s.trim()` in JavaScript: the string is empty or made only of whitespace. */
  predicate IsBlank(s: string) {
    forall i :: 0 <= i < |s| ==> IsSpace(s[i])
  }

  /** ASCII lower-casing, the part of Python's `str.lower` that file extensions use. */
  function LowerAscii(s: string): (r: string)
    ensures |r| == |s|
    ensures forall i :: 0 <= i < |s| ==> if 'A' <= s[i] <= 'Z' then r[i] == (s[i] as int + 32) as char else r[i] == s[i]
  {
    if s == [] then []
    else [if 'A' <= s[0] <= 'Z' then (s[0] as int + 32) as char else s[0]] + LowerAscii(s[1..])
  }

  function Reverse<T>(s: seq<T>): (r: seq<T>)
    ensures |r| == |s| && forall i :: 0 <= i < |s| ==> r[i] == s[|s| - 1 - i]
  {
    if s == [] then [] else Reverse(s[1..]) + [s[0]]
  }

  /** `for row in rows: out.append(f(row))`. */
  method AppendEach<T, U>(rows: seq<T>, f: T -> U) returns (out: seq<U>)
    ensures out == MapSeq(rows, f)
  {
    out := [];
    var i := 0;
    while i < |rows|
      invariant 0 <= i <= |rows|
      invariant |out| == i && forall k :: 0 <= k < i ==> out[k] == f(rows[k])
    {
      out := out + [f(rows[i])];
      i := i + 1;
    }
  }

  /** Last `n` elements of `s` (all of them when `s` is shorter). */
  function LastN<T>(s: seq<T>, n: nat): (r: seq<T>)
    ensures |r| == if n < |s| then n else |s|
    ensures r == s[|s| - |r|..]
  {
    if n < |s| then s[|s| - n..] else s
  }

  /** First `n` elements of `s` (all of them when `s` is shorter). */
  function FirstN<T>(s: seq<T>, n: nat): (r: seq<T>)
    ensures |r| == if n < |s| then n else |s|
    ensures r == s[..|r|]
  {
    if n < |s| then s[..n] else s
  }

  /** `ORDER BY ... DESC LIMIT n` read back in ascending order is the last `n` in ascending order. */
  lemma NewestFirstReversed<T>(s: seq<T>, n: nat)
    ensures Reverse(FirstN(Reverse(s), n)) == LastN(s, n)
  {
    var a := Reverse(FirstN(Reverse(s), n));
    var b := LastN(s, n);
    assert |a| == |b|;
    forall i | 0 <= i < |a| ensures a[i] == b[i] {
      var m := |a|;
      assert a[i] == FirstN(Reverse(s), n)[m - 1 - i] == Reverse(s)[m - 1 - i] == s[|s| - 1 - (m - 1 - i)];
    }
  }
}
