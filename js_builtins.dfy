/** The few JavaScript built-ins the dashboard's data layer relies on, given
    the meaning ECMAScript gives them: `Math.round`, `Math.min`,
    `Array.prototype.slice(0, n)`, `String.prototype.trim`,
    `filter(Boolean)` over optional strings and `Array.prototype.join`. */
module JsBuiltins {
  import opened Wrappers

  /** `Math.min` on two integers. */
  function Min(a: int, b: int): int {
    if a <= b then a else b
  }

  /** `Math.round`: the nearest integer, a half rounded towards +infinity
      (so `Math.round(2.5) == 3` and `Math.round(-2.5) == -2`). */
  function Round(x: real): (n: int)
    ensures x - 1.0 / 2.0 < n as real <= x + 1.0 / 2.0
  {
    (x + 1.0 / 2.0).Floor
  }

  /** Rounding an integer-valued number leaves it unchanged. */
  lemma RoundOfInteger(k: int)
    ensures Round(k as real) == k
  {
  }

  /** Rounding never reverses the order of two numbers. */
  lemma RoundMonotone(x: real, y: real)
    requires x <= y
    ensures Round(x) <= Round(y)
  {
  }

  /** `s.slice(0, n)`: the first `n` elements, or all of them when there are fewer. */
  function Slice<T>(s: seq<T>, n: nat): (r: seq<T>)
    ensures |r| == Min(|s|, n)
    ensures r == s[..|r|]
  {
    if |s| <= n then s else s[..n]
  }

  /** The characters `String.prototype.trim` removes: the WhiteSpace and
      LineTerminator code points of ECMAScript (section 12.2 and 12.3 of
      ECMA-262), that is tab, line feed, vertical tab, form feed, carriage
      return, the Unicode space separators, the byte order mark and the
      line and paragraph separators. */
  predicate IsWhiteSpace(c: char) {
    || c == '\t' || c == '\n' || c == '\U{B}' || c == '\U{C}' || c == '\r'
    || c == ' ' || c == '\U{A0}' || c == '\U{1680}'
    || ('\U{2000}' <= c <= '\U{200A}')
    || c == '\U{2028}' || c == '\U{2029}' || c == '\U{202F}' || c == '\U{205F}'
    || c == '\U{3000}' || c == '\U{FEFF}'
  }

  /** Every character of `t` is white space. */
  ghost predicate AllWhiteSpace(t: string) {
    forall j :: 0 <= j < |t| ==> IsWhiteSpace(t[j])
  }

  /** `r` is the piece of `s` that starts at index `i`, and everything of `s`
      before and after that piece is white space. */
  ghost predicate TrimmedAt(s: string, r: string, i: int) {
    0 <= i && i + |r| <= |s| && r == s[i..i + |r|] && AllWhiteSpace(s[..i]) && AllWhiteSpace(s[i + |r|..])
  }

  /** Where the leading white space from index `k` on ends: the first index
      at or after `k` that holds no white space, or the length. */
  function SkipLeading(s: string, k: nat): (n: nat)
    requires k <= |s|
    ensures k <= n <= |s|
    ensures forall j :: k <= j < n ==> IsWhiteSpace(s[j])
    ensures n == |s| || !IsWhiteSpace(s[n])
    decreases |s| - k
  {
    if k == |s| || !IsWhiteSpace(s[k]) then k else SkipLeading(s, k + 1)
  }

  /** Where the trailing white space before index `e` starts, looking no
      further left than `lo`. */
  function SkipTrailing(s: string, lo: nat, e: nat): (m: nat)
    requires lo <= e <= |s|
    ensures lo <= m <= e
    ensures forall j :: m <= j < e ==> IsWhiteSpace(s[j])
    ensures m == lo || !IsWhiteSpace(s[m - 1])
    decreases e
  {
    if e == lo || !IsWhiteSpace(s[e - 1]) then e else SkipTrailing(s, lo, e - 1)
  }

  /** `s.trim()`: the piece of `s` left once the white space around it is
      removed; it neither starts nor ends with white space, and it is empty
      exactly when `s` is all white space. */
  function Trim(s: string): (r: string)
    ensures |r| <= |s|
    ensures exists i :: TrimmedAt(s, r, i)
    ensures r == [] || (!IsWhiteSpace(r[0]) && !IsWhiteSpace(r[|r| - 1]))
    ensures r == [] <==> forall i :: 0 <= i < |s| ==> IsWhiteSpace(s[i])
  {
    var i := SkipLeading(s, 0);
    var e := SkipTrailing(s, i, |s|);
    PieceBetween(s, i, e);
    s[i..e]
  }

  /** The piece between the leading and the trailing white space is trimmed
      at its start, and it is empty exactly when all of `s` is white space. */
  lemma PieceBetween(s: string, i: nat, e: nat)
    requires i <= e <= |s|
    requires forall j :: 0 <= j < i ==> IsWhiteSpace(s[j])
    requires forall j :: e <= j < |s| ==> IsWhiteSpace(s[j])
    requires i == |s| || !IsWhiteSpace(s[i])
    requires e == i || !IsWhiteSpace(s[e - 1])
    ensures TrimmedAt(s, s[i..e], i)
    ensures e == i <==> forall j :: 0 <= j < |s| ==> IsWhiteSpace(s[j])
  {
    forall j | 0 <= j < i
      ensures IsWhiteSpace(s[..i][j])
    {
      assert s[..i][j] == s[j];
    }
    forall j | 0 <= j < |s| - e
      ensures IsWhiteSpace(s[e..][j])
    {
      assert s[e..][j] == s[e + j];
    }
  }

  /** `trim()` is the only piece of `s` with nothing but white space around
      it that neither starts nor ends with white space. */
  lemma TrimUnique(s: string, r: string, i: int)
    requires TrimmedAt(s, r, i)
    requires r == [] || (!IsWhiteSpace(r[0]) && !IsWhiteSpace(r[|r| - 1]))
    ensures r == Trim(s)
  {
    var t := Trim(s);
    var i0 :| TrimmedAt(s, t, i0);
    WhiteSpaceAround(s, r, i);
    if r == [] {
      assert forall j :: 0 <= j < |s| ==> IsWhiteSpace(s[j]);
    } else {
      assert s[i] == r[0] && s[i + |r| - 1] == r[|r| - 1];
      assert t != [];
      WhiteSpaceAround(s, t, i0);
      assert s[i0] == t[0] && s[i0 + |t| - 1] == t[|t| - 1];
      assert i0 == i && i0 + |t| == i + |r|;
    }
  }

  /** The white space around a piece, character by character. */
  lemma WhiteSpaceAround(s: string, r: string, i: int)
    requires TrimmedAt(s, r, i)
    ensures forall j :: 0 <= j < i ==> IsWhiteSpace(s[j])
    ensures forall j :: i + |r| <= j < |s| ==> IsWhiteSpace(s[j])
  {
    forall j | 0 <= j < i
      ensures IsWhiteSpace(s[j])
    {
      assert s[..i][j] == s[j];
    }
    forall j | i + |r| <= j < |s|
      ensures IsWhiteSpace(s[j])
    {
      assert s[i + |r|..][j - i - |r|] == s[j];
    }
  }

  /** JavaScript truthiness of an optional string: present and not empty. */
  predicate Truthy(s: Option<string>) {
    s.Some? && s.value != ""
  }

  /** `parts.filter(Boolean)`: the present, non-empty strings, in order. */
  function Compact(parts: seq<Option<string>>): (r: seq<string>)
    ensures |r| <= |parts|
    ensures forall s :: s in r <==> Some(s) in parts && s != ""
  {
    if parts == [] then []
    else
      var rest := Compact(parts[1..]);
      assert forall s :: Some(s) in parts <==> Some(s) == parts[0] || Some(s) in parts[1..];
      if Truthy(parts[0]) then [parts[0].value] + rest else rest
  }

  /** Filtering a non-empty list keeps its first slot when that is truthy,
      in front of the filtered rest. */
  lemma CompactCons(parts: seq<Option<string>>)
    requires parts != []
    ensures Compact(parts) == (if Truthy(parts[0]) then [parts[0].value] else []) + Compact(parts[1..])
  {
  }

  /** Filtering distributes over concatenation: the kept strings of `a` come
      first, those of `b` after them, each as often as it occurs. With
      `CompactCons` on a single slot this fixes the whole result. */
  lemma {:induction false} CompactAppend(a: seq<Option<string>>, b: seq<Option<string>>)
    ensures Compact(a + b) == Compact(a) + Compact(b)
  {
    if a == [] {
      assert a + b == b;
    } else {
      assert (a + b)[0] == a[0];
      assert (a + b)[1..] == a[1..] + b;
      CompactAppend(a[1..], b);
      var head := if Truthy(a[0]) then [a[0].value] else [];
      CompactCons(a + b);
      CompactCons(a);
      assert head + (Compact(a[1..]) + Compact(b)) == (head + Compact(a[1..])) + Compact(b);
    }
  }

  /** `s` ends with `suffix`. */
  predicate EndsWith(s: string, suffix: string) {
    |suffix| <= |s| && s[|s| - |suffix|..] == suffix
  }

  /** The summed length of the parts. */
  function TotalLength(parts: seq<string>): nat {
    if parts == [] then 0 else |parts[0]| + TotalLength(parts[1..])
  }

  /** Where part `k` starts once the parts are laid end to end with `sep`
      between neighbours. */
  function PartStart(parts: seq<string>, sep: string, k: nat): nat
    requires k <= |parts|
  {
    TotalLength(parts[..k]) + k * |sep|
  }

  /** Part `k` sits at its start in `r`, followed by `sep` when another part
      comes after it. */
  ghost predicate PartAt(r: string, parts: seq<string>, sep: string, k: nat)
    requires k < |parts|
  {
    var o := PartStart(parts, sep, k);
    && o + |parts[k]| <= |r| && r[o..o + |parts[k]|] == parts[k]
    && (k + 1 < |parts| ==>
          o + |parts[k]| + |sep| <= |r| && r[o + |parts[k]|..o + |parts[k]| + |sep|] == sep)
  }

  /** Every part of `parts` sits at its start in `r`, with `sep` after all
      but the last. */
  ghost predicate LaidOut(r: string, parts: seq<string>, sep: string) {
    forall k: nat :: k < |parts| ==> PartAt(r, parts, sep, k)
  }

  /** `parts.join(sep)`: the parts laid end to end with one separator between
      neighbours, and nothing else (the length leaves no room for more). */
  function Join(parts: seq<string>, sep: string): (r: string)
    ensures LaidOut(r, parts, sep)
    ensures |r| == TotalLength(parts) + if parts == [] then 0 else |sep| * (|parts| - 1)
    ensures parts != [] ==> parts[0] <= r && EndsWith(r, parts[|parts| - 1])
  {
    if |parts| == 0 then ""
    else if |parts| == 1 then
      assert parts[..0] == [];
      parts[0]
    else
      var tail := Join(parts[1..], sep);
      var r := parts[0] + sep + tail;
      JoinStep(parts, sep, tail);
      assert |sep| * (|parts| - 1) == |sep| + |sep| * (|parts| - 2);
      assert r[|r| - |tail|..] == tail;
      assert parts[1..][|parts| - 2] == parts[|parts| - 1];
      r
  }

  /** The total length of the first `k + 1` parts is the first part's length
      plus that of the next `k`. */
  lemma TotalLengthOfPrefix(parts: seq<string>, k: nat)
    requires 1 <= k <= |parts|
    ensures TotalLength(parts[..k]) == |parts[0]| + TotalLength(parts[1..][..k - 1])
  {
    assert parts[..k][1..] == parts[1..][..k - 1];
  }

  /** Putting the first part and a separator in front of a laid-out tail lays
      out all the parts. */
  lemma JoinStep(parts: seq<string>, sep: string, tail: string)
    requires |parts| >= 2 && LaidOut(tail, parts[1..], sep)
    ensures LaidOut(parts[0] + sep + tail, parts, sep)
  {
    assert parts[..0] == [];
    forall k: nat | 1 <= k < |parts|
      ensures PartAt(parts[0] + sep + tail, parts, sep, k)
    {
      JoinStepAt(parts, sep, tail, k);
    }
  }

  /** One part of the tail, moved right by the first part and a separator. */
  lemma JoinStepAt(parts: seq<string>, sep: string, tail: string, k: nat)
    requires 1 <= k < |parts| && PartAt(tail, parts[1..], sep, k - 1)
    ensures PartAt(parts[0] + sep + tail, parts, sep, k)
  {
    var r := parts[0] + sep + tail;
    var shift := |parts[0]| + |sep|;
    TotalLengthOfPrefix(parts, k);
    assert k * |sep| == |sep| + (k - 1) * |sep|;
    var o' := PartStart(parts[1..], sep, k - 1);
    assert PartStart(parts, sep, k) == shift + o';
    assert parts[1..][k - 1] == parts[k];
    assert r[shift + o'..shift + o' + |parts[k]|] == tail[o'..o' + |parts[k]|];
    if k + 1 < |parts| {
      assert r[shift + o' + |parts[k]|..shift + o' + |parts[k]| + |sep|]
          == tail[o' + |parts[k]|..o' + |parts[k]| + |sep|];
    }
  }

  /** Joining two or more parts is the first part, the separator and the
      join of the rest. */
  lemma JoinCons(parts: seq<string>, sep: string)
    requires |parts| >= 2
    ensures Join(parts, sep) == parts[0] + sep + Join(parts[1..], sep)
  {
  }

  /** Joining two parts puts the separator between them. */
  lemma JoinOfTwo(a: string, b: string, sep: string)
    ensures Join([a, b], sep) == a + sep + b
  {
    JoinCons([a, b], sep);
    assert [a, b][1..] == [b];
  }

  /** Joining three parts puts the separator between each pair of neighbours. */
  lemma JoinOfThree(a: string, b: string, c: string, sep: string)
    ensures Join([a, b, c], sep) == a + sep + b + sep + c
  {
    JoinCons([a, b, c], sep);
    assert [a, b, c][1..] == [b, c];
    JoinOfTwo(b, c, sep);
  }
}
