/** The Python string operations the core relies on: `str.strip`,
    `str.splitlines`, `str.join`, `str(int)`, `str.lower` on file names and
    the ordering SQLite uses for TEXT columns. */
module Text {

  /** The characters for which Python's `str.isspace()` holds; `str.strip()`
      with no argument removes exactly these from both ends. */
  predicate IsWs(c: char) {
    c == ' ' || ('\t' <= c <= '\r') || ('\U{1c}' <= c <= '\U{1f}')
    || c == '\U{85}' || c == '\U{a0}' || c == '\U{1680}'
    || ('\U{2000}' <= c <= '\U{200a}') || c == '\U{2028}' || c == '\U{2029}'
    || c == '\U{202f}' || c == '\U{205f}' || c == '\U{3000}'
  }

  /** The line boundaries of `str.splitlines()` ("\r\n" counts as one). */
  predicate IsLineBreak(c: char) {
    c == '\n' || c == '\r' || c == '\U{0b}' || c == '\U{0c}'
    || ('\U{1c}' <= c <= '\U{1e}') || c == '\U{85}' || c == '\U{2028}' || c == '\U{2029}'
  }

  predicate NoBreak(s: string) {
    forall i :: 0 <= i < |s| ==> !IsLineBreak(s[i])
  }

  predicate AllWs(s: string) {
    forall i :: 0 <= i < |s| ==> IsWs(s[i])
  }

  /** `s` does not begin or end with whitespace: what `strip()` leaves behind. */
  predicate Stripped(s: string) {
    s == [] || (!IsWs(s[0]) && !IsWs(s[|s| - 1]))
  }

  /** `r` occurs in `s` starting at index `lo`. */
  ghost predicate SliceAt(r: string, s: string, lo: int) {
    0 <= lo <= |s| - |r| && r == s[lo..lo + |r|]
  }

  // ---------------------------------------------------------------------
  // strip

  /** The length of the longest prefix of `s` made of characters in `drop`. */
  function LeadLen(s: string, drop: char -> bool): (n: nat)
    ensures n <= |s|
    ensures forall i :: 0 <= i < n ==> drop(s[i])
    ensures n < |s| ==> !drop(s[n])
  {
    if |s| > 0 && drop(s[0]) then 1 + LeadLen(s[1..], drop) else 0
  }

  /** The length of the longest suffix of `s` made of characters in `drop`. */
  function TrailLen(s: string, drop: char -> bool): (n: nat)
    ensures n <= |s|
    ensures forall i :: |s| - n <= i < |s| ==> drop(s[i])
    ensures n < |s| ==> !drop(s[|s| - n - 1])
  {
    if |s| > 0 && drop(s[|s| - 1]) then 1 + TrailLen(s[..|s| - 1], drop) else 0
  }

  /** `s.lstrip(chars)`: drops the longest prefix of characters in `drop`. */
  function TrimStart(s: string, drop: char -> bool): (r: string)
    ensures |r| <= |s| && r == s[|s| - |r|..]
    ensures r != [] ==> !drop(r[0])
    ensures forall i :: 0 <= i < |s| - |r| ==> drop(s[i])
  {
    s[LeadLen(s, drop)..]
  }

  /** `s.rstrip(chars)`: drops the longest suffix of characters in `drop`. */
  function TrimEnd(s: string, drop: char -> bool): (r: string)
    ensures |r| <= |s| && r == s[..|r|]
    ensures r != [] ==> !drop(r[|r| - 1])
    ensures forall i :: |r| <= i < |s| ==> drop(s[i])
  {
    s[..|s| - TrailLen(s, drop)]
  }

  /** Python's `s.strip()`. */
  function Strip(s: string): (r: string)
    ensures Stripped(r)
    ensures r == [] <==> AllWs(s)
  {
    var t := TrimStart(s, IsWs);
    var r := TrimEnd(t, IsWs);
    r
  }

  /** What `strip()` returns is a slice of its argument: the text between
      the leading and the trailing whitespace. */
  lemma StripSlice(s: string) returns (lo: nat)
    ensures SliceAt(Strip(s), s, lo)
  {
    var t := TrimStart(s, IsWs);
    var r := TrimEnd(t, IsWs);
    assert r == s[|s| - |t|..|s| - |t| + |r|];
    lo := |s| - |t|;
  }

  /** Stripping a string that has no whitespace at either end changes nothing. */
  lemma StripStripped(s: string)
    requires Stripped(s)
    ensures Strip(s) == s
  {
    if s != [] {
      assert LeadLen(s, IsWs) == 0;
      assert TrailLen(s, IsWs) == 0;
    }
  }

  /** Stripping a text that has no whitespace at its ends, followed by
      whitespace only, gives back that text. */
  lemma StripTrailingWs(s: string, tail: string)
    requires s != [] && Stripped(s) && AllWs(tail)
    ensures Strip(s + tail) == s
  {
    var u := s + tail;
    assert u[0] == s[0];
    assert TrimStart(u, IsWs) == u;
    var r := TrimEnd(u, IsWs);
    assert r == u[..|s|] == s;
  }

  /** Stripping keeps a string free of line boundaries. */
  lemma StripNoBreak(s: string)
    requires NoBreak(s)
    ensures NoBreak(Strip(s))
  {
    var r := Strip(s);
    var lo := StripSlice(s);
    forall i | 0 <= i < |r| ensures !IsLineBreak(r[i]) {
      assert r[i] == s[lo + i];
    }
  }

  lemma StripIdempotent(s: string)
    ensures Strip(Strip(s)) == Strip(s)
  {
    StripStripped(Strip(s));
  }

  // ---------------------------------------------------------------------
  // splitlines and join

  /** The index of the first line boundary of `s`, or `|s|` if there is none. */
  function FirstBreak(s: string): (i: nat)
    ensures i <= |s|
    ensures forall j :: 0 <= j < i ==> !IsLineBreak(s[j])
    ensures i < |s| ==> IsLineBreak(s[i])
  {
    if s == [] || IsLineBreak(s[0]) then 0 else 1 + FirstBreak(s[1..])
  }

  /** Python's `s.splitlines()`: the text between line boundaries, with no
      trailing empty line after a final boundary and no line at all for "". */
  function SplitLines(s: string): (lines: seq<string>)
    ensures forall l :: l in lines ==> NoBreak(l)
    ensures |lines| <= |s|
    decreases |s|
  {
    if s == [] then []
    else
      var i := FirstBreak(s);
      if i == |s| then [s]
      else
        var next := if s[i] == '\r' && i + 1 < |s| && s[i + 1] == '\n' then i + 2 else i + 1;
        [s[..i]] + SplitLines(s[next..])
  }

  /** Python's `sep.join(parts)`. */
  function JoinWith(parts: seq<string>, sep: string): string
  {
    if parts == [] then ""
    else if |parts| == 1 then parts[0]
    else parts[0] + sep + JoinWith(parts[1..], sep)
  }

  /** Joining one more part adds exactly one separator before it. */
  lemma {:induction false} JoinWithSnoc(parts: seq<string>, p: string, sep: string)
    requires parts != []
    ensures JoinWith(parts + [p], sep) == JoinWith(parts, sep) + sep + p
  {
    if |parts| == 1 {
      assert parts + [p] == [parts[0], p];
    } else {
      assert (parts + [p])[1..] == parts[1..] + [p];
      JoinWithSnoc(parts[1..], p, sep);
    }
  }

  /** Splitting lines that were joined with "\n" gives them back, provided
      no line is empty and none holds a line boundary. */
  lemma {:induction false} SplitJoin(lines: seq<string>)
    requires forall l :: l in lines ==> l != [] && NoBreak(l)
    ensures SplitLines(JoinWith(lines, "\n")) == lines
  {
    if |lines| == 1 {
      var l := lines[0];
      assert l in lines;
      assert FirstBreak(l) == |l|;
    } else if |lines| > 1 {
      var l, rest := lines[0], lines[1..];
      assert l in lines;
      var s := JoinWith(lines, "\n");
      assert s == l + "\n" + JoinWith(rest, "\n");
      assert s[|l|] == '\n';
      var i := FirstBreak(s);
      assert i == |l|;
      assert s[..i] == l;
      assert s[i + 1..] == JoinWith(rest, "\n");
      forall m | m in rest ensures m != [] && NoBreak(m) {
        assert m in lines;
      }
      SplitJoin(rest);
    }
  }

  // ---------------------------------------------------------------------
  // str(n) for the entry numbers of a context

  function Digit(d: nat): (c: char)
    requires d < 10
    ensures '0' <= c <= '9'
  {
    (48 + d) as char
  }

  /** Python's `str(n)` for a natural number: its decimal numeral. */
  function DecimalString(n: nat): (r: string)
    ensures r != []
    ensures forall i :: 0 <= i < |r| ==> '0' <= r[i] <= '9'
  {
    if n < 10 then [Digit(n)] else DecimalString(n / 10) + [Digit(n % 10)]
  }

  /** The value of a numeral: the reference `DecimalString` is checked against. */
  function ParseDecimal(s: string): nat
    requires forall i :: 0 <= i < |s| ==> '0' <= s[i] <= '9'
  {
    if s == [] then 0 else 10 * ParseDecimal(s[..|s| - 1]) + (s[|s| - 1] as int - 48)
  }

  lemma {:induction false} DecimalRoundTrip(n: nat)
    ensures ParseDecimal(DecimalString(n)) == n
  {
    if n >= 10 {
      var s := DecimalString(n);
      assert s[..|s| - 1] == DecimalString(n / 10);
      DecimalRoundTrip(n / 10);
    }
  }

  // ---------------------------------------------------------------------
  // str.lower and str.endswith on file names

  function LowerChar(c: char): char {
    if 'A' <= c <= 'Z' then (c as int + 32) as char else c
  }

  /** `s.lower()` on the ASCII letters. */
  function Lower(s: string): (r: string)
    ensures |r| == |s|
    ensures forall i :: 0 <= i < |s| ==> r[i] == LowerChar(s[i])
  {
    seq(|s|, i requires 0 <= i < |s| => LowerChar(s[i]))
  }

  predicate EndsWith(s: string, suffix: string) {
    |suffix| <= |s| && s[|s| - |suffix|..] == suffix
  }

  // ---------------------------------------------------------------------
  // Ordering of TEXT values

  /** SQLite's BINARY collation compares the UTF-8 bytes of two TEXT values,
      which orders them lexicographically by code point. */
  predicate LexLe(a: string, b: string) {
    a == [] || (b != [] && (a[0] < b[0] || (a[0] == b[0] && LexLe(a[1..], b[1..]))))
  }

  lemma {:induction false} LexTotal(a: string, b: string)
    ensures LexLe(a, b) || LexLe(b, a)
  {
    if a != [] && b != [] && a[0] == b[0] {
      LexTotal(a[1..], b[1..]);
    }
  }

  lemma {:induction false} LexTrans(a: string, b: string, c: string)
    requires LexLe(a, b) && LexLe(b, c)
    ensures LexLe(a, c)
  {
    if a != [] && a[0] == b[0] && b[0] == c[0] {
      LexTrans(a[1..], b[1..], c[1..]);
    }
  }
}
