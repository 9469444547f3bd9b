/** `_strip_think_content` of services/langgraph_agent.py: the reasoning
    markup a model may emit is removed from its reply in three regular
    expression substitutions, and the result is stripped. Each substitution
    is written as the left-to-right scan Python's `re.sub` performs. */
module Think {
  import opened Wrappers
  import opened Text

  const Open: string := "<think>"

  const Close: string := "</think>"

  /** Text character `c` matches pattern character `p` under `re.IGNORECASE`:
      an ASCII lower-case letter also matches its capital, and Python's
      case-insensitive matching adds U+0130 and U+0131 for "i", the Kelvin
      sign for "k" and the long s for "s". */
  predicate FoldEq(c: char, p: char) {
    c == p
    || ('a' <= p <= 'z' && c as int == p as int - 32)
    || (p == 'i' && (c == '\U{130}' || c == '\U{131}'))
    || (p == 'k' && c == '\U{212a}')
    || (p == 's' && c == '\U{17f}')
  }

  /** The literal pattern `pat` matches `s` case-insensitively at index `i`. */
  predicate MatchesAt(s: string, pat: string, i: nat) {
    i + |pat| <= |s| && forall k :: 0 <= k < |pat| ==> FoldEq(s[i + k], pat[k])
  }

  /** The first index at or after `from` where `pat` matches, if any. */
  function Find(s: string, pat: string, from: nat): (r: Option<nat>)
    requires from <= |s|
    ensures r.Some? ==> from <= r.value && MatchesAt(s, pat, r.value)
    ensures r.Some? ==> forall p :: from <= p < r.value ==> !MatchesAt(s, pat, p)
    ensures r.None? ==> forall p :: from <= p <= |s| ==> !MatchesAt(s, pat, p)
    decreases |s| - from
  {
    if MatchesAt(s, pat, from) then Some(from)
    else if from == |s| then None
    else Find(s, pat, from + 1)
  }

  /** A match at `i` with none between `from` and `i` is what `Find` returns. */
  lemma FindAt(s: string, pat: string, from: nat, i: nat)
    requires from <= i <= |s| && MatchesAt(s, pat, i)
    requires forall p :: from <= p < i ==> !MatchesAt(s, pat, p)
    ensures Find(s, pat, from) == Some(i)
  {
  }

  /** One character that does not match rules out a match. */
  lemma Mismatch(s: string, pat: string, p: nat, k: nat)
    requires k < |pat| && p + k < |s| && !FoldEq(s[p + k], pat[k])
    ensures !MatchesAt(s, pat, p)
  {
  }

  /** A tag cannot start at a character other than '<'. */
  lemma NoTagWithoutBracket(s: string, pat: string, p: nat)
    requires pat != [] && pat[0] == '<' && p < |s| && s[p] != '<'
    ensures !MatchesAt(s, pat, p)
  {
    Mismatch(s, pat, p, 0);
  }

  // ---------------------------------------------------------------------
  // Pass 1: re.sub(r"<think>.*?</think>", "", text, flags=re.I | re.S)

  /** Each opening tag is removed together with everything up to the nearest
      closing tag after it and that closing tag; scanning resumes after the
      closing tag. When the first opening tag has no closing tag after it, no
      later one has either, and the text is left as it is. */
  function RemoveClosedBlocks(s: string): string
    decreases |s|
  {
    match Find(s, Open, 0)
    case None => s
    case Some(i) =>
      match Find(s, Close, i + 7)
      case None => s
      case Some(j) => s[..i] + RemoveClosedBlocks(s[j + 8..])
  }

  /** A tag `t` written in any letter case matches where it sits in a text. */
  lemma TagInText(pre: string, t: string, post: string, pat: string)
    requires |t| == |pat| && MatchesAt(t, pat, 0)
    ensures MatchesAt(pre + t + post, pat, |pre|)
  {
    var s := pre + t + post;
    forall k | 0 <= k < |pat| ensures FoldEq(s[|pre| + k], pat[k]) {
      assert s[|pre| + k] == t[k];
    }
  }

  /** A block is removed, with its tags in whatever letter case, up to the
      nearest closing tag, whatever the reasoning holds; nothing before the
      first opening tag is touched. */
  lemma ClosedBlockRemoved(a: string, o: string, m: string, c: string, b: string)
    requires |o| == |Open| && MatchesAt(o, Open, 0)
    requires |c| == |Close| && MatchesAt(c, Close, 0)
    requires forall p :: 0 <= p < |a| ==> !MatchesAt(a + o + m + c + b, Open, p)
    requires forall p :: |a| + 7 <= p < |a| + 7 + |m| ==> !MatchesAt(a + o + m + c + b, Close, p)
    ensures RemoveClosedBlocks(a + o + m + c + b) == a + RemoveClosedBlocks(b)
  {
    var s := a + o + m + c + b;
    var i, j := |a|, |a| + 7 + |m|;
    assert s == a + o + (m + c + b);
    TagInText(a, o, m + c + b, Open);
    FindAt(s, Open, 0, i);
    assert s == (a + o + m) + c + b;
    TagInText(a + o + m, c, b, Close);
    FindAt(s, Close, i + 7, j);
    assert s[..i] == a;
    assert s[j + 8..] == b;
  }

  /** The same for a block at the start of the text. */
  lemma LeadingClosedBlockRemoved(o: string, m: string, c: string, b: string)
    requires |o| == |Open| && MatchesAt(o, Open, 0)
    requires |c| == |Close| && MatchesAt(c, Close, 0)
    requires forall p :: 7 <= p < 7 + |m| ==> !MatchesAt(o + m + c + b, Close, p)
    ensures RemoveClosedBlocks(o + m + c + b) == RemoveClosedBlocks(b)
  {
    assert [] + o == o;
    ClosedBlockRemoved([], o, m, c, b);
  }

  /** Text with no '<' holds no opening tag. */
  lemma NoBracketNoTag(s: string)
    requires '<' !in s
    ensures Find(s, Open, 0).None?
  {
    if Find(s, Open, 0).Some? {
      var i := Find(s, Open, 0).value;
      NoTagWithoutBracket(s, Open, i);
    }
  }

  /** Text with no '<' holds no tag, so the pass leaves it as it is. */
  lemma ClosedBlocksPlain(s: string)
    requires '<' !in s
    ensures RemoveClosedBlocks(s) == s
  {
    NoBracketNoTag(s);
  }

  // ---------------------------------------------------------------------
  // Pass 2: re.sub(r"<think>.*?(?=<think>|$)", "", cleaned, flags=re.I | re.S)

  /** Where `$` matches without MULTILINE: at the end of the text, or just
      before a line feed that ends it. */
  predicate DollarAt(s: string, e: nat) {
    e == |s| || (e == |s| - 1 && s[e] == '\n')
  }

  /** The end of the shortest `.*?` after an opening tag: the first index at
      or after `from` where another opening tag or `$` matches. */
  function TailEnd(s: string, from: nat): (e: nat)
    requires from <= |s|
    ensures from <= e <= |s|
    ensures MatchesAt(s, Open, e) || DollarAt(s, e)
    ensures forall p :: from <= p < e ==> !MatchesAt(s, Open, p) && !DollarAt(s, p)
    decreases |s| - from
  {
    if MatchesAt(s, Open, from) || DollarAt(s, from) then from else TailEnd(s, from + 1)
  }

  /** Each opening tag left after pass 1 is removed with everything up to the
      next opening tag or the end of the text. */
  function RemoveOpenTails(s: string): string
    decreases |s|
  {
    match Find(s, Open, 0)
    case None => s
    case Some(i) =>
      var e := TailEnd(s, i + 7);
      s[..i] + RemoveOpenTails(s[e..])
  }

  /** The line feed that ends `s`, if there is one. */
  function FinalNewline(s: string): string {
    if s != [] && s[|s| - 1] == '\n' then "\n" else ""
  }

  /** A match in a suffix is a match in the whole text. */
  lemma MatchesInSuffix(s: string, pat: string, e: nat, p: nat)
    requires e <= |s|
    ensures MatchesAt(s[e..], pat, p) <==> MatchesAt(s, pat, e + p)
  {
    if e + p + |pat| <= |s| {
      forall j | e + p <= j < e + p + |pat| ensures s[e..][j - e] == s[j] { }
    }
  }

  /** One step of pass 2: the text before the first opening tag is kept and
      the scan resumes where its tail ends. */
  lemma OpenTailStep(s: string, i: nat)
    requires Find(s, Open, 0) == Some(i)
    ensures i + 7 <= |s| && s[i + 6] == '>'
    ensures RemoveOpenTails(s) == s[..i] + RemoveOpenTails(s[TailEnd(s, i + 7)..])
  {
    assert FoldEq(s[i + 6], Open[6]);
  }

  /** A tail that runs to the very end leaves no final line feed behind. */
  lemma TailToEnd(s: string, i: nat)
    requires i + 7 <= |s| && s[i + 6] == '>' && TailEnd(s, i + 7) == |s|
    ensures FinalNewline(s) == ""
  {
    if |s| - 1 >= i + 7 {
      assert !DollarAt(s, |s| - 1);
    }
  }

  /** A tail that stops at another opening tag: the rest of the text starts
      with that tag and ends as the text does. */
  lemma TailToTag(s: string, e: nat)
    requires e <= |s| && MatchesAt(s, Open, e)
    ensures Find(s[e..], Open, 0) == Some(0)
    ensures FinalNewline(s[e..]) == FinalNewline(s)
  {
    MatchesInSuffix(s, Open, e, 0);
    FindAt(s[e..], Open, 0, 0);
  }

  /** Pass 2 in closed form: from the first opening tag on, everything is
      removed except a line feed that ends the text; without an opening tag
      the text is unchanged. */
  lemma {:induction false} OpenTailsClosedForm(s: string)
    ensures Find(s, Open, 0).None? ==> RemoveOpenTails(s) == s
    ensures Find(s, Open, 0).Some? ==>
      RemoveOpenTails(s) == s[..Find(s, Open, 0).value] + FinalNewline(s)
    decreases |s|
  {
    if Find(s, Open, 0).Some? {
      var i := Find(s, Open, 0).value;
      OpenTailStep(s, i);
      var e := TailEnd(s, i + 7);
      var t := s[e..];
      if MatchesAt(s, Open, e) {
        TailToTag(s, e);
        OpenTailsClosedForm(t);
        assert t[..0] == [];
      } else if e == |s| {
        assert t == [];
        TailToEnd(s, i);
      } else {
        assert t == "\n";
        assert Find(t, Open, 0).None?;
      }
    }
  }

  /** The text before the first opening tag, with a final line feed, holds
      no opening tag. */
  lemma NoTagBeforeFirst(s: string, i: nat, p: nat)
    requires i <= |s| && forall q :: 0 <= q < i ==> !MatchesAt(s, Open, q)
    ensures !MatchesAt(s[..i] + FinalNewline(s), Open, p)
  {
    var r := s[..i] + FinalNewline(s);
    if p + 7 <= i {
      forall j | p <= j < p + 7 ensures r[j] == s[j] { }
      assert MatchesAt(r, Open, p) == MatchesAt(s, Open, p);
    } else if p + 7 <= |r| {
      assert r[p + 6] == '\n' && Open[6] == '>';
      Mismatch(r, Open, p, 6);
    }
  }

  /** After pass 2 no opening tag is left, in any letter case. */
  lemma OpenTailsRemoveTags(s: string)
    ensures Find(RemoveOpenTails(s), Open, 0).None?
  {
    OpenTailsClosedForm(s);
    var r := RemoveOpenTails(s);
    if Find(s, Open, 0).Some? {
      var i := Find(s, Open, 0).value;
      forall p | 0 <= p <= |r| ensures !MatchesAt(r, Open, p) {
        NoTagBeforeFirst(s, i, p);
      }
    }
  }

  // ---------------------------------------------------------------------
  // Pass 3: re.sub(r"\n{3,}", "\n\n", cleaned)

  /** The number of line feeds `s` begins with. */
  function NewlineRun(s: string): (n: nat)
    ensures n <= |s|
    ensures forall k :: 0 <= k < n ==> s[k] == '\n'
    ensures n < |s| ==> s[n] != '\n'
  {
    if s != [] && s[0] == '\n' then 1 + NewlineRun(s[1..]) else 0
  }

  /** Every maximal run of three or more line feeds becomes two. */
  function CollapseNewlines(s: string): string
    decreases |s|
  {
    if s == [] then []
    else
      var n := NewlineRun(s);
      if n >= 3 then "\n\n" + CollapseNewlines(s[n..])
      else if n > 0 then s[..n] + CollapseNewlines(s[n..])
      else [s[0]] + CollapseNewlines(s[1..])
  }

  /** Three line feeds in a row at index `i`. */
  predicate TripleAt(s: string, i: int) {
    0 <= i && i + 2 < |s| && s[i] == '\n' && s[i + 1] == '\n' && s[i + 2] == '\n'
  }

  /** `s` has no run of three or more line feeds. */
  ghost predicate NoTriple(s: string) {
    forall i :: !TripleAt(s, i)
  }

  /** The characters of `s` other than line feeds, in order. */
  function NonNewlines(s: string): string {
    if s == [] then [] else (if s[0] == '\n' then [] else [s[0]]) + NonNewlines(s[1..])
  }

  lemma {:induction false} NonNewlinesAppend(a: string, b: string)
    ensures NonNewlines(a + b) == NonNewlines(a) + NonNewlines(b)
  {
    if a == [] {
      assert a + b == b;
    } else {
      var h := if a[0] == '\n' then [] else [a[0]];
      assert (a + b)[0] == a[0];
      assert (a + b)[1..] == a[1..] + b;
      NonNewlinesAppend(a[1..], b);
      assert NonNewlines(a + b) == h + (NonNewlines(a[1..]) + NonNewlines(b));
      assert NonNewlines(a) == h + NonNewlines(a[1..]);
    }
  }

  lemma {:induction false} NonNewlinesOfRun(s: string, n: nat)
    requires n <= |s| && forall k :: 0 <= k < n ==> s[k] == '\n'
    ensures NonNewlines(s[..n]) == []
  {
    if n > 0 {
      assert s[..n][1..] == s[1..][..n - 1];
      NonNewlinesOfRun(s[1..], n - 1);
    }
  }

  /** Collapsing keeps the first character of a text that does not begin
      with a line feed. */
  lemma CollapseStart(s: string)
    requires s != [] && s[0] != '\n'
    ensures CollapseNewlines(s) != [] && CollapseNewlines(s)[0] == s[0]
  {
    assert NewlineRun(s) == 0;
  }

  /** After collapsing, no run of three line feeds is left. */
  lemma {:induction false} CollapseRemovesTriples(s: string)
    ensures NoTriple(CollapseNewlines(s))
    decreases |s|
  {
    if s != [] {
      var n := NewlineRun(s);
      var k := if n > 0 then n else 1;
      var t := s[k..];
      CollapseRemovesTriples(t);
      var c := CollapseNewlines(t);
      var head := if n >= 3 then "\n\n" else s[..k];
      var r := head + c;
      assert CollapseNewlines(s) == r;
      if t != [] {
        if n > 0 {
          CollapseStart(t);
        }
      }
      forall i: int ensures !TripleAt(r, i) {
        if i >= |head| {
          assert TripleAt(r, i) == TripleAt(c, i - |head|);
        } else if n == 0 {
          assert r[0] == s[0] != '\n';
        } else if t != [] {
          // the head's line feeds are followed by the first character of
          // `c`, which is not a line feed
          assert r[|head|] == c[0] == t[0] != '\n';
        }
      }
    }
  }

  /** Collapsing keeps every character other than a line feed, in order. */
  lemma {:induction false} CollapseKeepsText(s: string)
    ensures NonNewlines(CollapseNewlines(s)) == NonNewlines(s)
    decreases |s|
  {
    if s != [] {
      var n := NewlineRun(s);
      var k := if n > 0 then n else 1;
      var t := s[k..];
      CollapseKeepsText(t);
      var c := CollapseNewlines(t);
      var head := if n >= 3 then "\n\n" else s[..k];
      assert NonNewlines(head) == NonNewlines(s[..k]) by {
        if n >= 3 {
          NonNewlinesOfRun(s, n);
          NonNewlinesOfRun(head, 2);
          assert head[..2] == head;
        }
      }
      assert CollapseNewlines(s) == head + c;
      assert s == s[..k] + t;
      NonNewlinesAppend(s[..k], t);
      NonNewlinesAppend(head, c);
    }
  }

  /** A suffix of a text free of runs of three line feeds is free of them. */
  lemma NoTripleSuffix(s: string, k: nat)
    requires NoTriple(s) && k <= |s|
    ensures NoTriple(s[k..])
  {
    forall i: int ensures !TripleAt(s[k..], i) {
      assert TripleAt(s[k..], i) ==> TripleAt(s, i + k);
    }
  }

  /** A text with no run of three line feeds is left as it is. */
  lemma {:induction false} CollapseNoTriple(s: string)
    requires NoTriple(s)
    ensures CollapseNewlines(s) == s
    decreases |s|
  {
    if s != [] {
      var n := NewlineRun(s);
      if n >= 3 {
        assert TripleAt(s, 0);
      }
      var k := if n > 0 then n else 1;
      NoTripleSuffix(s, k);
      CollapseNoTriple(s[k..]);
      assert s == s[..k] + s[k..];
    }
  }

  /** Stripping a text keeps it free of runs of three line feeds. */
  lemma StripNoTriple(s: string)
    requires NoTriple(s)
    ensures NoTriple(Strip(s))
  {
    var r := Strip(s);
    var lo := StripSlice(s);
    forall i: int ensures !TripleAt(r, i) {
      assert TripleAt(r, i) ==> TripleAt(s, lo + i);
    }
  }

  // ---------------------------------------------------------------------
  // _strip_think_content

  /** _strip_think_content(text): the three passes, then `strip()`. The
      result has no whitespace at either end and no run of three or more
      line feeds. */
  function StripThink(text: string): (r: string)
    ensures Stripped(r)
    ensures NoTriple(r)
  {
    var collapsed := CollapseNewlines(RemoveOpenTails(RemoveClosedBlocks(text)));
    CollapseRemovesTriples(RemoveOpenTails(RemoveClosedBlocks(text)));
    StripNoTriple(collapsed);
    Strip(collapsed)
  }

  /** A reply with no opening tag in any letter case, no whitespace at its
      ends and no run of three line feeds comes back unchanged, whatever
      other '<' it holds. */
  lemma PlainTextUnchanged(s: string)
    requires Find(s, Open, 0).None? && Stripped(s) && NoTriple(s)
    ensures StripThink(s) == s
  {
    OpenTailsClosedForm(s);
    CollapseNoTriple(s);
    StripStripped(s);
  }

  /** A leading reasoning block, tags in any letter case and reasoning
      holding anything but a closing tag, is removed from a reply. */
  lemma LeadingBlockRemoved(o: string, m: string, c: string, answer: string)
    requires |o| == |Open| && MatchesAt(o, Open, 0)
    requires |c| == |Close| && MatchesAt(c, Close, 0)
    requires forall p :: 7 <= p < 7 + |m| ==> !MatchesAt(o + m + c + answer, Close, p)
    requires Find(answer, Open, 0).None? && Stripped(answer) && NoTriple(answer)
    ensures StripThink(o + m + c + answer) == answer
  {
    LeadingClosedBlockRemoved(o, m, c, answer);
    PlainTextUnchanged(answer);
  }

  /** A text ending in a tag does not end in a line feed. */
  lemma FinalNewlineAfterTag(a: string, o: string, m: string)
    requires |o| == |Open| && MatchesAt(o, Open, 0)
    ensures FinalNewline(a + o + m) == FinalNewline(m)
  {
    var s := a + o + m;
    if m != [] {
      assert s[|s| - 1] == m[|m| - 1];
    } else {
      assert s[|s| - 1] == o[6];
      assert FoldEq(o[6], Open[6]);
    }
  }

  /** Pass 1 leaves a text alone when its first opening tag is never closed. */
  lemma UnclosedPassOne(s: string, i: nat)
    requires Find(s, Open, 0) == Some(i)
    requires forall p :: i + 7 <= p <= |s| ==> !MatchesAt(s, Close, p)
    ensures RemoveClosedBlocks(s) == s
  {
    assert Find(s, Close, i + 7).None?;
  }

  /** An opening tag, in any letter case, that is never closed removes the
      rest of the reply, except a final line feed. */
  lemma UnclosedBlockRemoved(a: string, o: string, m: string)
    requires |o| == |Open| && MatchesAt(o, Open, 0)
    requires forall p :: 0 <= p < |a| ==> !MatchesAt(a + o + m, Open, p)
    requires forall p :: |a| + 7 <= p <= |a + o + m| ==> !MatchesAt(a + o + m, Close, p)
    ensures RemoveOpenTails(RemoveClosedBlocks(a + o + m)) == a + FinalNewline(m)
  {
    var s := a + o + m;
    var i := |a|;
    assert s == a + o + m + [];
    TagInText(a, o, m, Open);
    FindAt(s, Open, 0, i);
    UnclosedPassOne(s, i);
    OpenTailsClosedForm(s);
    assert s[..i] == a;
    FinalNewlineAfterTag(a, o, m);
  }

  /** A lower-case block whose reasoning and answer hold no '<'. */
  lemma PlainBlockRemoved(m: string, answer: string)
    requires '<' !in m && '<' !in answer && Stripped(answer) && NoTriple(answer)
    ensures StripThink(Open + m + Close + answer) == answer
  {
    var s := Open + m + Close + answer;
    NoBracketNoTag(answer);
    assert MatchesAt(Open, Open, 0) && MatchesAt(Close, Close, 0);
    forall p | 7 <= p < 7 + |m| ensures !MatchesAt(s, Close, p) {
      assert s[p] == m[p - 7];
      NoTagWithoutBracket(s, Close, p);
    }
    LeadingBlockRemoved(Open, m, Close, answer);
  }

  /** The reply "<think>reasoning</think>Final answer" becomes "Final answer". */
  lemma ExampleReply()
    ensures StripThink(Open + "reasoning" + Close + "Final answer") == "Final answer"
  {
    assert Stripped("Final answer");
    PlainBlockRemoved("reasoning", "Final answer");
  }

  /** Tags in capitals and a '<' in the reasoning:
      "<THINK>x < 3</Think>Done" becomes "Done". */
  lemma ExampleAnyCase()
    ensures StripThink("<THINK>x < 3</Think>Done") == "Done"
  {
    var o, m, c, answer := "<THINK>", "x < 3", "</Think>", "Done";
    var s := o + m + c + answer;
    assert s == "<THINK>x < 3</Think>Done";
    assert MatchesAt(o, Open, 0) && MatchesAt(c, Close, 0);
    forall p | 7 <= p < 7 + |m| ensures !MatchesAt(s, Close, p) {
      if p == 9 {
        Mismatch(s, Close, p, 1);
      } else {
        NoTagWithoutBracket(s, Close, p);
      }
    }
    assert Stripped(answer);
    NoBracketNoTag(answer);
    LeadingBlockRemoved(o, m, c, answer);
  }

  /** A plain answer holding a '<' that starts no tag comes back unchanged. */
  lemma ExampleComparison()
    ensures StripThink("a < b") == "a < b"
  {
    var s := "a < b";
    forall p | 0 <= p <= |s| ensures !MatchesAt(s, Open, p) {
      if p == 2 {
        Mismatch(s, Open, p, 1);
      } else if p < |s| {
        NoTagWithoutBracket(s, Open, p);
      }
    }
    assert Stripped(s);
    PlainTextUnchanged(s);
  }
}
