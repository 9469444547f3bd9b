/** `clean_text` of services/ingestion.py: the text extracted from a PDF page,
    a web page, a transcript or an audio file is reduced to its trimmed lines
    of more than three characters. */
module Ingestion {
  import opened Text

  /** A line survives cleaning when more than 3 characters remain once it is stripped. */
  predicate Kept(line: string) {
    |Strip(line)| > 3
  }

  /** No two line feeds are adjacent: the text holds no empty line. */
  predicate NoBlankLine(s: string) {
    forall i :: 0 <= i < |s| - 1 ==> !(s[i] == '\n' && s[i + 1] == '\n')
  }

  /** The list comprehension of clean_text: the stripped form of every kept
      line, in input order. */
  function KeepLines(lines: seq<string>): (r: seq<string>)
    ensures |r| <= |lines|
    ensures forall l :: l in r ==> Stripped(l) && |l| > 3
    ensures r == [] <==> forall l :: l in lines ==> !Kept(l)
  {
    if lines == [] then []
    else (if Kept(lines[0]) then [Strip(lines[0])] else []) + KeepLines(lines[1..])
  }

  lemma {:induction false} KeepLinesNoBreak(lines: seq<string>)
    requires forall l :: l in lines ==> NoBreak(l)
    ensures forall l :: l in KeepLines(lines) ==> NoBreak(l)
  {
    if lines != [] {
      assert lines[0] in lines;
      StripNoBreak(lines[0]);
      KeepLinesNoBreak(lines[1..]);
    }
  }

  /** The lines clean_text keeps. */
  function CleanLines(text: string): seq<string> {
    KeepLines(SplitLines(text))
  }

  /** clean_text(text). */
  function CleanText(text: string): string {
    JoinWith(CleanLines(text), "\n")
  }

  /** The lines of the cleaned text are exactly the kept input lines, stripped,
      in their original order; each has no whitespace at its ends and more
      than three characters. */
  lemma CleanTextLines(text: string)
    ensures SplitLines(CleanText(text)) == CleanLines(text)
    ensures forall l :: l in SplitLines(CleanText(text)) ==> Stripped(l) && |l| > 3
  {
    KeepLinesNoBreak(SplitLines(text));
    SplitJoin(CleanLines(text));
  }

  /** Lines with no whitespace at their ends, joined by "\n", give a text with
      no whitespace at its ends and no empty line. */
  lemma {:induction false} JoinedLinesShape(lines: seq<string>)
    requires forall l :: l in lines ==> l != [] && Stripped(l) && NoBreak(l)
    ensures lines != [] ==> JoinWith(lines, "\n") != []
    ensures Stripped(JoinWith(lines, "\n"))
    ensures NoBlankLine(JoinWith(lines, "\n"))
  {
    if |lines| == 1 {
      assert lines[0] in lines;
    } else if |lines| > 1 {
      var l, rest := lines[0], lines[1..];
      assert l in lines;
      forall m | m in rest ensures m != [] && Stripped(m) && NoBreak(m) {
        assert m in lines;
      }
      JoinedLinesShape(rest);
      var t := JoinWith(rest, "\n");
      var s := JoinWith(lines, "\n");
      assert s == l + "\n" + t;
      forall i | 0 <= i < |s| - 1 ensures !(s[i] == '\n' && s[i + 1] == '\n') {
        if i < |l| {
          assert s[i] == l[i];
        } else if i == |l| {
          assert s[i + 1] == t[0];
        } else {
          assert s[i] == t[i - |l| - 1] && s[i + 1] == t[i - |l|];
        }
      }
    }
  }

  /** The cleaned text neither starts nor ends with whitespace (so with no
      "\n") and contains no empty line (no "\n\n"). */
  lemma CleanTextShape(text: string)
    ensures Stripped(CleanText(text))
    ensures NoBlankLine(CleanText(text))
  {
    KeepLinesNoBreak(SplitLines(text));
    JoinedLinesShape(CleanLines(text));
  }

  /** The cleaned text is empty exactly when no input line has more than three
      characters once stripped. */
  lemma CleanTextEmpty(text: string)
    ensures CleanText(text) == "" <==> forall l :: l in SplitLines(text) ==> !Kept(l)
  {
    KeepLinesNoBreak(SplitLines(text));
    JoinedLinesShape(CleanLines(text));
  }

  /** Cleaning never adds lines. */
  lemma CleanTextFewerLines(text: string)
    ensures |SplitLines(CleanText(text))| <= |SplitLines(text)|
  {
    CleanTextLines(text);
  }

  /** Lines that are already stripped and longer than three characters are all kept, unchanged. */
  lemma {:induction false} KeepLinesOfKept(lines: seq<string>)
    requires forall l :: l in lines ==> Stripped(l) && |l| > 3
    ensures KeepLines(lines) == lines
  {
    if lines != [] {
      assert lines[0] in lines;
      KeptHead(lines);
      forall l | l in lines[1..] ensures Stripped(l) && |l| > 3 {
        assert l in lines;
      }
      KeepLinesOfKept(lines[1..]);
      assert lines == [lines[0]] + lines[1..];
    }
  }

  /** A first line that is stripped and longer than three characters is kept as it is. */
  lemma KeptHead(lines: seq<string>)
    requires lines != [] && Stripped(lines[0]) && |lines[0]| > 3
    ensures KeepLines(lines) == [lines[0]] + KeepLines(lines[1..])
  {
    StripStripped(lines[0]);
  }

  /** Cleaning an already cleaned text returns it unchanged. */
  lemma CleanTextIdempotent(text: string)
    ensures CleanText(CleanText(text)) == CleanText(text)
  {
    CleanTextLines(text);
    KeepLinesOfKept(CleanLines(text));
  }
}
