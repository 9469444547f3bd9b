/** The context block handed to the language model: the numbered source
    entries built alike by `get_answer` (services/gen.py) and by
    `retriever_tool` (services/langgraph_agent.py). */
module Context {
  import opened Text
  import opened Retriever

  const UnknownSource: string := "Unknown Source"

  /** The text between two entries. */
  const Separator: string := "\n\n---\n\n"

  /** `doc.metadata.get("source", "Unknown Source")`. */
  function SourceOf(d: Doc): (r: string)
    ensures "source" in d.metadata ==> r == d.metadata["source"]
    ensures "source" !in d.metadata ==> r == UnknownSource
  {
    if "source" in d.metadata then d.metadata["source"] else UnknownSource
  }

  /** The heading of entry `n`: "[n] Source: ". */
  function EntryHead(n: nat): string {
    "[" + DecimalString(n) + "] Source: "
  }

  /** Entry `n` of the context: `f"[{n}] Source: {source}\n{content}"` with the
      document's stripped content. */
  function Entry(n: nat, d: Doc): string {
    EntryHead(n) + SourceOf(d) + "\n" + Strip(d.content)
  }

  /** The entries of `docs`, in retrieval order. */
  function Entries(docs: seq<Doc>): (r: seq<string>)
    ensures |r| == |docs|
  {
    if docs == [] then []
    else Entries(docs[..|docs| - 1]) + [Entry(|docs|, docs[|docs| - 1])]
  }

  /** The entry of the document at index `i` is numbered `i + 1`. */
  lemma {:induction false} EntriesAt(docs: seq<Doc>, i: nat)
    requires i < |docs|
    ensures Entries(docs)[i] == Entry(i + 1, docs[i])
  {
    if i < |docs| - 1 {
      EntriesAt(docs[..|docs| - 1], i);
    }
  }

  /** The context: the entries joined by the separator. */
  function BuildContext(docs: seq<Doc>): string {
    JoinWith(Entries(docs), Separator)
  }

  /** The numbering loop of `get_answer` and of `retriever_tool`: one entry
      appended per document, then `"\n\n---\n\n".join(...)`. */
  method FormatContext(docs: seq<Doc>) returns (context: string)
    ensures context == BuildContext(docs)
  {
    var parts: seq<string> := [];
    for i := 0 to |docs|
      invariant parts == Entries(docs[..i])
    {
      assert docs[..i + 1][..i] == docs[..i];
      parts := parts + [Entry(i + 1, docs[i])];
    }
    assert docs[..|docs|] == docs;
    context := JoinWith(parts, Separator);
  }

  /** An entry is never empty: it starts with its "[n] Source: " heading. */
  lemma EntryStartsWithHead(n: nat, d: Doc)
    ensures |Entry(n, d)| > |EntryHead(n)|
    ensures Entry(n, d)[..|EntryHead(n)|] == EntryHead(n)
  {
    var h := EntryHead(n);
    var rest := SourceOf(d) + "\n" + Strip(d.content);
    assert Entry(n, d) == h + rest;
    assert (h + rest)[..|h|] == h;
  }

  /** Joining nonempty parts gives the empty string exactly when there are no parts. */
  lemma {:induction false} JoinWithEmpty(parts: seq<string>, sep: string)
    requires forall i :: 0 <= i < |parts| ==> parts[i] != []
    ensures JoinWith(parts, sep) == [] <==> parts == []
  {
    if |parts| > 1 {
      assert |JoinWith(parts, sep)| >= |parts[0]| > 0;
    } else if |parts| == 1 {
      assert parts[0] != [];
    }
  }

  /** The context is empty exactly when no document was retrieved; this is
      what lets the agent recognise an empty retrieval from the tool's text. */
  lemma ContextEmpty(docs: seq<Doc>)
    ensures BuildContext(docs) == [] <==> docs == []
  {
    var es := Entries(docs);
    forall i | 0 <= i < |es| ensures es[i] != [] {
      EntriesAt(docs, i);
      EntryStartsWithHead(i + 1, docs[i]);
    }
    JoinWithEmpty(es, Separator);
  }

  /** A single document gives its entry alone, with no separator. */
  lemma SingleDocContext(d: Doc)
    ensures BuildContext([d]) == Entry(1, d)
  {
    assert Entries([d]) == [Entry(1, d)];
  }

  /** One more document adds the separator and its entry, numbered after
      the others. */
  lemma ContextSnoc(docs: seq<Doc>, d: Doc)
    requires docs != []
    ensures BuildContext(docs + [d]) == BuildContext(docs) + Separator + Entry(|docs| + 1, d)
  {
    assert (docs + [d])[..|docs|] == docs;
    assert Entries(docs + [d]) == Entries(docs) + [Entry(|docs| + 1, d)];
    JoinWithSnoc(Entries(docs), Entry(|docs| + 1, d), Separator);
  }
}
