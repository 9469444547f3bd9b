/** services/retriever.py: `prompt_retriever`, one similarity search followed
    by a length filter. */
module Retriever {
  import opened Wrappers
  import opened Text

  /** A LangChain `Document`: its `page_content` and its metadata, whose
      values are held as the strings they render to. */
  datatype Doc = Doc(content: string, metadata: map<string, string>)

  /** The number of documents `prompt_retriever` asks for when called without `k`. */
  const DefaultK: int := 4

  /** The soft filter: a document is kept when its stripped content is longer
      than 20 characters. */
  predicate Relevant(d: Doc) {
    |Strip(d.content)| > 20
  }

  /** The documents of `docs` that pass the filter, in their order. */
  function Filtered(docs: seq<Doc>): (r: seq<Doc>)
    ensures |r| <= |docs|
  {
    if docs == [] then []
    else
      var last := docs[|docs| - 1];
      Filtered(docs[..|docs| - 1]) + (if Relevant(last) then [last] else [])
  }

  /** Filtering distributes over concatenation, so it keeps the relative order
      of the documents it keeps. */
  lemma {:induction false} FilteredAppend(a: seq<Doc>, b: seq<Doc>)
    ensures Filtered(a + b) == Filtered(a) + Filtered(b)
    decreases |b|
  {
    if b == [] {
      assert a + b == a;
    } else {
      var b' := b[..|b| - 1];
      assert (a + b)[..|a + b| - 1] == a + b';
      FilteredAppend(a, b');
    }
  }

  /** Filtering one more document of a list appends it when it passes the filter. */
  lemma FilteredPrefix(docs: seq<Doc>, i: nat)
    requires i < |docs|
    ensures Filtered(docs[..i + 1]) == Filtered(docs[..i]) + (if Relevant(docs[i]) then [docs[i]] else [])
  {
    assert docs[..i + 1][..i] == docs[..i];
  }

  /** Each document occurs in the filtered list as often as in the search
      results if it passes the filter, and not at all otherwise. */
  lemma {:induction false} FilteredCount(docs: seq<Doc>, d: Doc)
    ensures multiset(Filtered(docs))[d] == if Relevant(d) then multiset(docs)[d] else 0
  {
    if docs != [] {
      var init := docs[..|docs| - 1];
      assert docs == init + [docs[|docs| - 1]];
      FilteredCount(init, d);
    }
  }

  /** A document is returned exactly when it is among the search results and
      passes the filter. */
  lemma FilteredMembers(docs: seq<Doc>)
    ensures forall d :: d in Filtered(docs) <==> d in docs && Relevant(d)
  {
    forall d ensures d in Filtered(docs) <==> d in docs && Relevant(d) {
      FilteredCount(docs, d);
    }
  }

  /** prompt_retriever(query, k): one similarity search, then the filter
      loop. The search is a parameter; a failure it raises comes back wrapped
      as `customException`. An empty search result is an empty list. */
  method PromptRetriever(query: string, k: int, search: (string, int) -> Result<seq<Doc>, string>)
    returns (r: Result<seq<Doc>, Error>)
    ensures search(query, k).Failure? ==>
      r == Failure(Wrapped(Retrieval, Raised(search(query, k).error)))
    ensures search(query, k).Success? ==>
      r == Success(Filtered(search(query, k).value))
  {
    var found := search(query, k);
    if found.Failure? {
      return Failure(Wrapped(Retrieval, Raised(found.error)));
    }
    var results := found.value;
    var filtered: seq<Doc> := [];
    for i := 0 to |results|
      invariant filtered == Filtered(results[..i])
    {
      var doc := results[i];
      FilteredPrefix(results, i);
      if Relevant(doc) {
        filtered := filtered + [doc];
      }
    }
    assert results[..|results|] == results;
    return Success(filtered);
  }
}
