/** services/gen.py: `get_answer`, the single-shot question answering flow. */
module Gen {
  import opened Wrappers
  import opened Text
  import opened Retriever
  import opened Prompt
  import opened Context

  const RefusalStart: string := "I couldn't find relevant"

  const RefusalMiddle: string := " information in the documents."

  const RefusalEnd: string := " Can I help you with something else?"

  /** The fixed answer given when retrieval finds nothing. */
  const Refusal: string := RefusalStart + RefusalMiddle + RefusalEnd

  /** What get_answer makes of the model's reply: its content unchanged, or
      its failure wrapped as `customException`. */
  function Answer(reply: Result<string, string>): (r: Result<string, Error>)
    ensures reply.Success? ==> r == Success(reply.value)
    ensures reply.Failure? ==> r == Failure(Wrapped(Generation, Raised(reply.error)))
  {
    match reply
    case Success(content) => Success(content)
    case Failure(e) => Failure(Wrapped(Generation, Raised(e)))
  }

  /** The part of get_answer(query) after a nonempty retrieval: the
      numbered context, the rendered prompt and one call of the model. */
  method AskModel(query: string, docs: seq<Doc>, instructions: string, llm: string -> Result<string, string>)
    returns (r: Result<string, Error>, prompt: string)
    ensures prompt == RenderTemplate(instructions, query, BuildContext(docs))
    ensures r == Answer(llm(prompt))
  {
    var finalContext := FormatContext(docs);
    prompt := RenderTemplate(instructions, query, finalContext);
    r := Answer(llm(prompt));
  }

  /** get_answer(query). The similarity search and the language model are
      parameters; `prompt` is the text sent to the model, `None` when the
      model is not called. Retrieval uses the default `k`. With no document
      left after filtering the answer is the refusal and the model is not
      called; otherwise the model receives the rendered prompt over the
      numbered context and its reply is returned unchanged. Every failure
      comes back wrapped once more as `customException`. */
  method GetAnswer(query: string, search: (string, int) -> Result<seq<Doc>, string>,
                   instructions: string, llm: string -> Result<string, string>)
    returns (r: Result<string, Error>, prompt: Option<string>)
    ensures search(query, DefaultK).Failure? ==>
      prompt == None
      && r == Failure(Wrapped(Generation, Wrapped(Retrieval, Raised(search(query, DefaultK).error))))
    ensures search(query, DefaultK).Success? && Filtered(search(query, DefaultK).value) == [] ==>
      prompt == None && r == Success(Refusal)
    ensures search(query, DefaultK).Success? && Filtered(search(query, DefaultK).value) != [] ==>
      var sent := RenderTemplate(instructions, query, BuildContext(Filtered(search(query, DefaultK).value)));
      prompt == Some(sent) && r == Answer(llm(sent))
  {
    var documents := PromptRetriever(query, DefaultK, search);
    if documents.Failure? {
      return Failure(Wrapped(Generation, documents.error)), None;
    }
    if documents.value == [] {
      return Success(Refusal), None;
    }
    var sent;
    r, sent := AskModel(query, documents.value, instructions, llm);
    prompt := Some(sent);
  }
}
