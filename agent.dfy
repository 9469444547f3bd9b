/** The graph agent of services/langgraph_agent.py: the retriever tool, the
    two graph nodes, one chat turn through the fixed
    retrieve_call -> retrieve_tool -> answer graph, the projection of a
    thread's messages to its visible history, and the post-processing of a
    generated thread title. */
module Agent {
  import opened Wrappers
  import opened Text
  import opened Retriever
  import opened Prompt
  import opened Context
  import opened Gen
  import opened Think

  /** A tool call carried by an AI message; the only tool is the retriever,
      whose arguments are the query and `k`. */
  datatype ToolCall = ToolCall(id: string, name: string, query: string, k: int)

  /** The messages of a thread's state: a user's `HumanMessage`, an
      `AIMessage` with its tool calls, and the `ToolMessage` answering a
      call. */
  datatype Message =
    | Human(content: string)
    | Ai(content: string, toolCalls: seq<ToolCall>)
    | Tool(content: string, callId: string)

  const RetrieverCallId: string := "retriever-call"

  const RetrieverToolName: string := "retriever_tool"

  // ---------------------------------------------------------------------
  // retriever_tool

  /** retriever_tool(query, k): the filtered retrieval rendered as the
      numbered context, or "" when nothing is left. The empty string comes
      back exactly when no document passes the filter. */
  method RetrieverTool(query: string, k: int, search: (string, int) -> Result<seq<Doc>, string>)
    returns (r: Result<string, Error>)
    ensures search(query, k).Failure? ==>
      r == Failure(Wrapped(Retrieval, Raised(search(query, k).error)))
    ensures search(query, k).Success? ==>
      r == Success(BuildContext(Filtered(search(query, k).value)))
    ensures r.Success? ==> (r.value == "" <==> Filtered(search(query, k).value) == [])
  {
    var docs := PromptRetriever(query, k, search);
    if docs.Failure? {
      return Failure(docs.error);
    }
    ContextEmpty(docs.value);
    if docs.value == [] {
      return Success("");
    }
    var context := FormatContext(docs.value);
    return Success(context);
  }

  // ---------------------------------------------------------------------
  // The latest user message and the latest tool result

  /** `next(m.content for m in reversed(messages) if isinstance(m, HumanMessage))`:
      the content of the last user message, `None` where Python raises
      `StopIteration`. */
  function LastHuman(msgs: seq<Message>): Option<string> {
    if msgs == [] then None
    else if msgs[|msgs| - 1].Human? then Some(msgs[|msgs| - 1].content)
    else LastHuman(msgs[..|msgs| - 1])
  }

  /** The content of the last tool message, if there is one. */
  function LastTool(msgs: seq<Message>): Option<string> {
    if msgs == [] then None
    else if msgs[|msgs| - 1].Tool? then Some(msgs[|msgs| - 1].content)
    else LastTool(msgs[..|msgs| - 1])
  }

  /** `LastHuman` is the content of the user message at the greatest index. */
  lemma {:induction false} LastHumanAt(msgs: seq<Message>, i: nat)
    requires i < |msgs| && msgs[i].Human?
    requires forall j :: i < j < |msgs| ==> !msgs[j].Human?
    ensures LastHuman(msgs) == Some(msgs[i].content)
  {
    if i < |msgs| - 1 {
      var init := msgs[..|msgs| - 1];
      forall j | i < j < |init| ensures !init[j].Human? {
        assert init[j] == msgs[j];
      }
      LastHumanAt(init, i);
    }
  }

  /** `LastHuman` is `None` exactly when there is no user message. */
  lemma {:induction false} LastHumanNone(msgs: seq<Message>)
    ensures LastHuman(msgs).None? <==> forall j :: 0 <= j < |msgs| ==> !msgs[j].Human?
  {
    if msgs != [] {
      var init := msgs[..|msgs| - 1];
      LastHumanNone(init);
      assert forall j :: 0 <= j < |init| ==> init[j] == msgs[j];
    }
  }

  /** `LastTool` is the content of the tool message at the greatest index. */
  lemma {:induction false} LastToolAt(msgs: seq<Message>, i: nat)
    requires i < |msgs| && msgs[i].Tool?
    requires forall j :: i < j < |msgs| ==> !msgs[j].Tool?
    ensures LastTool(msgs) == Some(msgs[i].content)
  {
    if i < |msgs| - 1 {
      var init := msgs[..|msgs| - 1];
      forall j | i < j < |init| ensures !init[j].Tool? {
        assert init[j] == msgs[j];
      }
      LastToolAt(init, i);
    }
  }

  /** The context answer_node works from: the last tool result, or "". */
  function ToolContext(msgs: seq<Message>): string {
    match LastTool(msgs)
    case None => ""
    case Some(c) => c
  }

  /** The scan of answer_node: from the newest message backwards, stopping
      at the first tool message. */
  method LatestToolContent(msgs: seq<Message>) returns (context: string)
    ensures context == ToolContext(msgs)
  {
    context := "";
    var i := |msgs|;
    assert msgs[..i] == msgs;
    while i > 0
      invariant 0 <= i <= |msgs|
      invariant LastTool(msgs[..i]) == LastTool(msgs)
      invariant context == ""
      decreases i
    {
      i := i - 1;
      assert msgs[..i + 1][..i] == msgs[..i];
      if msgs[i].Tool? {
        context := msgs[i].content;
        break;
      }
    }
  }

  // ---------------------------------------------------------------------
  // The graph nodes

  /** retrieve_call_node: one AI message with empty content calling the
      retriever with the latest user message and the configured `top_k`. */
  function RetrieveCallNode(msgs: seq<Message>, topK: int): (r: Option<Message>)
    ensures r.None? <==> LastHuman(msgs).None?
    ensures r.Some? ==>
      (r.value.Ai? && r.value.content == ""
       && r.value.toolCalls == [ToolCall(RetrieverCallId, RetrieverToolName, LastHuman(msgs).value, topK)])
  {
    match LastHuman(msgs)
    case None => None
    case Some(query) => Some(Ai("", [ToolCall(RetrieverCallId, RetrieverToolName, query, topK)]))
  }

  /** The message answer_node makes of the model's reply: its content with
      the reasoning markup stripped, or the model's failure. */
  function AnswerMessage(reply: Result<string, string>): (r: Result<Message, Error>)
    ensures reply.Success? ==>
      (r.Success? && r.value.Ai? && r.value.toolCalls == []
       && r.value.content == StripThink(reply.value))
    ensures reply.Failure? ==> r == Failure(Raised(reply.error))
  {
    match reply
    case Success(content) => Success(Ai(StripThink(content), []))
    case Failure(e) => Failure(Raised(e))
  }

  /** answer_node: with no tool result (or an empty one) the refusal, and
      the model is not called; otherwise the model receives the rendered
      prompt over the latest user message and the tool result. `prompt` is
      what is sent to the model, `None` when it is not called. */
  method AnswerNode(msgs: seq<Message>, instructions: string, llm: string -> Result<string, string>)
    returns (r: Result<Message, Error>, prompt: Option<string>)
    ensures LastHuman(msgs).None? ==> r == Failure(NoUserMessage) && prompt == None
    ensures LastHuman(msgs).Some? && ToolContext(msgs) == "" ==>
      r == Success(Ai(Refusal, [])) && prompt == None
    ensures LastHuman(msgs).Some? && ToolContext(msgs) != "" ==>
      prompt == Some(RenderTemplate(instructions, LastHuman(msgs).value, ToolContext(msgs)))
      && r == AnswerMessage(llm(prompt.value))
  {
    var user := LastHuman(msgs);
    if user.None? {
      return Failure(NoUserMessage), None;
    }
    var context := LatestToolContent(msgs);
    if context == "" {
      return Success(Ai(Refusal, [])), None;
    }
    var sent;
    r, sent := AskWithContext(user.value, context, instructions, llm);
    prompt := Some(sent);
  }

  /** The part of answer_node after a nonempty tool result: one call of the
      model on the rendered prompt. */
  method AskWithContext(user: string, context: string, instructions: string, llm: string -> Result<string, string>)
    returns (r: Result<Message, Error>, prompt: string)
    ensures prompt == RenderTemplate(instructions, user, context)
    ensures r == AnswerMessage(llm(prompt))
  {
    prompt := RenderTemplate(instructions, user, context);
    r := AnswerMessage(llm(prompt));
  }

  /** Text with no '<' and no line feed. */
  predicate Plain(s: string) {
    forall i :: 0 <= i < |s| ==> s[i] != '<' && s[i] != '\n'
  }

  lemma RefusalStartPlain()
    ensures Plain(RefusalStart) && RefusalStart[0] == 'I'
  {
  }

  lemma RefusalMiddlePlain()
    ensures Plain(RefusalMiddle)
  {
  }

  lemma RefusalEndPlain()
    ensures Plain(RefusalEnd) && RefusalEnd[|RefusalEnd| - 1] == '?'
  {
  }

  /** The refusal is plain text: the think-stripping applied to the final
      message of a turn leaves it as it is. */
  lemma RefusalUnchanged()
    ensures StripThink(Refusal) == Refusal
  {
    RefusalStartPlain();
    RefusalMiddlePlain();
    RefusalEndPlain();
    assert Plain(Refusal);
    assert Refusal[0] == 'I' && Refusal[|Refusal| - 1] == '?';
    assert NoTriple(Refusal);
    NoBracketNoTag(Refusal);
    PlainTextUnchanged(Refusal);
  }

  // ---------------------------------------------------------------------
  // chat: one turn through retrieve_call -> retrieve_tool -> answer

  /** What `chat` returns for the answer node's outcome: the final message's
      content stripped of reasoning markup once more, or the failure. */
  function ChatReply(answer: Result<Message, Error>): (r: Result<string, Error>)
    ensures answer.Success? ==> r == Success(StripThink(answer.value.content))
    ensures answer.Failure? ==> r == Failure(answer.error)
  {
    match answer
    case Success(m) => Success(StripThink(m.content))
    case Failure(e) => Failure(e)
  }

  /** The messages one completed turn appends to a thread: the user's
      message, the tool call, the tool's result and the answer. */
  function TurnMessages(message: string, topK: int, toolResult: string, answer: Message): seq<Message> {
    [Human(message), Ai("", [ToolCall(RetrieverCallId, RetrieverToolName, message, topK)]),
     Tool(toolResult, RetrieverCallId), answer]
  }

  /** The answer node's view of a thread after the tool step: the new user
      message is the latest one and the tool's result is the context. */
  lemma TurnState(history: seq<Message>, message: string, call: Message, toolResult: string)
    requires call.Ai?
    ensures var state := history + [Human(message), call, Tool(toolResult, RetrieverCallId)];
      LastHuman(state) == Some(message) && ToolContext(state) == toolResult
  {
    var state := history + [Human(message), call, Tool(toolResult, RetrieverCallId)];
    LastHumanAt(state, |history|);
    LastToolAt(state, |state| - 1);
  }

  /** The answer step of a turn whose tool step gave `context`: the answer
      node's message and what `chat` returns. */
  method FinishTurn(history: seq<Message>, message: string, topK: int, context: string,
                    instructions: string, llm: string -> Result<string, string>)
    returns (answer: Result<Message, Error>, r: Result<string, Error>, prompt: Option<string>)
    ensures context == "" ==> answer == Success(Ai(Refusal, [])) && prompt == None
    ensures context != "" ==>
      prompt == Some(RenderTemplate(instructions, message, context)) && answer == AnswerMessage(llm(prompt.value))
    ensures r == ChatReply(answer)
  {
    var call := Ai("", [ToolCall(RetrieverCallId, RetrieverToolName, message, topK)]);
    var toolMessage := Tool(context, RetrieverCallId);
    TurnState(history, message, call, context);
    var state := history + [Human(message), call, toolMessage];
    answer, prompt := AnswerNode(state, instructions, llm);
    r := ChatReply(answer);
  }

  /** What `chat` gives when the similarity search yields `found`: the
      reply, the prompt sent to the model (`None` when it is not called) and
      the answer node's message. A failed search is re-raised wrapped. */
  function ChatOutcome(message: string, found: Result<seq<Doc>, string>,
                       instructions: string, llm: string -> Result<string, string>)
    : (Result<string, Error>, Option<string>, Result<Message, Error>)
  {
    if found.Failure? then
      (Failure(Wrapped(Retrieval, Raised(found.error))), None,
       Failure(Wrapped(Retrieval, Raised(found.error))))
    else
      var context := BuildContext(Filtered(found.value));
      if context == "" then
        var answer := Success(Ai(Refusal, []));
        (ChatReply(answer), None, answer)
      else
        var prompt := RenderTemplate(instructions, message, context);
        var answer := AnswerMessage(llm(prompt));
        (ChatReply(answer), Some(prompt), answer)
  }

  /** chat(message, thread_id) over the thread's earlier messages `history`:
      the graph runs its three nodes in order, retrieving with the latest
      user message and the configured `top_k`, and the content of the last
      message, think-stripped, is returned. `answer` is the answer node's
      message, which a completed turn appends to the thread after the tool
      call and its result. */
  method Chat(history: seq<Message>, message: string, topK: int,
              search: (string, int) -> Result<seq<Doc>, string>,
              instructions: string, llm: string -> Result<string, string>)
    returns (r: Result<string, Error>, prompt: Option<string>, answer: Result<Message, Error>)
    ensures (r, prompt, answer) == ChatOutcome(message, search(message, topK), instructions, llm)
  {
    var msgs := history + [Human(message)];
    LastHumanAt(msgs, |history|);
    var call := RetrieveCallNode(msgs, topK).value;
    var args := call.toolCalls[0];
    var toolResult := RetrieverTool(args.query, args.k, search);
    if toolResult.Failure? {
      return Failure(toolResult.error), None, Failure(toolResult.error);
    }
    answer, r, prompt := FinishTurn(history, message, topK, toolResult.value, instructions, llm);
  }

  /** With nothing retrieved the reply is the refusal, the model is not
      called and the refusal is the message the turn ends with. */
  lemma {:induction false} ChatRefusal(message: string, found: Result<seq<Doc>, string>,
                                       instructions: string, llm: string -> Result<string, string>)
    requires found.Success? && Filtered(found.value) == []
    ensures ChatOutcome(message, found, instructions, llm) == (Success(Refusal), None, Success(Ai(Refusal, [])))
  {
    ContextEmpty(Filtered(found.value));
    RefusalUnchanged();
  }

  /** With some document retrieved the model receives exactly the rendered
      prompt over the message and the numbered context, and the reply is
      its answer stripped of reasoning markup. */
  lemma {:induction false} ChatAsksModel(message: string, found: Result<seq<Doc>, string>,
                                         instructions: string, llm: string -> Result<string, string>)
    requires found.Success? && Filtered(found.value) != []
    ensures var prompt := RenderTemplate(instructions, message, BuildContext(Filtered(found.value)));
      ChatOutcome(message, found, instructions, llm).1 == Some(prompt)
      && ChatOutcome(message, found, instructions, llm).2 == AnswerMessage(llm(prompt))
      && (llm(prompt).Success? ==>
            ChatOutcome(message, found, instructions, llm).0 == Success(StripThink(StripThink(llm(prompt).value))))
      && (llm(prompt).Failure? ==>
            ChatOutcome(message, found, instructions, llm).0 == Failure(Raised(llm(prompt).error)))
  {
    ContextEmpty(Filtered(found.value));
  }

  // ---------------------------------------------------------------------
  // get_thread_messages: the visible history of a thread

  datatype Role = User | Assistant

  /** One entry of the history shown to the user. */
  datatype Turn = Turn(role: Role, content: string)

  /** The entry a message contributes: a user message as it is, an AI
      message with non-blank content think-stripped, and nothing for a tool
      message or a blank AI message (such as the tool-calling one). */
  function TurnOf(m: Message): Option<Turn> {
    match m
    case Human(c) => Some(Turn(User, c))
    case Ai(c, _) => if Strip(c) != [] then Some(Turn(Assistant, StripThink(c))) else None
    case Tool(_, _) => None
  }

  /** The visible history of a thread's messages, in their order. */
  function HistoryOf(msgs: seq<Message>): seq<Turn> {
    if msgs == [] then []
    else
      var earlier := HistoryOf(msgs[..|msgs| - 1]);
      match TurnOf(msgs[|msgs| - 1])
      case None => earlier
      case Some(t) => earlier + [t]
  }

  /** get_thread_messages over a thread's checkpointed messages: one pass
      appending an entry per visible message. */
  method GetThreadMessages(msgs: seq<Message>) returns (history: seq<Turn>)
    ensures history == HistoryOf(msgs)
  {
    history := [];
    for i := 0 to |msgs|
      invariant history == HistoryOf(msgs[..i])
    {
      assert msgs[..i + 1][..i] == msgs[..i];
      var m := msgs[i];
      if m.Human? {
        history := history + [Turn(User, m.content)];
      } else if m.Ai? {
        if Strip(m.content) != [] {
          history := history + [Turn(Assistant, StripThink(m.content))];
        }
      }
    }
    assert msgs[..|msgs|] == msgs;
  }

  /** The history of a concatenation is the concatenation of the histories:
      the projection keeps the order of the messages. */
  lemma {:induction false} HistoryAppend(a: seq<Message>, b: seq<Message>)
    ensures HistoryOf(a + b) == HistoryOf(a) + HistoryOf(b)
  {
    if b == [] {
      assert a + b == a;
    } else {
      var init := b[..|b| - 1];
      assert (a + b)[..|a + b| - 1] == a + init;
      assert (a + b)[|a + b| - 1] == b[|b| - 1];
      HistoryAppend(a, init);
    }
  }

  /** No message yields more than one entry. */
  lemma {:induction false} HistoryLength(msgs: seq<Message>)
    ensures |HistoryOf(msgs)| <= |msgs|
  {
    if msgs != [] {
      HistoryLength(msgs[..|msgs| - 1]);
    }
  }

  /** Every entry comes from a message: a user entry carries that message's
      text, and an assistant entry the think-stripped text of an AI message
      that is not blank, hence has no surrounding whitespace and no run of
      three line feeds. */
  lemma {:induction false} HistoryEntries(msgs: seq<Message>)
    ensures forall t :: t in HistoryOf(msgs) ==>
      exists i :: 0 <= i < |msgs| && TurnOf(msgs[i]) == Some(t)
    ensures forall t :: t in HistoryOf(msgs) && t.role == Assistant ==>
      Stripped(t.content) && NoTriple(t.content)
  {
    if msgs != [] {
      var init := msgs[..|msgs| - 1];
      HistoryEntries(init);
      forall t | t in HistoryOf(msgs)
        ensures exists i :: 0 <= i < |msgs| && TurnOf(msgs[i]) == Some(t)
      {
        if t in HistoryOf(init) {
          var i :| 0 <= i < |init| && TurnOf(init[i]) == Some(t);
          assert msgs[i] == init[i];
        } else {
          assert TurnOf(msgs[|msgs| - 1]) == Some(t);
        }
      }
    }
  }

  /** The visible entries of a turn's own messages: the user's message and
      the answer's entry; the tool call and the tool result stay hidden. */
  lemma TurnEntries(message: string, topK: int, toolResult: string, answer: Message)
    ensures HistoryOf(TurnMessages(message, topK, toolResult, answer))
      == [Turn(User, message)] + HistoryOf([answer])
  {
    var call := Ai("", [ToolCall(RetrieverCallId, RetrieverToolName, message, topK)]);
    var result := Tool(toolResult, RetrieverCallId);
    var turn := TurnMessages(message, topK, toolResult, answer);
    assert turn == [Human(message), call, result] + [answer];
    HistoryAppend([Human(message), call, result], [answer]);
    assert [Human(message), call, result] == [Human(message), call] + [result];
    HistoryAppend([Human(message), call], [result]);
    HistoryOne(result);
    assert [Human(message), call] == [Human(message)] + [call];
    HistoryAppend([Human(message)], [call]);
    assert Strip(call.content) == [];
    HistoryOne(call);
    HistoryOne(Human(message));
  }

  /** A completed turn appends to the thread's visible history the user's
      message and the answer's entry. */
  lemma TurnHistory(history: seq<Message>, message: string, topK: int,
                    toolResult: string, answer: Message)
    ensures HistoryOf(history + TurnMessages(message, topK, toolResult, answer))
      == HistoryOf(history) + [Turn(User, message)] + HistoryOf([answer])
  {
    HistoryAppend(history, TurnMessages(message, topK, toolResult, answer));
    TurnEntries(message, topK, toolResult, answer);
  }

  /** When the answer is not blank, the thread's history ends with the
      user's message and exactly the reply `chat` returned for the turn. */
  lemma ChatReplyInHistory(history: seq<Message>, message: string, topK: int,
                           toolResult: string, answer: Message)
    requires answer.Ai? && Strip(answer.content) != []
    ensures HistoryOf(history + TurnMessages(message, topK, toolResult, answer))
      == HistoryOf(history) + [Turn(User, message)] + [Turn(Assistant, ChatReply(Success(answer)).value)]
  {
    TurnHistory(history, message, topK, toolResult, answer);
    HistoryOne(answer);
  }

  /** The history of a single message is its entry, if it has one. */
  lemma HistoryOne(m: Message)
    ensures HistoryOf([m]) == if TurnOf(m).Some? then [TurnOf(m).value] else []
  {
    assert [m][..0] == [];
  }

  // ---------------------------------------------------------------------
  // generate_thread_title

  const TitleAsk: string := "Generate a short chat title (max 6 words)"

  const TitleAskEnd: string := " for this user query. "

  const TitleRules: string := "Return only the title text,"

  const TitleRulesEnd: string := " no quotes or punctuation extras.\n\n"

  /** The request sent to the model for a title, ending in "Query: " and
      the user's first message. */
  function TitlePrompt(first: string): (r: string)
    ensures |first| <= |r| && r[|r| - |first|..] == first
  {
    TitleAsk + TitleAskEnd + TitleRules + TitleRulesEnd + "Query: " + first
  }

  const NewChat: string := "New Chat"

  const TitleLimit: nat := 80

  predicate IsQuote(c: char) {
    c == '"'
  }

  /** `.strip().strip('"').strip()` of the model's reply. */
  function CleanTitle(reply: string): (r: string)
    ensures Stripped(r)
  {
    Strip(TrimEnd(TrimStart(Strip(reply), IsQuote), IsQuote))
  }

  /** The title made of the model's reply: "New Chat" when nothing is left
      after cleaning, else the cleaned reply cut to its first 80 characters. */
  function TitleFromReply(reply: string): (r: string)
    ensures 0 < |r| <= TitleLimit
  {
    var title := CleanTitle(reply);
    if title == [] then NewChat
    else if |title| <= TitleLimit then title
    else title[..TitleLimit]
  }

  /** generate_thread_title(first_user_message): one call of the model on
      the title request; its failure propagates unchanged. */
  function GenerateThreadTitle(first: string, llm: string -> Result<string, string>): (r: Result<string, Error>)
    ensures r.Success? <==> llm(TitlePrompt(first)).Success?
    ensures r.Success? ==> 0 < |r.value| <= TitleLimit
    ensures r.Failure? ==> r.error == Raised(llm(TitlePrompt(first)).error)
  {
    match llm(TitlePrompt(first))
    case Success(reply) => Success(TitleFromReply(reply))
    case Failure(e) => Failure(Raised(e))
  }

  /** Nothing left after cleaning gives "New Chat". */
  lemma TitleBlank(reply: string)
    requires CleanTitle(reply) == []
    ensures TitleFromReply(reply) == NewChat
  {
  }

  /** Otherwise the title is the longest prefix of the cleaned reply that
      fits in 80 characters. */
  lemma TitleIsPrefix(reply: string)
    requires CleanTitle(reply) != []
    ensures TitleFromReply(reply) <= CleanTitle(reply)
    ensures |TitleFromReply(reply)|
      == if |CleanTitle(reply)| < TitleLimit then |CleanTitle(reply)| else TitleLimit
  {
    var title := CleanTitle(reply);
    if |title| <= TitleLimit {
      assert title[..|title|] == title;
    }
  }

  /** A title that is already clean and short comes back unchanged. */
  lemma TitleKept(title: string)
    requires title != [] && Stripped(title) && |title| <= TitleLimit
    requires !IsQuote(title[0]) && !IsQuote(title[|title| - 1])
    ensures TitleFromReply(title) == title
  {
    StripStripped(title);
    var front := TrimStart(title, IsQuote);
    assert front == title;
    var back := TrimEnd(front, IsQuote);
    assert back == title;
    StripStripped(title);
  }

  /** A reply whose cleaned text is longer than 80 characters is cut to
      exactly 80 of them. */
  lemma TitleTruncated(reply: string)
    requires |CleanTitle(reply)| > TitleLimit
    ensures TitleFromReply(reply) == CleanTitle(reply)[..TitleLimit]
  {
  }
}
