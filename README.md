# Agentic Knowledge Retrieval Platform — verified model of the core

This project models, in Dafny, the self-contained logic of a retrieval-augmented
chat service. The service itself is built on a vector index, a hosted LLM, a
graph-based agent framework, Flask and SQLite. The parts modelled here are:

- **Text cleaning** (`clean_text`). Trim every line, keep the lines longer than three
  characters, and join them with line feeds.
- **Retrieval post-filter** (`prompt_retriever`). After one similarity search, keep the
  documents whose trimmed content is longer than 20 characters.
- **Prompt template** (`render_advanced_rag_prompt_v1`).
- **Context builder and refusal short-circuit** of `get_answer` and `retriever_tool`.
- **Think-markup stripping** (`_strip_think_content`): the three regex passes followed by
  `strip()`.
- **The agent's three graph nodes**, run in their fixed order for one chat turn.
- **The history projection** (`get_thread_messages`) and **title post-processing**
  (`generate_thread_title`).
- **The thread table** (`_upsert_thread`, `_get_thread`, `_list_threads`), modelled as a
  class that holds a map.
- **The decisions of the HTTP handlers** `chat_api`, `create_thread` and `upload_api`.

The similarity search, the LLM, the extractors, the chunker, the vector store's
load/save, `secure_filename`, `uuid4` and the clock are all parameters of the operations
that use them. Python exceptions become `Result` failures whose `Error` value records
where the exception was re-raised as `customException`.

Modules, one per file:

- `Wrappers`: Option, Result, Error.
- `Text`: Python's `str.strip`, `splitlines`, `join`, `lower` and decimal printing, plus
  SQLite's text order.
- `Ingestion`: `clean_text`.
- `Retriever`: the document type and `prompt_retriever`.
- `Prompt`: the template.
- `Context`: context entries.
- `Gen`: `get_answer`.
- `Think`: think-markup stripping.
- `Agent`: the graph nodes, `chat`, history and titles.
- `Threads`: the thread table.
- `Api`: the request handlers.

Two facts about the code shape the model:

- The retriever is single-stage. It makes one search and applies the length filter, with
  no over-fetch of candidates and no reranking.
- `get_answer` returns the LLM's content unchanged. Think-stripping happens only on the
  agent path (`answer_node`, `chat`, `get_thread_messages`).

The 34-line instruction block of the prompt template is `Prompt.Instructions`. The
answer-side operations (`Gen.AskModel`, `Gen.GetAnswer`, `Agent.AnswerNode`,
`Agent.FinishTurn`, `Agent.Chat`) take the instruction text as a parameter and render
with `RenderTemplate(instructions, …)`. The running system passes `Prompt.Instructions`,
which is what `Prompt.RenderPrompt` does. Their contracts hold for every instruction
text, so in particular they hold for that one.

## Model

| member | source | states |
|---|---|---|
| Text.Strip | services/ingestion.py:21 | `str.strip()`: the result has no whitespace at either end, and it is empty exactly when the input is all whitespace |
| Text.StripIdempotent | services/ingestion.py:21 | stripping twice is stripping once |
| Text.SplitLines | services/ingestion.py:21 | `str.splitlines()`: the text between line boundaries (`\n`, `\r`, `\r\n` and Python's other breaks), with no empty line after a final break and none for `""`; no line holds a break and there are no more lines than characters |
| Text.JoinWith | services/ingestion.py:22 | `sep.join(parts)`: the parts in order with `sep` between each two of them |
| Text.SplitJoin | services/ingestion.py:21-22 | splitting a `"\n"`-join of non-empty, break-free lines gives back exactly those lines |
| Text.DecimalRoundTrip | services/gen.py:56 | the decimal rendering of an entry number parses back to that number |
| Text.DecimalString | services/gen.py:56 | `str(n)` for the entry number: a non-empty string of decimal digits, whose value is `n` by `DecimalRoundTrip` |
| Text.Lower | backend/app2.py:215 | `lower()` keeps the length and lower-cases each ASCII letter in place |
| Text.LexTotal | backend/app2.py:106 | SQLite's text order on `updated_at` is total |
| Text.LexTrans | backend/app2.py:106 | SQLite's text order on `updated_at` is transitive |
| Ingestion.CleanText | services/ingestion.py:19-22 | `clean_text`: the kept lines of `KeepLines` joined by `"\n"`; its properties are `CleanTextLines`, `CleanTextShape`, `CleanTextEmpty`, `CleanTextFewerLines` and `CleanTextIdempotent` |
| Ingestion.KeepLines | services/ingestion.py:21 | every kept line is stripped and longer than 3; there are no more lines than in the input; the result is empty iff no line is kept |
| Ingestion.KeepLinesNoBreak | services/ingestion.py:21 | lines without line breaks stay without line breaks after keeping |
| Ingestion.CleanTextLines | services/ingestion.py:21-22 | the lines of the output are exactly the kept input lines, stripped, in their order; each is stripped and longer than 3 |
| Ingestion.JoinedLinesShape | services/ingestion.py:22 | joining non-empty stripped lines gives a stripped text with no empty line |
| Ingestion.CleanTextShape | services/ingestion.py:21-22 | the output never starts or ends with whitespace (so never with `"\n"`) and never holds `"\n\n"` |
| Ingestion.CleanTextEmpty | services/ingestion.py:21-22 | the output is `""` iff no input line is longer than 3 after stripping |
| Ingestion.CleanTextFewerLines | services/ingestion.py:21 | the output never has more lines than the input |
| Ingestion.KeepLinesOfKept | services/ingestion.py:21 | lines that are already stripped and longer than 3 are all kept unchanged |
| Ingestion.CleanTextIdempotent | services/ingestion.py:21-22 | cleaning a cleaned text returns it unchanged |
| Retriever.Filtered | services/retriever.py:35-43 | the filter never returns more documents than the search produced |
| Retriever.FilteredAppend | services/retriever.py:35-40 | filtering distributes over concatenation, so order is preserved |
| Retriever.FilteredPrefix | services/retriever.py:36-40 | each loop step appends the document exactly when its trimmed content is longer than 20 |
| Retriever.FilteredCount | services/retriever.py:35-43 | each document occurs in the result as often as in the search results if it passes the length test, else never |
| Retriever.FilteredMembers | services/retriever.py:37-40 | a document is in the result iff it was found and its trimmed content is longer than 20 |
| Retriever.PromptRetriever | services/retriever.py:22-47 | the loop returns exactly the filtered search results (an empty search gives `[]`); a search failure is re-raised wrapped at the retrieval site |
| Prompt.FillFrame | services/retriever.py:55-99 | for any instruction text the filled template begins with `## Role ##`, ends with `## Answer ##`, and `strip()` removes only the two trailing line feeds |
| Prompt.RenderTemplate | services/retriever.py:50-99 | the rendered prompt begins with `## Role ##` and ends with `## Answer ##` |
| Prompt.FillSections | services/retriever.py:90-94 | the question sits right after `## User Question ##\n` and the context right after `## Context ##\n` |
| Prompt.FillEmptyContext | services/retriever.py:93-96 | with an empty context the prompt ends in `"\n\n## Context ##\n\n\n## Answer ##"` |
| Prompt.Fill | services/retriever.py:55-96 | the f-string before `strip()`: role heading, instruction text, question heading and question, context heading and context, answer heading |
| Prompt.RenderPrompt | services/retriever.py:50-99 | `render_advanced_rag_prompt_v1`: `RenderTemplate` over the fixed 34-line instruction text `Prompt.Instructions` |
| Context.Entry | services/gen.py:54-56 | entry n: `"[n] Source: "`, the source, `"\n"` and the stripped content |
| Context.BuildContext | services/gen.py:52-58 | the entries of the documents, numbered from 1, joined by `"\n\n---\n\n"`; `FormatContext` computes it with the source's loop |
| Context.SourceOf | services/gen.py:54 | the `source` metadata value, or `Unknown Source` when it is absent |
| Context.Entries | services/gen.py:53-56 | one entry per document |
| Context.EntriesAt | services/gen.py:53-56 | entry i (0-based) is `"[i+1] Source: <source>\n<stripped content>"` of document i |
| Context.FormatContext | services/gen.py:52-58 | the numbering loop followed by the join produces `BuildContext` of the documents |
| Context.EntryStartsWithHead | services/gen.py:56 | every entry starts with its `[n] Source: ` head and is longer than it |
| Context.JoinWithEmpty | services/gen.py:58 | a join of non-empty parts is empty iff there are no parts |
| Context.ContextEmpty | services/langgraph_agent.py:47-55 | the context is `""` iff there are no documents |
| Context.SingleDocContext | services/gen.py:58 | one document gives its entry with no separator |
| Context.ContextSnoc | services/gen.py:58 | one more document appends `"\n\n---\n\n"` and its numbered entry |
| Gen.Answer | services/gen.py:68-78 | the LLM's content is returned unchanged; its failure is re-raised wrapped at the generation site |
| Gen.AskModel | services/gen.py:61-74 | the LLM receives exactly the template filled with the query and the built context |
| Gen.GetAnswer | services/gen.py:38-78 | retrieval with k = 4; no documents give exactly the refusal string without calling the LLM; otherwise the LLM gets the rendered prompt; every failure is re-raised wrapped |
| Think.Find | services/langgraph_agent.py:37 | the first case-insensitive match of a tag at or after a position, or none |
| Think.RemoveClosedBlocks | services/langgraph_agent.py:37 | the first `re.sub`: each opening tag in any case is removed with everything up to the nearest closing tag after it; an opening tag with no closing tag after it is left |
| Think.ClosedBlockRemoved | services/langgraph_agent.py:37 | a `<think>…</think>` block, with its tags in any letter case, is removed up to the nearest closing tag whatever the reasoning holds; the text before the first opening tag is kept |
| Think.LeadingClosedBlockRemoved | services/langgraph_agent.py:37 | a leading closed block, tags in any letter case, is removed up to the nearest closing tag |
| Think.ClosedBlocksPlain | services/langgraph_agent.py:37 | text without `<` is untouched by the first pass |
| Think.RemoveOpenTails | services/langgraph_agent.py:38 | the second `re.sub`: each opening tag left is removed with everything up to the next opening tag or the end of the text (`$`, which also matches before a final `"\n"`) |
| Think.TailEnd | services/langgraph_agent.py:38 | the lazy `.*?` stops at the first later `<think>` or at `$` |
| Think.OpenTailsClosedForm | services/langgraph_agent.py:38 | the second pass cuts the text at the first `<think>`, keeping only a final line feed |
| Think.OpenTailsRemoveTags | services/langgraph_agent.py:38 | no `<think>` is left after the second pass |
| Think.UnclosedBlockRemoved | services/langgraph_agent.py:37-38 | an opening tag in any letter case with no closing tag after it removes the rest of the text, except a final line feed |
| Think.CollapseNewlines | services/langgraph_agent.py:39 | the third `re.sub`: every maximal run of three or more line feeds becomes two |
| Think.NewlineRun | services/langgraph_agent.py:39 | the length of the run of line feeds at the start |
| Think.CollapseRemovesTriples | services/langgraph_agent.py:39 | after the third pass no run of three line feeds remains |
| Think.CollapseKeepsText | services/langgraph_agent.py:39 | the third pass removes only line feeds |
| Think.CollapseNoTriple | services/langgraph_agent.py:39 | text without a run of three line feeds is unchanged by the third pass |
| Think.StripNoTriple | services/langgraph_agent.py:39-40 | `strip()` creates no run of three line feeds |
| Think.StripThink | services/langgraph_agent.py:36-40 | the result has no surrounding whitespace and no run of three or more line feeds |
| Think.PlainTextUnchanged | services/langgraph_agent.py:36-40 | stripped text with no opening tag in any letter case and no triple line feed is returned unchanged, whatever other `<` it holds |
| Think.LeadingBlockRemoved | services/langgraph_agent.py:36-40 | a leading think block, tags in any letter case, before an answer without an opening tag leaves exactly the answer |
| Think.PlainBlockRemoved | services/langgraph_agent.py:36-40 | a lower-case block whose reasoning holds no `<` is removed from an answer without `<` |
| Think.ExampleReply | services/langgraph_agent.py:36-40 | `"<think>reasoning</think>Final answer"` becomes `"Final answer"` |
| Think.ExampleAnyCase | services/langgraph_agent.py:36-40 | `"<THINK>x < 3</Think>Done"` becomes `"Done"` |
| Think.ExampleComparison | services/langgraph_agent.py:36-40 | `"a < b"` comes back unchanged |
| Think.NoBracketNoTag | services/langgraph_agent.py:37 | text without `<` holds no opening tag |
| Agent.RetrieverTool | services/langgraph_agent.py:43-55 | the numbered context of the filtered documents, `""` iff none passed; a retrieval failure is re-raised |
| Agent.LastHuman | services/langgraph_agent.py:103-105 | the content of the last user message, or none where Python raises `StopIteration` |
| Agent.LastHumanAt | services/langgraph_agent.py:103-105 | the selected user message is the one at the greatest index |
| Agent.LastHumanNone | services/langgraph_agent.py:103-105 | there is no user message to select iff the state holds no human message |
| Agent.LastTool | services/langgraph_agent.py:126-130 | the content of the last tool message, if there is one |
| Agent.ToolContext | services/langgraph_agent.py:126-130 | the context the answer node works from: the last tool message's content, or `""` |
| Agent.LastToolAt | services/langgraph_agent.py:126-130 | the context is the content of the tool message at the greatest index |
| Agent.LatestToolContent | services/langgraph_agent.py:126-130 | the backwards scan with `break` yields the latest tool message's content, or `""` |
| Agent.RetrieveCallNode | services/langgraph_agent.py:102-120 | one empty AI message with one tool call carrying the latest user message and `top_k`; none iff there is no user message |
| Agent.AnswerMessage | services/langgraph_agent.py:142-145 | the LLM's reply is think-stripped into a plain AI message; an LLM failure propagates |
| Agent.AnswerNode | services/langgraph_agent.py:122-145 | no user message raises; an empty tool context gives the refusal without calling the LLM; otherwise the LLM gets the prompt for the latest user message and tool content |
| Agent.AskWithContext | services/langgraph_agent.py:141-145 | the prompt is the template on the user message and context, and the answer is built from the LLM's reply to it |
| Agent.RefusalUnchanged | services/langgraph_agent.py:159-164 | the refusal string survives `_strip_think_content` unchanged |
| Agent.ChatReply | services/langgraph_agent.py:159-164 | `chat` returns the think-stripped content of the last message |
| Agent.TurnState | services/langgraph_agent.py:147-154 | after the call and tool steps the answer node sees the new user message and the tool's result |
| Agent.FinishTurn | services/langgraph_agent.py:122-164 | the answer step and the reply, for an empty and a non-empty context |
| Agent.ChatOutcome | services/langgraph_agent.py:122-164 | what one chat turn gives for a search result: a failed search wrapped as a retrieval error; no filtered document the refusal with no prompt; otherwise the think-stripped LLM reply to the rendered prompt, or the LLM error |
| Agent.Chat | services/langgraph_agent.py:147-164 | one turn runs retrieve_call, retrieve_tool and answer in order, and the reply, the prompt and the new message are those of the turn's outcome |
| Agent.ChatRefusal | services/langgraph_agent.py:132-139 | when no document passes the filter the reply is the refusal and the LLM is not asked |
| Agent.ChatAsksModel | services/langgraph_agent.py:141-164 | otherwise the LLM gets the rendered prompt, and the reply is its think-stripped content or its error |
| Agent.TurnOf | services/langgraph_agent.py:172-177 | the entry of one message: a user message as it is, a non-blank AI message think-stripped, nothing for a tool message or a blank AI message |
| Agent.HistoryOf | services/langgraph_agent.py:166-178 | the entries of the messages, in order |
| Agent.GetThreadMessages | services/langgraph_agent.py:166-178 | the loop yields the projected history of the messages |
| Agent.HistoryAppend | services/langgraph_agent.py:171-178 | projection distributes over concatenation, so message order is preserved |
| Agent.HistoryLength | services/langgraph_agent.py:171-178 | the history is never longer than the messages |
| Agent.HistoryEntries | services/langgraph_agent.py:172-177 | every entry comes from a message; assistant entries are stripped and hold no run of three line feeds |
| Agent.HistoryOne | services/langgraph_agent.py:172-177 | a human message gives a user entry, a non-blank AI message gives an assistant entry, and anything else gives none |
| Agent.TurnEntries | services/langgraph_agent.py:172-177 | one turn's four messages show up as the user message plus the answer's entry; the tool call and tool result are dropped |
| Agent.TurnHistory | services/langgraph_agent.py:159-178 | a turn appended to a thread extends its history by exactly that turn's entries |
| Agent.ChatReplyInHistory | services/langgraph_agent.py:159-178 | the assistant entry recorded for a non-blank answer is the reply `chat` returned |
| Agent.TitlePrompt | services/langgraph_agent.py:181-185 | the title prompt ends with the first user message |
| Agent.CleanTitle | services/langgraph_agent.py:187 | the cleaned reply has no surrounding whitespace |
| Agent.TitleFromReply | services/langgraph_agent.py:187-190 | a title is never empty and at most 80 characters |
| Agent.GenerateThreadTitle | services/langgraph_agent.py:180-190 | the title exists iff the LLM call succeeds, has 1 to 80 characters, and an LLM failure propagates |
| Agent.TitleBlank | services/langgraph_agent.py:188-189 | a reply that is empty after trimming whitespace and quotes gives `New Chat` |
| Agent.TitleIsPrefix | services/langgraph_agent.py:190 | otherwise the title is the first min(80, length) characters of the cleaned reply |
| Agent.TitleKept | services/langgraph_agent.py:187-190 | a clean, unquoted title of at most 80 characters is returned unchanged |
| Agent.TitleTruncated | services/langgraph_agent.py:190 | a longer cleaned reply is cut to its first 80 characters |
| Threads.ViewOf | backend/app2.py:90-96 | the row's columns, with a null `last_message` shown as `""` |
| Threads.Upserted | backend/app2.py:51-75 | the table after `_upsert_thread`: an existing row gets the new title, `updated_at` and `last_message` and keeps `created_at`; a new row is created and updated at `now` |
| Threads.UpsertInserts | backend/app2.py:67-74 | a new id gets a row with `created_at == updated_at == now` |
| Threads.UpsertUpdates | backend/app2.py:58-66 | an existing id gets a new title, `updated_at` and `last_message` and keeps `created_at` |
| Threads.UpsertOthers | backend/app2.py:55-75 | only that id's row changes, and the keys become the old keys plus that id |
| Threads.UpsertIdempotent | backend/app2.py:51-75 | repeating the same upsert at the same time changes nothing |
| Threads.ThreadStore.constructor | backend/app2.py:34-48 | on a new database file the table starts empty |
| Threads.ThreadStore.Reopen | backend/app2.py:34-48 | on an existing database file `CREATE TABLE IF NOT EXISTS` keeps the stored rows |
| Threads.ThreadStore.Upsert | backend/app2.py:51-75 | the table becomes the upserted table; the id is present and keeps any earlier `created_at` |
| Threads.ThreadStore.Get | backend/app2.py:78-96 | `_get_thread` on the current table |
| Threads.GetThread | backend/app2.py:78-96 | `None` iff the id is absent, else the row's view |
| Threads.GetAfterUpsert | backend/app2.py:51-96 | after an upsert the thread reads back with the new title and message, updated now, created now only if new |
| Threads.InsertPos | backend/app2.py:106 | the position before the first view not newer than the inserted one |
| Threads.InsertKeepsOrder | backend/app2.py:106 | inserting at that position keeps a list ordered by `updated_at` descending |
| Threads.InsertShape | backend/app2.py:111-120 | insertion puts the view at its position and shifts the rest by one |
| Threads.InsertViews | backend/app2.py:111-120 | inserting an unlisted row's view keeps the list one of distinct row views |
| Threads.InsertIds | backend/app2.py:111-120 | insertion adds exactly the inserted view's id |
| Threads.ListThreads | backend/app2.py:99-120 | every row is listed exactly once as its view, ordered by `updated_at` descending |
| Api.FieldText | backend/app2.py:140 | a missing or null field reads as `""`, and any other field is stripped |
| Api.ResolveThreadId | backend/app2.py:141 | a blank thread id is replaced by the fresh id; otherwise it is the stripped given id |
| Api.ChatApiOutcome | backend/app2.py:137-169 | what `chat_api` answers and the table afterwards: 400 on a blank message; 500 when the title or the agent fails, table unchanged; else 200 with the upserted row |
| Api.ChatApi | backend/app2.py:137-169 | the status, body and new table are the handler's outcome for the agent's reply to the stripped message |
| Api.BlankMessageRejected | backend/app2.py:140-144 | a blank message gets 400 `message is required`, and the table is unchanged |
| Api.FailureKeepsTable | backend/app2.py:146-169 | every non-200 outcome leaves the table unchanged |
| Api.ExistingThreadKeepsTitle | backend/app2.py:147-154 | an existing thread keeps its title and `created_at`; its last message becomes the new message |
| Api.NewThreadGetsTitle | backend/app2.py:147-154 | only a new thread gets the generated title (1 to 80 characters), created and updated now |
| Api.ResolveTitle | backend/app2.py:176 | the title is never empty and never has surrounding whitespace |
| Api.ResolveTitleCases | backend/app2.py:176 | a missing, empty or blank title becomes `New Chat`; any other title is kept, stripped |
| Api.CreateThread | backend/app2.py:172-178 | status 201, and the row is upserted with the resolved id and title and `last_message` `""` |
| Api.FileSource | backend/app2.py:211-219 | a lower-cased `.pdf` name goes to the PDF extractor and a lower-cased audio extension to the audio extractor, at `../uploads_pdf/<name>`; any other name is skipped |
| Api.FileSources | backend/app2.py:205-219 | never more sources than files |
| Api.UrlSources | backend/app2.py:221-227 | a blank url gives nothing, `url_type` `youtube` gives the video extractor, and anything else gives the web extractor |
| Api.UploadSources | backend/app2.py:205-227 | the sources of the files, in order, then the source of the url, if any |
| Api.ExtractAll | backend/app2.py:203-227 | the documents of the sources, extracted in order, or the first extractor's error |
| Api.ExtractAllAppend | backend/app2.py:203-227 | extracting two runs of sources is the first run then the second, and the first failure wins |
| Api.FileSourcesAppend | backend/app2.py:205-219 | the file dispatch distributes over concatenation, so order is preserved |
| Api.FailurePropagates | backend/app2.py:203-227 | once an extractor fails, the whole request fails with its error |
| Api.CollectDocuments | backend/app2.py:203-227 | the loop collects exactly the extraction of the request's sources, in order |
| Api.UploadApi | backend/app2.py:200-252 | 500 on an extractor, chunker or store failure, 400 when nothing was collected, else 200 with the document and chunk counts |
| Api.NothingToExtract | backend/app2.py:229-230 | a request with no usable file and no url collects nothing |
| Api.UpperCasePdf | backend/app2.py:215-217 | `Notes.PDF` goes to the PDF extractor |

## Left out

- **Embedding model, FAISS index and similarity search** (services/embedding.py, services/faiss_db.py). These are floating-point vector work in external libraries. The search is a parameter that returns documents or an error.
- **Chunking** (services/chunking.py). It is a single call into an external text splitter whose rules are not visible, so `UploadApi` takes the chunker as a parameter that answers the chunks or the error `re_te_sp` re-raises. Only the number of chunks is reported.
- **The PDF, web, YouTube and audio extractors** (services/ingestion.py:25-134). These are network and file I/O. `UploadApi` takes them as one parameter `extract` over a tagged `Source` (PDF file, audio file, YouTube url or web url) that answers the documents or an error.
- **The LLM.** Its output is not specifiable. Every call is a parameter from prompt to reply or error. Temperature, token limits and retries are not modelled.
- **The LangGraph engine and its checkpoint store.** The fixed order of the three nodes is modelled directly in `Agent.Chat`. The persisted message history is a parameter.
- **`ToolNode`'s own handling of a failing tool.** The model lets a retrieval failure propagate to `chat`.
- **Flask, SQLite connections, file saving, `uuid4`, `_utc_now_iso` and `secure_filename`.** These are I/O or library code. The fresh id, the current time and the sanitised file name are parameters.
- **The routes of backend/app.py, the `list_threads_api` and `thread_messages` route wrappers, and test.py.** They are routing, HTML rendering and printing over the modelled operations.
- **Environment-variable configuration** (`GraphConfig`, `load_dotenv`) and **logging**. `top_k` is a parameter.
- **Concurrency on the shared vector store, agent and thread table.** The model is sequential.
- **JSON payload values that are not strings.** Payload fields are optional strings.
- **Non-ASCII case mapping.** `Text.Lower` lower-cases ASCII letters only. This is exact for the decisions it is used in, because the targets `.pdf`, the audio extensions and `youtube` are ASCII, and no non-ASCII character lower-cases to one of their letters.
- **Document metadata values** are modelled as strings.
- **Threads.ListThreads: the tie order.** Rows with equal `updated_at` come out in an order the contract leaves open, as SQLite does.
- **Agent.TitleFromReply:** its contract states only the length bound. The exact title, whether `New Chat`, the unchanged cleaned reply or its 80-character prefix, is given by `TitleBlank`, `TitleIsPrefix`, `TitleKept` and `TitleTruncated`.
- **Api.FileSource: names that `secure_filename` reduces to `""`.** Such a name makes `file.save` fail on the folder path. That failure is file I/O and is not modelled.
- **Prompt.Instructions:** the answer-side operations take the instruction text as a parameter, and their contracts hold for any text, including this one.
