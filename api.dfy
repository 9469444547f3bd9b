/** The decisions of backend/app2.py's request handlers: `chat_api`,
    `create_thread` and the dispatch of `upload_api`. A JSON field that is
    missing or null is `None`; new ids, the clock and the extractors are
    parameters. */
module Api {
  import opened Wrappers
  import opened Text
  import opened Retriever
  import opened Agent
  import opened Threads

  /** `(value or "").strip()`: a missing, null or empty field reads as "". */
  function FieldText(field: Option<string>): (r: string)
    ensures Stripped(r)
    ensures field.None? ==> r == []
    ensures field.Some? ==> r == Strip(field.value)
  {
    match field
    case None => []
    case Some(v) => Strip(v)
  }

  /** `(value or "").strip() or str(uuid4())`: the given id, stripped, or a
      new one when it is blank. */
  function ResolveThreadId(given: Option<string>, newId: string): (r: string)
    ensures FieldText(given) != [] ==> r == FieldText(given)
    ensures FieldText(given) == [] ==> r == newId
  {
    var id := FieldText(given);
    if id == [] then newId else id
  }

  // ---------------------------------------------------------------------
  // chat_api

  /** The JSON payload of `POST /api/chat`. */
  datatype ChatRequest = ChatRequest(message: Option<string>, threadId: Option<string>)

  const MessageRequired: string := "message is required"

  /** The JSON body of a `chat_api` response: the answer, the 400 error, or
      the error of a failure caught by the handler. */
  datatype ChatBody =
    | Answered(threadId: string, title: string, message: string, answer: string)
    | Rejected(error: string)
    | Failed(cause: Error)

  /** What `chat_api` answers and what the thread table holds afterwards.
      `reply` is what `agent.chat(message, thread_id)` returns. */
  function ChatApiOutcome(rows: map<string, Row>, request: ChatRequest, newId: string, now: string,
                          reply: Result<string, Error>, llm: string -> Result<string, string>)
    : (int, ChatBody, map<string, Row>)
  {
    var message := FieldText(request.message);
    var id := ResolveThreadId(request.threadId, newId);
    if message == [] then (400, Rejected(MessageRequired), rows)
    else
      var title := if id in rows then Success(rows[id].title) else GenerateThreadTitle(message, llm);
      if title.Failure? then (500, Failed(title.error), rows)
      else if reply.Failure? then (500, Failed(reply.error), rows)
      else (200, Answered(id, title.value, message, reply.value), Upserted(rows, id, title.value, message, now))
  }

  /** `chat_api()`. `history` is the thread's checkpointed messages, `newId`
      the id `uuid4` would give and `now` the clock's reading. */
  method ChatApi(store: ThreadStore, request: ChatRequest, newId: string, now: string,
                 history: seq<Message>, topK: int, instructions: string,
                 search: (string, int) -> Result<seq<Doc>, string>,
                 llm: string -> Result<string, string>)
    returns (status: int, body: ChatBody)
    modifies store
    ensures var message := FieldText(request.message);
      (status, body, store.rows)
        == ChatApiOutcome(old(store.rows), request, newId, now,
                          ChatOutcome(message, search(message, topK), instructions, llm).0, llm)
  {
    var message := FieldText(request.message);
    var id := ResolveThreadId(request.threadId, newId);
    if message == [] {
      return 400, Rejected(MessageRequired);
    }
    var thread := store.Get(id);
    var title: string;
    if thread.None? {
      var generated := GenerateThreadTitle(message, llm);
      if generated.Failure? {
        return 500, Failed(generated.error);
      }
      title := generated.value;
    } else {
      title := thread.value.title;
    }
    var reply, prompt, answer := Chat(history, message, topK, search, instructions, llm);
    if reply.Failure? {
      return 500, Failed(reply.error);
    }
    store.Upsert(id, title, message, now);
    return 200, Answered(id, title, message, reply.value);
  }

  /** A message that is blank after stripping is rejected with 400 before
      the table or the agent is touched. */
  lemma BlankMessageRejected(rows: map<string, Row>, request: ChatRequest, newId: string, now: string,
                             reply: Result<string, Error>, llm: string -> Result<string, string>)
    requires FieldText(request.message) == []
    ensures ChatApiOutcome(rows, request, newId, now, reply, llm) == (400, Rejected(MessageRequired), rows)
  {
  }

  /** Whenever the handler does not answer 200 the table is unchanged. */
  lemma FailureKeepsTable(rows: map<string, Row>, request: ChatRequest, newId: string, now: string,
                          reply: Result<string, Error>, llm: string -> Result<string, string>)
    ensures ChatApiOutcome(rows, request, newId, now, reply, llm).0 != 200 ==>
      ChatApiOutcome(rows, request, newId, now, reply, llm).2 == rows
  {
  }

  /** An existing thread keeps its stored title and its creation time; the
      turn's message becomes its last message. */
  lemma ExistingThreadKeepsTitle(rows: map<string, Row>, request: ChatRequest, newId: string, now: string,
                                 reply: Result<string, Error>, llm: string -> Result<string, string>)
    requires ResolveThreadId(request.threadId, newId) in rows
    requires ChatApiOutcome(rows, request, newId, now, reply, llm).0 == 200
    ensures var id := ResolveThreadId(request.threadId, newId);
      var (status, body, after) := ChatApiOutcome(rows, request, newId, now, reply, llm);
      && body.Answered? && body.title == rows[id].title
      && GetThread(after, id)
           == Some(ThreadView(id, rows[id].title, rows[id].createdAt, now, FieldText(request.message)))
  {
    var id := ResolveThreadId(request.threadId, newId);
    GetAfterUpsert(rows, id, rows[id].title, FieldText(request.message), now);
  }

  /** Only a new thread gets a generated title: at most 80 characters,
      created and updated now. */
  lemma NewThreadGetsTitle(rows: map<string, Row>, request: ChatRequest, newId: string, now: string,
                           reply: Result<string, Error>, llm: string -> Result<string, string>)
    requires ResolveThreadId(request.threadId, newId) !in rows
    requires ChatApiOutcome(rows, request, newId, now, reply, llm).0 == 200
    ensures var id := ResolveThreadId(request.threadId, newId);
      var message := FieldText(request.message);
      var (status, body, after) := ChatApiOutcome(rows, request, newId, now, reply, llm);
      && GenerateThreadTitle(message, llm).Success?
      && body.Answered? && body.title == GenerateThreadTitle(message, llm).value
      && 0 < |body.title| <= TitleLimit
      && GetThread(after, id) == Some(ThreadView(id, body.title, now, now, message))
  {
    var id := ResolveThreadId(request.threadId, newId);
    var message := FieldText(request.message);
    GetAfterUpsert(rows, id, GenerateThreadTitle(message, llm).value, message, now);
  }

  // ---------------------------------------------------------------------
  // create_thread

  /** The JSON payload of `POST /api/threads`. */
  datatype CreateRequest = CreateRequest(threadId: Option<string>, title: Option<string>)

  /** `(title or "New Chat").strip() or "New Chat"`. */
  function ResolveTitle(given: Option<string>): (r: string)
    ensures r != [] && Stripped(r)
  {
    var title := match given case Some(t) => if t == [] then NewChat else t case None => NewChat;
    var stripped := Strip(title);
    if stripped == [] then NewChat else stripped
  }

  /** A missing, empty or blank title becomes "New Chat"; any other title
      is kept, stripped. */
  lemma ResolveTitleCases(given: Option<string>)
    ensures FieldText(given) == [] ==> ResolveTitle(given) == NewChat
    ensures FieldText(given) != [] ==> ResolveTitle(given) == FieldText(given)
  {
    assert NewChat[0] == 'N' && NewChat[|NewChat| - 1] == 't';
    StripStripped(NewChat);
  }

  /** `create_thread()`: status 201 with the thread's id and title; the row
      is upserted with an empty last message. */
  method CreateThread(store: ThreadStore, request: CreateRequest, newId: string, now: string)
    returns (status: int, id: string, title: string)
    modifies store
    ensures status == 201
    ensures id == ResolveThreadId(request.threadId, newId) && title == ResolveTitle(request.title)
    ensures store.rows == Upserted(old(store.rows), id, title, "", now)
  {
    id := ResolveThreadId(request.threadId, newId);
    title := ResolveTitle(request.title);
    store.Upsert(id, title, "", now);
    status := 201;
  }

  // ---------------------------------------------------------------------
  // upload_api: what is extracted from an upload request

  /** An input handed to one of the extractors. */
  datatype Source = Pdf(path: string) | Audio(path: string) | YouTube(url: string) | Web(url: string)

  const UploadFolder: string := "../uploads_pdf"

  const AudioExtensions: seq<string> := [".mp3", ".wav", ".m4a", ".flac", ".aac", ".ogg"]

  predicate EndsWithAny(s: string, suffixes: seq<string>) {
    exists i :: 0 <= i < |suffixes| && EndsWith(s, suffixes[i])
  }

  /** The dispatch of a saved file by its lower-cased name: PDF, audio, or
      skipped. `name` is the name `secure_filename` returned. */
  function FileSource(name: string): (r: Option<Source>)
    ensures EndsWith(Lower(name), ".pdf") ==> r == Some(Pdf(UploadFolder + "/" + name))
    ensures !EndsWith(Lower(name), ".pdf") && EndsWithAny(Lower(name), AudioExtensions) ==>
      r == Some(Audio(UploadFolder + "/" + name))
    ensures !EndsWith(Lower(name), ".pdf") && !EndsWithAny(Lower(name), AudioExtensions) ==> r == None
  {
    var lower := Lower(name);
    var path := UploadFolder + "/" + name;
    if EndsWith(lower, ".pdf") then Some(Pdf(path))
    else if EndsWithAny(lower, AudioExtensions) then Some(Audio(path))
    else None
  }

  /** The sources of the uploaded files, in order: a file without a name is
      skipped, as is one whose name has no known extension. */
  function FileSources(files: seq<Option<string>>, secure: string -> string): (r: seq<Source>)
    ensures |r| <= |files|
  {
    if files == [] then []
    else
      var earlier := FileSources(files[..|files| - 1], secure);
      var last := files[|files| - 1];
      if last.None? || last.value == [] then earlier
      else match FileSource(secure(last.value))
        case None => earlier
        case Some(s) => earlier + [s]
  }

  /** The source of the form's `url`, if any: a YouTube video when
      `url_type` is "youtube" after stripping and lower-casing, else a web
      page. */
  function UrlSources(url: Option<string>, urlType: Option<string>): (r: seq<Source>)
    ensures FieldText(url) == [] ==> r == []
    ensures FieldText(url) != [] && Lower(FieldText(urlType)) == "youtube" ==> r == [YouTube(FieldText(url))]
    ensures FieldText(url) != [] && Lower(FieldText(urlType)) != "youtube" ==> r == [Web(FieldText(url))]
  {
    var u := FieldText(url);
    if u == [] then []
    else if Lower(FieldText(urlType)) == "youtube" then [YouTube(u)]
    else [Web(u)]
  }

  /** Everything the request hands to the extractors, in the order the
      handler calls them. */
  function UploadSources(files: seq<Option<string>>, secure: string -> string,
                         url: Option<string>, urlType: Option<string>): seq<Source> {
    FileSources(files, secure) + UrlSources(url, urlType)
  }

  /** The documents extracted from `sources` in order; the first failing
      extractor's error propagates. */
  function ExtractAll(sources: seq<Source>, extract: Source -> Result<seq<Doc>, string>)
    : Result<seq<Doc>, string>
  {
    if sources == [] then Success([])
    else
      var earlier := ExtractAll(sources[..|sources| - 1], extract);
      if earlier.Failure? then earlier
      else
        var docs := extract(sources[|sources| - 1]);
        if docs.Failure? then Failure(docs.error) else Success(earlier.value + docs.value)
  }

  /** Extraction over two runs of sources is the first run followed by
      the second, unless one fails. */
  lemma {:induction false} ExtractAllAppend(a: seq<Source>, b: seq<Source>,
                                            extract: Source -> Result<seq<Doc>, string>)
    ensures ExtractAll(a, extract).Failure? ==> ExtractAll(a + b, extract) == ExtractAll(a, extract)
    ensures ExtractAll(a, extract).Success? && ExtractAll(b, extract).Failure? ==>
      ExtractAll(a + b, extract) == ExtractAll(b, extract)
    ensures ExtractAll(a, extract).Success? && ExtractAll(b, extract).Success? ==>
      ExtractAll(a + b, extract) == Success(ExtractAll(a, extract).value + ExtractAll(b, extract).value)
  {
    if b == [] {
      assert a + b == a;
      if ExtractAll(a, extract).Success? {
        assert ExtractAll(a, extract).value + [] == ExtractAll(a, extract).value;
      }
    } else {
      var init := b[..|b| - 1];
      assert (a + b)[..|a + b| - 1] == a + init;
      assert (a + b)[|a + b| - 1] == b[|b| - 1];
      ExtractAllAppend(a, init, extract);
      if ExtractAll(a, extract).Success? && ExtractAll(init, extract).Success? {
        var x := ExtractAll(a, extract).value;
        var y := ExtractAll(init, extract).value;
        var z := extract(b[|b| - 1]);
        if z.Success? {
          assert x + y + z.value == x + (y + z.value);
        }
      }
    }
  }

  lemma {:induction false} FileSourcesAppend(a: seq<Option<string>>, b: seq<Option<string>>,
                                             secure: string -> string)
    ensures FileSources(a + b, secure) == FileSources(a, secure) + FileSources(b, secure)
  {
    if b == [] {
      assert a + b == a;
    } else {
      var init := b[..|b| - 1];
      assert (a + b)[..|a + b| - 1] == a + init;
      assert (a + b)[|a + b| - 1] == b[|b| - 1];
      FileSourcesAppend(a, init, secure);
    }
  }

  /** Once the files up to `j` fail to extract, the whole request fails
      with that error. */
  lemma FailurePropagates(files: seq<Option<string>>, j: nat, secure: string -> string,
                          rest: seq<Source>, extract: Source -> Result<seq<Doc>, string>)
    requires j <= |files|
    requires ExtractAll(FileSources(files[..j], secure), extract).Failure?
    ensures ExtractAll(FileSources(files, secure) + rest, extract)
         == ExtractAll(FileSources(files[..j], secure), extract)
  {
    assert files[..j] + files[j..] == files;
    FileSourcesAppend(files[..j], files[j..], secure);
    var front := FileSources(files[..j], secure);
    var back := FileSources(files[j..], secure);
    assert front + back + rest == front + (back + rest);
    ExtractAllAppend(front, back + rest, extract);
  }

  /** Extracting one more source after a successful run. */
  lemma ExtractSnoc(sources: seq<Source>, s: Source, extract: Source -> Result<seq<Doc>, string>)
    ensures ExtractAll(sources + [s], extract)
         == if ExtractAll(sources, extract).Failure? then ExtractAll(sources, extract)
            else if extract(s).Failure? then Failure(extract(s).error)
            else Success(ExtractAll(sources, extract).value + extract(s).value)
  {
    assert (sources + [s])[..|sources|] == sources;
  }

  /** The collecting part of `upload_api`: the files in order, then the
      url. */
  method CollectDocuments(files: seq<Option<string>>, secure: string -> string,
                          url: Option<string>, urlType: Option<string>,
                          extract: Source -> Result<seq<Doc>, string>)
    returns (r: Result<seq<Doc>, string>)
    ensures r == ExtractAll(UploadSources(files, secure, url, urlType), extract)
  {
    var documents: seq<Doc> := [];
    for i := 0 to |files|
      invariant ExtractAll(FileSources(files[..i], secure), extract) == Success(documents)
    {
      assert files[..i + 1][..i] == files[..i];
      var file := files[i];
      if file.Some? && file.value != [] {
        var source := FileSource(secure(file.value));
        if source.Some? {
          ExtractSnoc(FileSources(files[..i], secure), source.value, extract);
          var docs := extract(source.value);
          if docs.Failure? {
            FailurePropagates(files, i + 1, secure, UrlSources(url, urlType), extract);
            return Failure(docs.error);
          }
          documents := documents + docs.value;
        }
      }
    }
    assert files[..|files|] == files;
    var rest := UrlSources(url, urlType);
    if rest != [] {
      ExtractSnoc(FileSources(files, secure), rest[0], extract);
      assert FileSources(files, secure) + [rest[0]] == UploadSources(files, secure, url, urlType);
      var docs := extract(rest[0]);
      if docs.Failure? {
        return Failure(docs.error);
      }
      documents := documents + docs.value;
    } else {
      assert UploadSources(files, secure, url, urlType) == FileSources(files, secure);
    }
    return Success(documents);
  }

  const NoInput: string := "No valid file/url/audio/youtube input provided"

  /** The JSON body of an `upload_api` response. */
  datatype UploadBody = Indexed(documents: nat, chunks: nat) | UploadError(message: string)

  /** `upload_api()`: 500 when an extractor, the chunker or the vector store
      fails, 400 when nothing was collected, else 200 with the number of
      documents and of the chunks `chunk` splits them into. `chunk` answers
      the chunks or the error it re-raised. `index` loads and saves the
      chunks and answers the error it raised, if any. */
  method UploadApi(files: seq<Option<string>>, secure: string -> string,
                   url: Option<string>, urlType: Option<string>,
                   extract: Source -> Result<seq<Doc>, string>,
                   chunk: seq<Doc> -> Result<seq<Doc>, string>,
                   index: seq<Doc> -> Option<string>)
    returns (status: int, body: UploadBody)
    ensures var docs := ExtractAll(UploadSources(files, secure, url, urlType), extract);
      && (docs.Failure? ==> status == 500 && body == UploadError(docs.error))
      && (docs.Success? && docs.value == [] ==> status == 400 && body == UploadError(NoInput))
      && (docs.Success? && docs.value != [] && chunk(docs.value).Failure? ==>
            status == 500 && body == UploadError(chunk(docs.value).error))
      && (docs.Success? && docs.value != [] && chunk(docs.value).Success?
          && index(chunk(docs.value).value).Some? ==>
            status == 500 && body == UploadError(index(chunk(docs.value).value).value))
      && (docs.Success? && docs.value != [] && chunk(docs.value).Success?
          && index(chunk(docs.value).value).None? ==>
            status == 200 && body == Indexed(|docs.value|, |chunk(docs.value).value|))
  {
    var docs := CollectDocuments(files, secure, url, urlType, extract);
    if docs.Failure? {
      return 500, UploadError(docs.error);
    }
    if docs.value == [] {
      return 400, UploadError(NoInput);
    }
    var chunks := chunk(docs.value);
    if chunks.Failure? {
      return 500, UploadError(chunks.error);
    }
    var failure := index(chunks.value);
    if failure.Some? {
      return 500, UploadError(failure.value);
    }
    return 200, Indexed(|docs.value|, |chunks.value|);
  }

  /** A request with no usable file and no url calls no extractor and
      collects nothing, so it is answered 400. */
  lemma NothingToExtract(files: seq<Option<string>>, secure: string -> string,
                         url: Option<string>, urlType: Option<string>,
                         extract: Source -> Result<seq<Doc>, string>)
    requires UploadSources(files, secure, url, urlType) == []
    ensures ExtractAll(UploadSources(files, secure, url, urlType), extract) == Success([])
  {
  }

  /** A PDF name in any letter case goes to the PDF extractor. */
  lemma UpperCasePdf()
    ensures FileSource("Notes.PDF") == Some(Pdf(UploadFolder + "/Notes.PDF"))
  {
    var lower := Lower("Notes.PDF");
    assert lower[5] == '.' && lower[6] == 'p' && lower[7] == 'd' && lower[8] == 'f';
    assert lower[5..] == ".pdf";
    assert EndsWith(lower, ".pdf");
    assert UploadFolder + "/" + "Notes.PDF" == UploadFolder + "/Notes.PDF";
  }
}
