/**
 * The request-handling logic of Backend/main.py: the `.pdf` upload gate, the
 * conversation title rule, and the websocket loop that turns the agent's event
 * stream into `status` / `chunk` / `end` frames. One query is handled at a time,
 * and every send is assumed to succeed. The agent run is an input: the events it
 * yields, then either normal completion or the text of the exception it raised.
 * The database is a value (`Option<Conversation>`, None when the row does not exist).
 */
module ChatServer {
  import opened Wrappers
  import opened Text

  // ---------------------------------------------------------------- upload

  /** The reply of `POST /upload`. */
  datatype UploadReply =
    | Rejected(error: string)
    | Processed(message: string, filePath: string, result: string)
    | Failed(error: string)

  /** `os.path.join(DATA_FOLDER, filename)` for a plain file name. */
  function DataPath(dataFolder: string, filename: string): string {
    dataFolder + "/" + filename
  }

  /**
   * `upload_pdf`: a file whose name does not end in ".pdf" is refused before anything
   * is written; otherwise it is saved under the data folder and handed to
   * `process_pdf` (here `process`, from path to summary or raised message).
   */
  function UploadPdf(filename: string, content: seq<bv8>, dataFolder: string, folder: map<string, seq<bv8>>,
                     process: string -> Result<string, string>): (r: (map<string, seq<bv8>>, UploadReply))
    ensures r.1.Rejected? <==> !EndsWith(filename, ".pdf")
    ensures r.1.Rejected? ==> r.0 == folder && r.1.error == "Only PDF files are supported"
    ensures !r.1.Rejected? ==> r.0 == folder[DataPath(dataFolder, filename) := content]
    ensures r.1.Processed? ==> process(DataPath(dataFolder, filename)).Success?
                               && r.1.result == process(DataPath(dataFolder, filename)).value
                               && r.1.filePath == DataPath(dataFolder, filename)
    ensures r.1.Failed? ==> process(DataPath(dataFolder, filename)).Failure?
                            && r.1.error == process(DataPath(dataFolder, filename)).error
  {
    if !EndsWith(filename, ".pdf") then (folder, Rejected("Only PDF files are supported"))
    else
      var path := DataPath(dataFolder, filename);
      var saved := folder[path := content];
      match process(path)
      case Success(result) =>
        (saved, Processed("PDF '" + filename + "' saved and processed successfully", path, result))
      case Failure(e) => (saved, Failed(e))
  }

  /** The gate is case-sensitive. */
  lemma UploadGateExamples(content: seq<bv8>, dataFolder: string, folder: map<string, seq<bv8>>,
                           process: string -> Result<string, string>)
    ensures !UploadPdf("report.pdf", content, dataFolder, folder, process).1.Rejected?
    ensures UploadPdf("report.PDF", content, dataFolder, folder, process).1.Rejected?
    ensures UploadPdf("pdf", content, dataFolder, folder, process).1.Rejected?
  {
  }

  // ---------------------------------------------------------------- conversations

  datatype Message = Message(role: string, content: string)

  /** A conversation row and its messages, oldest first. */
  datatype Conversation = Conversation(title: string, messages: seq<Message>)

  /** `content[:50] + ("..." if len(content) > 50 else "")` */
  function DeriveTitle(content: string): (title: string)
    ensures |title| <= 53
    ensures |content| <= 50 ==> title == content
    ensures |content| > 50 ==> |title| == 53 && title[..50] == content[..50] && EndsWith(title, "...")
  {
    content[..if |content| < 50 then |content| else 50] + (if |content| > 50 then "..." else "")
  }

  /**
   * `POST /conversations/{id}/messages`: 404 when the conversation does not exist;
   * otherwise the message is appended, and the title is rewritten only when a "user"
   * message arrives at a conversation that has no messages yet.
   */
  function AddMessage(conversation: Option<Conversation>, role: string, content: string)
    : (r: Result<Conversation, string>)
    ensures conversation.None? <==> r.Failure?
    ensures r.Failure? ==> r.error == "Conversation not found"
    ensures r.Success? ==> r.value.messages == conversation.value.messages + [Message(role, content)]
    ensures r.Success? && r.value.title != conversation.value.title ==>
              role == "user" && conversation.value.messages == [] && r.value.title == DeriveTitle(content)
    ensures r.Success? && role == "user" && conversation.value.messages == [] ==>
              r.value.title == DeriveTitle(content)
  {
    match conversation
    case None => Failure("Conversation not found")
    case Some(c) =>
      var title := if role == "user" && |c.messages| == 0 then DeriveTitle(content) else c.title;
      Success(Conversation(title, c.messages + [Message(role, content)]))
  }

  /** Posting messages one by one; None once a post fails. */
  function AddAll(conversation: Conversation, posts: seq<Message>): Option<Conversation>
    decreases |posts|
  {
    if posts == [] then Some(conversation)
    else match AddMessage(Some(conversation), posts[0].role, posts[0].content)
      case Failure(_) => None
      case Success(c) => AddAll(c, posts[1..])
  }

  /**
   * A conversation is named once: by its first message if that is a user message,
   * and never again by later messages.
   */
  lemma {:induction false} TitleSetOnce(conversation: Conversation, posts: seq<Message>)
    ensures AddAll(conversation, posts).Some?
    ensures conversation.messages != [] ==> AddAll(conversation, posts).value.title == conversation.title
    ensures conversation.messages == [] && posts != [] ==>
              AddAll(conversation, posts).value.title ==
                (if posts[0].role == "user" then DeriveTitle(posts[0].content) else conversation.title)
    decreases |posts|
  {
    if posts != [] {
      var c := AddMessage(Some(conversation), posts[0].role, posts[0].content).value;
      TitleSetOnce(c, posts[1..]);
    }
  }

  /** The socket's user-message save: only when the conversation exists; title from the first message. */
  function RecordUserMessage(conversation: Option<Conversation>, query: string): Option<Conversation> {
    match conversation
    case None => None
    case Some(c) =>
      Some(Conversation(if |c.messages| == 0 then DeriveTitle(query) else c.title,
                        c.messages + [Message("user", query)]))
  }

  /** The socket saves the user's query exactly as posting a "user" message would. */
  lemma SocketSaveMatchesEndpoint(conversation: Option<Conversation>, query: string)
    ensures conversation.None? ==> RecordUserMessage(conversation, query).None?
    ensures conversation.Some? ==>
              RecordUserMessage(conversation, query) == Some(AddMessage(conversation, "user", query).value)
  {
  }

  /**
   * The assistant save. It does not look the conversation up; when the row is
   * missing the foreign key rejects the insert and the error is swallowed, so
   * nothing is stored.
   */
  function RecordAssistantMessage(conversation: Option<Conversation>, response: string): Option<Conversation> {
    match conversation
    case None => None
    case Some(c) => Some(Conversation(c.title, c.messages + [Message("assistant", response)]))
  }

  // ---------------------------------------------------------------- frames

  datatype FrameType = Status | Chunk | End

  /** `{"type": ..., "content": ...}` as sent by `websocket.send_json`. */
  datatype Frame = Frame(kind: FrameType, content: string)

  const THINKING := Frame(Status, "Thinking...")
  const END := Frame(End, "")
  const RATE_LIMITED := ['\U{26A0}', '\U{FE0F}'] + " Rate limit reached. Please wait about 60 seconds before asking another question."
  const ERROR_PREFIX := "Error processing request: "

  /** An item of `agent_graph.astream_events`: its `event` name and `data.chunk.content`. */
  datatype AgentEvent = AgentEvent(name: string, chunkContent: string)

  /** One agent run: the events it yields, then `None`, or `Some(str(exception))` if it raised. */
  datatype AgentRun = AgentRun(events: seq<AgentEvent>, failure: Option<string>)

  predicate IsRateLimit(error: string) {
    Contains(error, "429") || Contains(error, "RESOURCE_EXHAUSTED")
  }

  /** The chunk text sent when the agent raises. */
  function FailureText(error: string): (text: string)
    ensures text == RATE_LIMITED <==> IsRateLimit(error)
    ensures !IsRateLimit(error) ==> StartsWith(text, ERROR_PREFIX) && text[|ERROR_PREFIX|..] == error
  {
    if IsRateLimit(error) then RATE_LIMITED
    else
      assert (ERROR_PREFIX + error)[0] == ERROR_PREFIX[0] == 'E';
      assert RATE_LIMITED[0] == '\U{26A0}';
      ERROR_PREFIX + error
  }

  /** The frames one event produces. */
  function EventFrame(e: AgentEvent): seq<Frame> {
    if e.name == "on_chain_start" then [THINKING]
    else if e.name == "on_chat_model_stream" && e.chunkContent != "" then [Frame(Chunk, e.chunkContent)]
    else []
  }

  /** The frames a sequence of events produces, in event order. */
  function EventFrames(events: seq<AgentEvent>): seq<Frame>
    decreases |events|
  {
    if events == [] then []
    else EventFrames(events[..|events| - 1]) + EventFrame(events[|events| - 1])
  }

  /** What closes a query: `end` after completion; an error chunk then `end` after an exception. */
  function ClosingFrames(failure: Option<string>): seq<Frame> {
    match failure
    case None => [END]
    case Some(e) => [Frame(Chunk, FailureText(e)), END]
  }

  /** All frames one query sends. */
  function QueryFrames(run: AgentRun): seq<Frame> {
    EventFrames(run.events) + ClosingFrames(run.failure)
  }

  /** The concatenated contents of the `chunk` frames. */
  function ChunkText(frames: seq<Frame>): string
    decreases |frames|
  {
    if frames == [] then ""
    else ChunkText(frames[..|frames| - 1])
         + (if frames[|frames| - 1].kind == Chunk then frames[|frames| - 1].content else "")
  }

  function CountKind(frames: seq<Frame>, kind: FrameType): nat
    decreases |frames|
  {
    if frames == [] then 0
    else CountKind(frames[..|frames| - 1], kind) + (if frames[|frames| - 1].kind == kind then 1 else 0)
  }

  function CountEvents(events: seq<AgentEvent>, name: string): nat
    decreases |events|
  {
    if events == [] then 0
    else CountEvents(events[..|events| - 1], name) + (if events[|events| - 1].name == name then 1 else 0)
  }

  /** The number of `on_chat_model_stream` events whose content is not empty. */
  function CountNonEmptyStreams(events: seq<AgentEvent>): nat
    decreases |events|
  {
    if events == [] then 0
    else
      var e := events[|events| - 1];
      CountNonEmptyStreams(events[..|events| - 1])
      + (if e.name == "on_chat_model_stream" && e.chunkContent != "" then 1 else 0)
  }

  /** The contents of every `on_chat_model_stream` event, concatenated (empty ones included). */
  function StreamedText(events: seq<AgentEvent>): string
    decreases |events|
  {
    if events == [] then ""
    else StreamedText(events[..|events| - 1])
         + (if events[|events| - 1].name == "on_chat_model_stream" then events[|events| - 1].chunkContent else "")
  }

  lemma {:induction false} ChunkTextAppend(frames: seq<Frame>, more: seq<Frame>)
    ensures ChunkText(frames + more) == ChunkText(frames) + ChunkText(more)
    decreases |more|
  {
    if more == [] {
      assert frames + more == frames;
    } else {
      var all := frames + more;
      var init := more[..|more| - 1];
      assert all[..|all| - 1] == frames + init;
      assert all[|all| - 1] == more[|more| - 1];
      ChunkTextAppend(frames, init);
    }
  }

  lemma {:induction false} CountKindAppend(frames: seq<Frame>, more: seq<Frame>, kind: FrameType)
    ensures CountKind(frames + more, kind) == CountKind(frames, kind) + CountKind(more, kind)
    decreases |more|
  {
    if more == [] {
      assert frames + more == frames;
    } else {
      var all := frames + more;
      var init := more[..|more| - 1];
      assert all[..|all| - 1] == frames + init;
      assert all[|all| - 1] == more[|more| - 1];
      CountKindAppend(frames, init, kind);
    }
  }

  lemma SingleFrame(f: Frame, kind: FrameType)
    ensures ChunkText([f]) == (if f.kind == Chunk then f.content else "")
    ensures CountKind([f], kind) == (if f.kind == kind then 1 else 0)
  {
  }

  /** The closing frames hold one `end`, and their chunk text is the error text if any. */
  lemma ClosingShape(failure: Option<string>)
    ensures CountKind(ClosingFrames(failure), End) == 1
    ensures ChunkText(ClosingFrames(failure)) == (if failure.None? then "" else FailureText(failure.value))
  {
    SingleFrame(END, End);
    if failure.Some? {
      var chunk := Frame(Chunk, FailureText(failure.value));
      SingleFrame(chunk, End);
      assert ClosingFrames(failure) == [chunk] + [END];
      ChunkTextAppend([chunk], [END]);
      CountKindAppend([chunk], [END], End);
    }
  }

  /**
   * The event frames: one `status` per `on_chain_start`, no `end`, no empty `chunk`,
   * and chunk contents that add up to everything the model streamed.
   */
  lemma EventFramesShape(events: seq<AgentEvent>)
    ensures CountKind(EventFrames(events), Status) == CountEvents(events, "on_chain_start")
    ensures CountKind(EventFrames(events), Chunk) == CountNonEmptyStreams(events)
    ensures CountKind(EventFrames(events), End) == 0
    ensures |EventFrames(events)| == CountEvents(events, "on_chain_start") + CountNonEmptyStreams(events)
    ensures ChunkText(EventFrames(events)) == StreamedText(events)
    ensures forall i :: 0 <= i < |EventFrames(events)| && EventFrames(events)[i].kind == Chunk ==>
              EventFrames(events)[i].content != ""
    ensures |EventFrames(events)| <= |events|
  {
    EventFramesCount(events);
    EventFramesText(events);
    EventFramesChunks(events);
  }

  /**
   * One `status` per `on_chain_start`, one `chunk` per non-empty `on_chat_model_stream`,
   * no `end`, and nothing for any other event.
   */
  lemma {:induction false} EventFramesCount(events: seq<AgentEvent>)
    ensures CountKind(EventFrames(events), Status) == CountEvents(events, "on_chain_start")
    ensures CountKind(EventFrames(events), Chunk) == CountNonEmptyStreams(events)
    ensures CountKind(EventFrames(events), End) == 0
    ensures |EventFrames(events)| == CountEvents(events, "on_chain_start") + CountNonEmptyStreams(events)
    decreases |events|
  {
    if events != [] {
      var init := events[..|events| - 1];
      var e := events[|events| - 1];
      EventFramesCount(init);
      CountKindAppend(EventFrames(init), EventFrame(e), Status);
      CountKindAppend(EventFrames(init), EventFrame(e), Chunk);
      CountKindAppend(EventFrames(init), EventFrame(e), End);
      if e.name == "on_chain_start" {
        SingleFrame(THINKING, Status);
        SingleFrame(THINKING, Chunk);
        SingleFrame(THINKING, End);
      } else if e.name == "on_chat_model_stream" && e.chunkContent != "" {
        SingleFrame(Frame(Chunk, e.chunkContent), Status);
        SingleFrame(Frame(Chunk, e.chunkContent), Chunk);
        SingleFrame(Frame(Chunk, e.chunkContent), End);
      }
    }
  }

  lemma {:induction false} EventFramesText(events: seq<AgentEvent>)
    ensures ChunkText(EventFrames(events)) == StreamedText(events)
    decreases |events|
  {
    if events != [] {
      var init := events[..|events| - 1];
      var e := events[|events| - 1];
      EventFramesText(init);
      ChunkTextAppend(EventFrames(init), EventFrame(e));
      if e.name == "on_chain_start" {
        SingleFrame(THINKING, End);
      } else if e.name == "on_chat_model_stream" && e.chunkContent != "" {
        SingleFrame(Frame(Chunk, e.chunkContent), End);
      }
    }
  }

  lemma {:induction false} EventFramesChunks(events: seq<AgentEvent>)
    ensures forall i :: 0 <= i < |EventFrames(events)| && EventFrames(events)[i].kind == Chunk ==>
              EventFrames(events)[i].content != ""
    ensures |EventFrames(events)| <= |events|
    decreases |events|
  {
    if events != [] {
      var init := events[..|events| - 1];
      EventFramesChunks(init);
      var before := EventFrames(init);
      var added := EventFrame(events[|events| - 1]);
      assert EventFrames(events) == before + added;
      assert forall i :: 0 <= i < |added| && added[i].kind == Chunk ==> added[i].content != "";
    }
  }

  /**
   * The per-query streaming loop of `chat_socket` / `chat_socket_legacy`: relay the
   * events, accumulate the streamed text, then close with `end` (after an error
   * chunk if the agent raised). `response` is `assistant_response`.
   */
  method StreamQuery(run: AgentRun) returns (frames: seq<Frame>, response: string)
    ensures frames == QueryFrames(run)
    ensures run.failure.None? ==> response == ChunkText(frames)
    ensures run.failure.Some? ==> response + FailureText(run.failure.value) == ChunkText(frames)
    ensures |frames| > 0 && frames[|frames| - 1] == END && CountKind(frames, End) == 1
  {
    frames := [];
    response := "";
    var i := 0;
    while i < |run.events|
      invariant 0 <= i <= |run.events|
      invariant frames == EventFrames(run.events[..i])
      invariant response == ChunkText(frames)
    {
      var event := run.events[i];
      EventFramesStep(run.events, i);
      ChunkTextAppend(frames, EventFrame(event));
      if event.name == "on_chain_start" {
        frames := frames + [THINKING];
      } else if event.name == "on_chat_model_stream" {
        var content := event.chunkContent;
        if content != "" {
          response := response + content;
          frames := frames + [Frame(Chunk, content)];
        }
      }
      i := i + 1;
    }
    assert run.events[..i] == run.events;
    QueryFramesShape(run);
    ClosingShape(run.failure);
    ChunkTextAppend(frames, ClosingFrames(run.failure));
    match run.failure {
      case None =>
        frames := frames + [END];
      case Some(e) =>
        frames := frames + [Frame(Chunk, FailureText(e)), END];
    }
  }

  /** One more event adds its own frames after the earlier ones. */
  lemma EventFramesStep(events: seq<AgentEvent>, i: nat)
    requires i < |events|
    ensures EventFrames(events[..i + 1]) == EventFrames(events[..i]) + EventFrame(events[i])
  {
    assert events[..i + 1][..i] == events[..i];
  }

  // ---------------------------------------------------------------- sessions

  /** A query text received on the socket and the agent run it triggers. */
  datatype Query = Query(text: string, run: AgentRun)

  /** The frames a session sends for its queries, in order. */
  function SessionFrames(queries: seq<Query>): seq<Frame>
    decreases |queries|
  {
    if queries == [] then []
    else SessionFrames(queries[..|queries| - 1]) + QueryFrames(queries[|queries| - 1].run)
  }

  /** The database after one query: the user message, then the reply if the run completed with text. */
  function AfterQuery(conversation: Option<Conversation>, query: Query): Option<Conversation> {
    var withQuery := RecordUserMessage(conversation, query.text);
    var response := ChunkText(EventFrames(query.run.events));
    if query.run.failure.None? && response != "" then RecordAssistantMessage(withQuery, response)
    else withQuery
  }

  /** The database after a session's queries. */
  function SessionStore(conversation: Option<Conversation>, queries: seq<Query>): Option<Conversation>
    decreases |queries|
  {
    if queries == [] then conversation
    else AfterQuery(SessionStore(conversation, queries[..|queries| - 1]), queries[|queries| - 1])
  }

  /**
   * `chat_socket`: for each query received until the client disconnects, save the
   * user message, stream the agent run, and save the assistant reply when the run
   * completed with a non-empty response.
   */
  method ChatSocket(conversation: Option<Conversation>, queries: seq<Query>)
    returns (frames: seq<Frame>, stored: Option<Conversation>)
    ensures frames == SessionFrames(queries)
    ensures stored == SessionStore(conversation, queries)
  {
    frames := [];
    stored := conversation;
    var i := 0;
    while i < |queries|
      invariant 0 <= i <= |queries|
      invariant frames == SessionFrames(queries[..i])
      invariant stored == SessionStore(conversation, queries[..i])
    {
      var prefix := queries[..i + 1];
      assert prefix[..i] == queries[..i] && prefix[i] == queries[i];
      var sent;
      sent, stored := ServeQuery(stored, queries[i]);
      frames := frames + sent;
      assert frames == SessionFrames(prefix);
      i := i + 1;
    }
    assert queries[..i] == queries;
  }

  /**
   * One pass of `chat_socket`'s loop: save the query, stream the agent run, and save
   * the reply when the run completed with a non-empty response.
   */
  method ServeQuery(stored: Option<Conversation>, query: Query)
    returns (frames: seq<Frame>, after: Option<Conversation>)
    ensures frames == QueryFrames(query.run)
    ensures after == AfterQuery(stored, query)
  {
    after := SaveUserMessage(stored, query.text);
    var assistantResponse;
    frames, assistantResponse := StreamQuery(query.run);
    CompletedResponse(query.run);
    if query.run.failure.None? && assistantResponse != "" {
      after := SaveAssistantMessage(after, assistantResponse);
    }
  }

  /** The socket's save of the user's query: skipped when the conversation row does not exist. */
  method SaveUserMessage(stored: Option<Conversation>, query: string) returns (r: Option<Conversation>)
    ensures r == RecordUserMessage(stored, query)
  {
    r := stored;
    if stored.Some? {
      var c := stored.value;
      var title := c.title;
      if |c.messages| == 0 {
        title := DeriveTitle(query);
      }
      r := Some(Conversation(title, c.messages + [Message("user", query)]));
    }
  }

  /** The socket's save of the assistant's reply; a missing row stores nothing. */
  method SaveAssistantMessage(stored: Option<Conversation>, response: string) returns (r: Option<Conversation>)
    ensures r == RecordAssistantMessage(stored, response)
  {
    r := stored;
    if stored.Some? {
      r := Some(Conversation(stored.value.title, stored.value.messages + [Message("assistant", response)]));
    }
  }

  /** After a completed run, the text of its chunk frames is the text of its event frames. */
  lemma CompletedResponse(run: AgentRun)
    ensures run.failure.None? ==> ChunkText(QueryFrames(run)) == ChunkText(EventFrames(run.events))
  {
  }

  /** `chat_socket_legacy`: the same frames, with nothing saved. */
  method ChatSocketLegacy(queries: seq<Query>) returns (frames: seq<Frame>)
    ensures frames == SessionFrames(queries)
  {
    frames := [];
    var i := 0;
    while i < |queries|
      invariant 0 <= i <= |queries|
      invariant frames == SessionFrames(queries[..i])
    {
      assert queries[..i + 1][..i] == queries[..i];
      var sent, _ := StreamQuery(queries[i].run);
      frames := frames + sent;
      i := i + 1;
    }
    assert queries[..i] == queries;
  }

  /**
   * Every query's frames end with `end` before the next query's begin: each prefix of
   * the query list yields a prefix of the frames that ends with `end`.
   */
  lemma EachQueryEnds(queries: seq<Query>, k: nat)
    requires 0 < k <= |queries|
    ensures var prefix := SessionFrames(queries[..k]);
            |prefix| > 0 && prefix[|prefix| - 1] == END
            && prefix <= SessionFrames(queries)
  {
    QueryFramesShape(queries[..k][k - 1].run);
    SessionFramesGrow(queries, k);
  }

  /** The frames of a prefix of the queries are a prefix of the session's frames. */
  lemma {:induction false} SessionFramesGrow(queries: seq<Query>, k: nat)
    requires k <= |queries|
    ensures SessionFrames(queries[..k]) <= SessionFrames(queries)
    decreases |queries|
  {
    if k == |queries| {
      assert queries[..k] == queries;
    } else {
      var init := queries[..|queries| - 1];
      assert queries[..k] == init[..k];
      SessionFramesGrow(init, k);
      PrefixOfLonger(SessionFrames(queries[..k]), SessionFrames(init), QueryFrames(queries[|queries| - 1].run));
    }
  }

  lemma PrefixOfLonger(a: seq<Frame>, b: seq<Frame>, c: seq<Frame>)
    requires a <= b
    ensures a <= b + c
  {
  }

  /** A session sends exactly one `end` per query. */
  lemma {:induction false} OneEndPerQuery(queries: seq<Query>)
    ensures CountKind(SessionFrames(queries), End) == |queries|
    decreases |queries|
  {
    if queries != [] {
      var init := queries[..|queries| - 1];
      OneEndPerQuery(init);
      QueryFramesShape(queries[|queries| - 1].run);
      CountKindAppend(SessionFrames(init), QueryFrames(queries[|queries| - 1].run), End);
    }
  }

  lemma QueryFramesShape(run: AgentRun)
    ensures |QueryFrames(run)| > 0 && QueryFrames(run)[|QueryFrames(run)| - 1] == END
    ensures CountKind(QueryFrames(run), End) == 1
  {
    EventFramesShape(run.events);
    ClosingShape(run.failure);
    CountKindAppend(EventFrames(run.events), ClosingFrames(run.failure), End);
  }

  /**
   * A session on a conversation with no messages names it after the first query;
   * a conversation that already has messages keeps its title; with no conversation
   * row nothing is stored.
   */
  lemma {:induction false} SessionTitle(conversation: Option<Conversation>, queries: seq<Query>)
    ensures conversation.None? ==> SessionStore(conversation, queries).None?
    ensures conversation.Some? ==> SessionStore(conversation, queries).Some?
    ensures conversation.Some? && conversation.value.messages != [] ==>
              SessionStore(conversation, queries).value.title == conversation.value.title
    ensures conversation.Some? && conversation.value.messages == [] && queries != [] ==>
              SessionStore(conversation, queries).value.title == DeriveTitle(queries[0].text)
    ensures conversation.Some? && queries != [] ==> SessionStore(conversation, queries).value.messages != []
    decreases |queries|
  {
    if queries != [] {
      var init := queries[..|queries| - 1];
      SessionTitle(conversation, init);
      if init != [] {
        assert init[0] == queries[0];
      }
    }
  }

  /**
   * Per query, the store gains the user's message and, only for a completed run with a
   * non-empty response, one assistant message holding exactly the streamed text.
   */
  lemma QueryMessages(c: Conversation, query: Query)
    ensures var after := AfterQuery(Some(c), query).value;
            var response := StreamedText(query.run.events);
            after.messages == c.messages + [Message("user", query.text)]
                              + (if query.run.failure.None? && response != "" then [Message("assistant", response)] else [])
  {
    EventFramesShape(query.run.events);
  }
}
