/**
 * `app.py`, the single-process Streamlit app: it builds the conversational chain itself and keeps
 * it in `st.session_state.rag_chain`. One call of `Run` is one run of the script; `st.rerun()`
 * ends the run.
 */
module StreamlitApp {
  import opened Common
  import opened Chat
  import opened Session
  import RagCore
  import Sidebar

  /** The defaults of `initialize_session_state`, in their order. */
  const Defaults: seq<(Key, Value)> := [
    (Messages, Msgs([Greeting])),
    (RagChain, Null),
    (ApiKey, Str("")),
    (ChunkSize, Int(1000)),
    (ChunkOverlap, Int(200)),
    (UploadedFileName, Null),
    (ManualMode, Bool(false)),
    (UploadedFileObj, Null)
  ]

  const ApiKeyWarning: string := "Please enter your Google Gemini API key to process the document."
  const NotProcessedWarning: string := "Please upload and process a document first."

  lemma DefaultsWellFormed()
    ensures DistinctKeys(Defaults)
    ensures forall i :: 0 <= i < |Defaults| ==> KindOk(Defaults[i].0, Defaults[i].1)
    ensures KeysOf(Defaults) == {Messages, RagChain, ApiKey, ChunkSize, ChunkOverlap,
                                 UploadedFileName, ManualMode, UploadedFileObj}
    ensures TriggerReprocess !in KeysOf(Defaults)
  {
    assert Defaults[0].0 == Messages && Defaults[1].0 == RagChain && Defaults[2].0 == ApiKey;
    assert Defaults[3].0 == ChunkSize && Defaults[4].0 == ChunkOverlap;
    assert Defaults[5].0 == UploadedFileName && Defaults[6].0 == ManualMode && Defaults[7].0 == UploadedFileObj;
  }

  /** Every key `main` reads by attribute is present. */
  predicate Initialized(vars: map<Key, Value>) {
    Messages in vars && RagChain in vars && UploadedFileName in vars
  }

  /**
   * `initialize_session_state`: only missing keys are set; afterwards every default key is
   * present, and a well-typed state stays well-typed.
   */
  method InitializeSessionState(session: SessionState)
    requires WellTyped(session.vars)
    modifies session
    ensures session.vars == WithDefaults(old(session.vars), Defaults)
    ensures WellTyped(session.vars)
    ensures Initialized(session.vars)
    ensures forall k :: k in old(session.vars) ==> k in session.vars && session.vars[k] == old(session.vars)[k]
    ensures forall k :: k in {UploadedFileName, UploadedFileObj, TriggerReprocess} ==>
              Get(session.vars, k, Null) == Get(old(session.vars), k, Null)
    ensures TriggerReprocess in session.vars <==> TriggerReprocess in old(session.vars)
  {
    session.InitializeDefaults(Defaults);
    DefaultsApplied(old(session.vars));
  }

  /** What filling in `Defaults` does to a state, independently of where the state is stored. */
  lemma DefaultsApplied(vars: map<Key, Value>)
    requires WellTyped(vars)
    ensures var w := WithDefaults(vars, Defaults);
            && WellTyped(w)
            && Initialized(w)
            && (forall k :: k in vars ==> k in w && w[k] == vars[k])
            && (forall k :: k in {UploadedFileName, UploadedFileObj, TriggerReprocess} ==> Get(w, k, Null) == Get(vars, k, Null))
            && (TriggerReprocess in w <==> TriggerReprocess in vars)
  {
    DefaultsWellFormed();
    WithDefaultsWellTyped(vars, Defaults);
    WithDefaultsKeys(vars, Defaults);
    WithDefaultsKeepsExisting(vars, Defaults);
    WithDefaultsFillsMissing(vars, Defaults);
    var w := WithDefaults(vars, Defaults);
    assert Get(w, UploadedFileName, Null) == Get(vars, UploadedFileName, Null) by {
      assert Defaults[5] == (UploadedFileName, Null);
    }
    assert Get(w, UploadedFileObj, Null) == Get(vars, UploadedFileObj, Null) by {
      assert Defaults[7] == (UploadedFileObj, Null);
    }
    assert TriggerReprocess in w <==> TriggerReprocess in vars;
  }

  /** `format_chat_history` of `app.py`: `messages[0]` is skipped whatever its role. */
  method FormatChatHistory(messages: seq<Message>) returns (history: seq<Turn>)
    ensures history == ChatTurns(DropFirst(messages))
  {
    history := [];
    var rest := DropFirst(messages);
    var i := 0;
    while i < |rest|
      invariant 0 <= i <= |rest|
      invariant history == ChatTurns(rest[..i])
    {
      assert rest[..i + 1][..i] == rest[..i];
      var msg := rest[i];
      if msg.role == User {
        history := history + [Human(msg.content)];
      } else if msg.role == Assistant {
        history := history + [Ai(msg.content)];
      }
      i := i + 1;
    }
    assert rest[..|rest|] == rest;
  }

  /**
   * Against the back end's conversion of the same list, this one lacks exactly the turn of
   * `messages[0]`: nothing when it has another role, its turn when it is a user or assistant message.
   */
  lemma GreetingDropped(messages: seq<Message>)
    requires messages != []
    ensures ChatTurns(messages) == TurnsOf(messages[0]) + ChatTurns(DropFirst(messages))
  {
    var first, rest := messages[0], messages[1..];
    assert ChatTurns([first]) == TurnsOf(first) by {
      assert [first][..0] == [];
    }
    ChatTurnsAppend([first], rest);
    assert [first] + rest == messages;
  }

  // ---------------------------------------------------------------------------
  // handle_document_processing
  // ---------------------------------------------------------------------------

  /**
   * The chain `handle_document_processing` builds: load the temporary copy, choose the chunking
   * ("Automatic" or the manual values), build the conversational chain.
   */
  function ProcessedChain(
    file: UploadedFile, apiKey: string, mode: string, manualSize: int, manualOverlap: int,
    tmpName: string, lib: RagCore.Library): (r: Result<RagCore.RagChain, string>)
    ensures RagCore.LoadDocument(RagCore.TempPath(tmpName, file.name), file.data, lib).Err? ==>
              r == Err(RagCore.LoadDocument(RagCore.TempPath(tmpName, file.name), file.data, lib).error)
    ensures RagCore.LoadDocument(RagCore.TempPath(tmpName, file.name), file.data, lib).Ok? ==>
              var docs := RagCore.LoadDocument(RagCore.TempPath(tmpName, file.name), file.data, lib).value;
              var settings := RagCore.ChooseChunking(mode, docs, manualSize, manualOverlap);
              r == RagCore.CreateConversationalRagChain(docs, apiKey, settings.0, settings.1, lib)
    ensures r.Ok? ==>
              var docs := RagCore.LoadDocument(RagCore.TempPath(tmpName, file.name), file.data, lib).value;
              var settings := RagCore.ChooseChunking(mode, docs, manualSize, manualOverlap);
              RagCore.CreateConversationalRagChain(docs, apiKey, settings.0, settings.1, lib) == Ok(r.value)
  {
    match RagCore.LoadDocument(RagCore.TempPath(tmpName, file.name), file.data, lib)
    case Err(e) => Err(e)
    case Ok(docs) =>
      var settings := RagCore.ChooseChunking(mode, docs, manualSize, manualOverlap);
      RagCore.CreateConversationalRagChain(docs, apiKey, settings.0, settings.1, lib)
  }

  /** A file with an unsupported extension is never processed. */
  lemma UnsupportedFileNotProcessed(
    file: UploadedFile, apiKey: string, mode: string, size: int, overlap: int,
    tmpName: string, lib: RagCore.Library)
    requires RagCore.TempNameOk(tmpName)
    requires RagCore.SelectLoader(RagCore.Extension(file.name)).Err?
    ensures ProcessedChain(file, apiKey, mode, size, overlap, tmpName, lib) ==
            Err(RagCore.SelectLoader(RagCore.Extension(file.name)).error)
  {
    RagCore.TempPathKeepsExtension(tmpName, file.name);
  }

  datatype ProcessOutcome = ProcessedAndReran | ProcessFailed(error: string)

  /**
   * The session after `handle_document_processing`. The file name is recorded whether or not the
   * build succeeds; success stores the chain and leaves exactly one assistant message; failure
   * clears the chain and keeps the messages; nothing else changes.
   */
  function ProcessedState(vars: map<Key, Value>, fileName: string, built: Result<RagCore.RagChain, string>): (r: map<Key, Value>)
    requires WellTyped(vars)
    ensures WellTyped(r)
    ensures r.Keys == vars.Keys + {UploadedFileName, RagChain} + (if built.Ok? then {Messages} else {})
    ensures r[UploadedFileName] == Str(fileName)
    ensures built.Ok? ==> r[RagChain] == Chain(built.value) && r[Messages] == Msgs([ReadyMessage(fileName)])
    ensures built.Err? ==> r[RagChain] == Null
    ensures forall k :: k in vars && k !in {UploadedFileName, RagChain, Messages} ==> r[k] == vars[k]
    ensures built.Err? && Messages in vars ==> r[Messages] == vars[Messages]
  {
    var named := vars[UploadedFileName := Str(fileName)];
    match built
    case Ok(chain) => named[RagChain := Chain(chain)][Messages := Msgs([ReadyMessage(fileName)])]
    case Err(_) => named[RagChain := Null]
  }

  /**
   * `handle_document_processing`: record the name, load, choose the chunking, build the chain;
   * success reruns, failure shows the error.
   */
  method HandleDocumentProcessing(
    session: SessionState, file: UploadedFile, apiKey: string, mode: string,
    manualSize: int, manualOverlap: int, tmpName: string, lib: RagCore.Library) returns (outcome: ProcessOutcome)
    requires WellTyped(session.vars)
    modifies session
    ensures var built := ProcessedChain(file, apiKey, mode, manualSize, manualOverlap, tmpName, lib);
            && session.vars == ProcessedState(old(session.vars), file.name, built)
            && outcome == (if built.Ok? then ProcessedAndReran else ProcessFailed("Failed to process document: " + built.error))
  {
    ghost var built := ProcessedChain(file, apiKey, mode, manualSize, manualOverlap, tmpName, lib);
    var tmpFilePath := RagCore.TempPath(tmpName, file.name);
    session.Set(UploadedFileName, Str(file.name));
    var documents := RagCore.LoadDocument(tmpFilePath, file.data, lib);
    if documents.Err? {
      assert built == Err(documents.error);
      session.Set(RagChain, Null);
      return ProcessFailed("Failed to process document: " + documents.error);
    }
    var settings := RagCore.ChooseChunking(mode, documents.value, manualSize, manualOverlap);
    var chain := RagCore.CreateConversationalRagChain(documents.value, apiKey, settings.0, settings.1, lib);
    assert built == chain;
    if chain.Err? {
      session.Set(RagChain, Null);
      return ProcessFailed("Failed to process document: " + chain.error);
    }
    session.Set(RagChain, Chain(chain.value));
    session.Set(Messages, Msgs([ReadyMessage(file.name)]));
    outcome := ProcessedAndReran;
  }

  // ---------------------------------------------------------------------------
  // Asking a question
  // ---------------------------------------------------------------------------

  /** The dict returned by `rag_chain.invoke(...)`: the answer and the retrieved context, if any. */
  datatype ChainResponse = ChainResponse(answer: string, context: Option<seq<Doc>>)

  /** The assistant message that follows the question: the answer with its sources, or the error. */
  function BotMessage(reply: Result<ChainResponse, string>): (m: Message)
    ensures m.role == Assistant
    ensures reply.Ok? ==> m.content == reply.value.answer && m.sources == Some(reply.value.context.GetOr([]))
    ensures reply.Err? ==> m.content == "An error occurred: " + reply.error && m.sources.None?
  {
    match reply
    case Ok(response) => Message(Assistant, response.answer, Some(response.context.GetOr([])))
    case Err(e) => Message(Assistant, "An error occurred: " + e, None)
  }

  /** The history the chain receives ends with the question just asked. */
  lemma HistoryEndsWithQuestion(messages: seq<Message>, prompt: string)
    requires messages != []
    ensures var h := ChatTurns(DropFirst(messages + [Message(User, prompt, None)]));
            h != [] && h[|h| - 1] == Human(prompt)
  {
    var ms := messages + [Message(User, prompt, None)];
    assert DropFirst(ms) == messages[1..] + [Message(User, prompt, None)];
    assert DropFirst(ms)[..|DropFirst(ms)| - 1] == messages[1..];
  }

  datatype QuestionOutcome = NotReady | AnsweredAndReran | AnswerFailed(error: string)

  /**
   * The chat-input branch of `main`: with no chain it only warns; otherwise the question is
   * appended, then exactly one assistant message, the answer (and the script reruns) or the error.
   */
  method AskQuestion(
    session: SessionState, prompt: string,
    invoke: (RagCore.RagChain, string, seq<Turn>) -> Result<ChainResponse, string>) returns (outcome: QuestionOutcome)
    requires WellTyped(session.vars) && Messages in session.vars && RagChain in session.vars
    modifies session
    ensures WellTyped(session.vars)
    ensures old(session.vars)[RagChain].Null? ==> outcome == NotReady && session.vars == old(session.vars)
    ensures old(session.vars)[RagChain].Chain? ==>
              var asked := old(MessagesOf(session.vars)) + [Message(User, prompt, None)];
              var reply := invoke(old(session.vars)[RagChain].chain, prompt, ChatTurns(DropFirst(asked)));
              && session.vars == old(session.vars)[Messages := Msgs(asked + [BotMessage(reply)])]
              && outcome == (if reply.Ok? then AnsweredAndReran else AnswerFailed("An error occurred: " + reply.error))
  {
    if session.vars[RagChain].Null? {
      return NotReady;
    }
    var chain := session.vars[RagChain].chain;
    session.AppendMessage(Message(User, prompt, None));
    var chatHistory := FormatChatHistory(MessagesOf(session.vars));
    var response := invoke(chain, prompt, chatHistory);
    session.AppendMessage(BotMessage(response));
    if response.Ok? {
      outcome := AnsweredAndReran;
    } else {
      outcome := AnswerFailed("An error occurred: " + response.error);
    }
  }

  // ---------------------------------------------------------------------------
  // main
  // ---------------------------------------------------------------------------

  /** The inputs of one run: the sidebar widgets, the uploader, the chat input, the temp-file name. */
  datatype RunInput = RunInput(
    sidebar: Sidebar.SidebarInput, uploaded: Option<UploadedFile>, prompt: Option<string>, tmpName: string)

  /** What a run shows with `st.warning` or `st.error`. */
  datatype Alert = MissingApiKey | ProcessingError(message: string) | NoChainYet | AnswerError(message: string)

  /** How a run ended: one of the reruns, or the end of the script with the alerts it showed. */
  datatype RunEnd = SidebarReran | ProcessedReran | AnsweredReran | Finished(alerts: seq<Alert>)

  /**
   * The processing part of `main`: the reprocessing decision, then either the key warning or
   * `handle_document_processing`. `reran` says that processing succeeded and the script reran.
   */
  method ProcessIfWanted(
    session: SessionState, settings: Sidebar.Settings, input: RunInput, lib: RagCore.Library)
    returns (reran: bool, alerts: seq<Alert>)
    requires WellTyped(session.vars) && Initialized(session.vars)
    modifies session
    ensures WellTyped(session.vars) && Initialized(session.vars)
    ensures TriggerReprocess !in session.vars
    ensures reran ==>
              && settings.apiKey != ""
              && ProcessingWanted(old(session.vars), input.uploaded)
              && Get(session.vars, RagChain, Null).Chain?
              && Get(session.vars, UploadedFileName, Null).Str?
              && Get(session.vars, Messages, Null) == Msgs([ReadyMessage(Get(session.vars, UploadedFileName, Null).s)])
    ensures !ProcessingWanted(old(session.vars), input.uploaded) ==>
              && !reran && alerts == []
              && Get(session.vars, RagChain, Null) == Get(old(session.vars), RagChain, Null)
              && Get(session.vars, UploadedFileName, Null) == Get(old(session.vars), UploadedFileName, Null)
    ensures ProcessingWanted(old(session.vars), input.uploaded) && settings.apiKey == "" ==>
              && !reran && alerts == [MissingApiKey]
              && Get(session.vars, RagChain, Null) == Get(old(session.vars), RagChain, Null)
              && Get(session.vars, UploadedFileName, Null) == Get(old(session.vars), UploadedFileName, Null)
    ensures ProcessingWanted(old(session.vars), input.uploaded) && settings.apiKey != "" ==>
              reran || (|alerts| == 1 && alerts[0].ProcessingError? && session.vars[RagChain].Null?)
  {
    ghost var chain0 := Get(session.vars, RagChain, Null);
    ghost var name0 := Get(session.vars, UploadedFileName, Null);
    var fileToProcess := TakeProcessingDecision(session, input.uploaded);
    assert Get(session.vars, RagChain, Null) == chain0 && Get(session.vars, UploadedFileName, Null) == name0;
    reran, alerts := false, [];
    if fileToProcess.Some? {
      if settings.apiKey == "" {
        alerts := [MissingApiKey];
      } else {
        var outcome := HandleDocumentProcessing(
          session, fileToProcess.value, settings.apiKey, settings.mode,
          settings.chunkSize, settings.chunkOverlap, input.tmpName, lib);
        if outcome == ProcessedAndReran {
          reran := true;
        } else {
          alerts := [ProcessingError(outcome.error)];
        }
      }
    }
  }

  /**
   * `main` after the sidebar returned: decide on processing, process (or warn about the key),
   * then answer the chat input if there is one.
   */
  method RunAfterSidebar(
    session: SessionState, settings: Sidebar.Settings, input: RunInput, lib: RagCore.Library,
    invoke: (RagCore.RagChain, string, seq<Turn>) -> Result<ChainResponse, string>) returns (end: RunEnd)
    requires WellTyped(session.vars) && Initialized(session.vars)
    modifies session
    ensures WellTyped(session.vars)
    ensures end != SidebarReran
    ensures TriggerReprocess !in session.vars
    ensures end == ProcessedReran ==>
              && settings.apiKey != ""
              && ProcessingWanted(old(session.vars), input.uploaded)
              && Get(session.vars, RagChain, Null).Chain?
              && Get(session.vars, UploadedFileName, Null).Str?
              && Get(session.vars, Messages, Null) == Msgs([ReadyMessage(Get(session.vars, UploadedFileName, Null).s)])
    ensures end.Finished? && MissingApiKey in end.alerts ==>
              && ProcessingWanted(old(session.vars), input.uploaded)
              && Get(session.vars, RagChain, Null) == Get(old(session.vars), RagChain, Null)
              && Get(session.vars, UploadedFileName, Null) == Get(old(session.vars), UploadedFileName, Null)
    ensures !ProcessingWanted(old(session.vars), input.uploaded) ==>
              && Get(session.vars, RagChain, Null) == Get(old(session.vars), RagChain, Null)
              && Get(session.vars, UploadedFileName, Null) == Get(old(session.vars), UploadedFileName, Null)
    ensures ProcessingWanted(old(session.vars), input.uploaded) && settings.apiKey != "" ==>
              end == ProcessedReran || (end.Finished? && |end.alerts| > 0 && end.alerts[0].ProcessingError?)
    ensures ProcessingWanted(old(session.vars), input.uploaded) && settings.apiKey == "" ==>
              end.Finished? ==> |end.alerts| > 0 && end.alerts[0] == MissingApiKey
    ensures end == AnsweredReran ==>
              && input.prompt.Some?
              && Get(session.vars, Messages, Null).Msgs?
              && var ms := Get(session.vars, Messages, Null).ms;
                 && |ms| >= 2
                 && ms[|ms| - 2] == Message(User, input.prompt.value, None)
                 && ms[|ms| - 1].role == Assistant
  {
    var reran, alerts := ProcessIfWanted(session, settings, input, lib);
    if reran {
      return ProcessedReran;
    }
    ghost var alerts0 := alerts;
    if input.prompt.Some? && input.prompt.value != "" {
      ghost var before := session.vars;
      var asked := AskQuestion(session, input.prompt.value, invoke);
      assert Get(session.vars, RagChain, Null) == Get(before, RagChain, Null);
      assert Get(session.vars, UploadedFileName, Null) == Get(before, UploadedFileName, Null);
      match asked
      case AnsweredAndReran =>
        ghost var ms := Get(session.vars, Messages, Null).ms;
        assert |ms| >= 2 && ms[|ms| - 2] == Message(User, input.prompt.value, None);
        return AnsweredReran;
      case NotReady =>
        alerts := alerts + [NoChainYet];
      case AnswerFailed(e) =>
        alerts := alerts + [AnswerError(e)];
    }
    assert |alerts0| > 0 ==> |alerts| > 0 && alerts[0] == alerts0[0];
    end := Finished(alerts);
  }

  /**
   * The start of `main`: the defaults, then the sidebar. Either way, the chain and the stored
   * name are as the defaults left them. When the sidebar returns, every key the rest of `main`
   * reads is present, the key is the one typed, and processing is wanted exactly as it was after
   * the defaults.
   */
  method StartRun(session: SessionState, input: RunInput) returns (sidebar: Sidebar.SidebarResult)
    requires WellTyped(session.vars)
    requires Sidebar.SlidersInRange(input.sidebar)
    modifies session
    ensures WellTyped(session.vars)
    ensures Get(session.vars, RagChain, Null) == Get(WithDefaults(old(session.vars), Defaults), RagChain, Null)
    ensures Get(session.vars, UploadedFileName, Null) ==
            Get(WithDefaults(old(session.vars), Defaults), UploadedFileName, Null)
    ensures sidebar.Returned? ==>
              && Initialized(session.vars)
              && sidebar.settings.apiKey == input.sidebar.apiKeyText
              && ProcessingWanted(session.vars, input.uploaded) ==
                 ProcessingWanted(WithDefaults(old(session.vars), Defaults), input.uploaded)
  {
    InitializeSessionState(session);
    ghost var initial := session.vars;
    sidebar := Sidebar.ShowSidebar(session, input.sidebar);
    assert forall k :: k in {RagChain, UploadedFileName} ==> Get(session.vars, k, Null) == Get(initial, k, Null);
    if sidebar.Returned? {
      assert Initialized(session.vars);
      assert forall k :: k in {UploadedFileObj, TriggerReprocess} ==>
               Get(session.vars, k, Null) == Get(initial, k, Null);
      assert ProcessingWanted(session.vars, input.uploaded) == ProcessingWanted(initial, input.uploaded);
    }
  }

  /**
   * `main`. Every run that gets past the sidebar consumes the reprocess flag; processing happens
   * only when it is wanted and the key is non-empty; a missing key only warns.
   */
  method Run(
    session: SessionState, input: RunInput, lib: RagCore.Library,
    invoke: (RagCore.RagChain, string, seq<Turn>) -> Result<ChainResponse, string>) returns (end: RunEnd)
    requires WellTyped(session.vars)
    requires Sidebar.SlidersInRange(input.sidebar)
    modifies session
    ensures WellTyped(session.vars)
    ensures end != SidebarReran ==> TriggerReprocess !in session.vars
    ensures end == ProcessedReran ==>
              && input.sidebar.apiKeyText != ""
              && ProcessingWanted(WithDefaults(old(session.vars), Defaults), input.uploaded)
              && Get(session.vars, RagChain, Null).Chain?
    ensures end.Finished? && MissingApiKey in end.alerts ==>
              && Get(session.vars, RagChain, Null) == Get(WithDefaults(old(session.vars), Defaults), RagChain, Null)
              && Get(session.vars, UploadedFileName, Null) == Get(WithDefaults(old(session.vars), Defaults), UploadedFileName, Null)
    ensures !ProcessingWanted(WithDefaults(old(session.vars), Defaults), input.uploaded) ==>
              && Get(session.vars, RagChain, Null) == Get(WithDefaults(old(session.vars), Defaults), RagChain, Null)
              && Get(session.vars, UploadedFileName, Null) == Get(WithDefaults(old(session.vars), Defaults), UploadedFileName, Null)
    ensures ProcessingWanted(WithDefaults(old(session.vars), Defaults), input.uploaded) && input.sidebar.apiKeyText != "" ==>
              || end == SidebarReran
              || end == ProcessedReran
              || (end.Finished? && |end.alerts| > 0 && end.alerts[0].ProcessingError?)
    ensures end == AnsweredReran ==>
              && input.prompt.Some?
              && Get(session.vars, Messages, Null).Msgs?
              && var ms := Get(session.vars, Messages, Null).ms;
                 && |ms| >= 2
                 && ms[|ms| - 2] == Message(User, input.prompt.value, None)
                 && ms[|ms| - 1].role == Assistant
  {
    var sidebar := StartRun(session, input);
    if sidebar.Reran? {
      return SidebarReran;
    }
    end := RunAfterSidebar(session, sidebar.settings, input, lib, invoke);
  }
}
