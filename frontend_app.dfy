/**
 * `frontend/app.py`, the Streamlit client of the back end. It posts the document and the questions
 * over HTTP; the replies are inputs here. One call of `Run` is one run of the script; `st.rerun()`
 * ends the run.
 */
module FrontendApp {
  import opened Common
  import opened Chat
  import opened Session
  import FrontendSidebar

  /** The defaults of `initialize_session_state`, in their order. */
  const Defaults: seq<(Key, Value)> := [
    (Messages, Msgs([Greeting])),
    (DocumentProcessed, Bool(false)),
    (UploadedFileName, Null),
    (UploadedFileObj, Null)
  ]

  const NotProcessedWarning: string := "Please upload and process a document first."

  lemma DefaultsWellFormed()
    ensures DistinctKeys(Defaults)
    ensures forall i :: 0 <= i < |Defaults| ==> KindOk(Defaults[i].0, Defaults[i].1)
    ensures KeysOf(Defaults) == {Messages, DocumentProcessed, UploadedFileName, UploadedFileObj}
  {
    assert Defaults[0].0 == Messages && Defaults[1].0 == DocumentProcessed;
    assert Defaults[2].0 == UploadedFileName && Defaults[3].0 == UploadedFileObj;
  }

  /** Every key `main` reads by attribute is present. */
  predicate Initialized(vars: map<Key, Value>) {
    Messages in vars && DocumentProcessed in vars && UploadedFileName in vars && UploadedFileObj in vars
  }

  /**
   * `initialize_session_state`: only missing keys are set, existing values are kept, and every
   * default key is present afterwards.
   */
  method InitializeSessionState(session: SessionState)
    requires WellTyped(session.vars)
    modifies session
    ensures session.vars == WithDefaults(old(session.vars), Defaults)
    ensures WellTyped(session.vars)
    ensures Initialized(session.vars)
    ensures forall k :: k in old(session.vars) ==> k in session.vars && session.vars[k] == old(session.vars)[k]
    ensures forall k :: k in {UploadedFileName, UploadedFileObj, TriggerReprocess} ==>
              Get(session.vars, k, Null) == Get(old(session.vars), k, Null)
    ensures TriggerReprocess in session.vars <==> TriggerReprocess in old(session.vars)
  {
    session.InitializeDefaults(Defaults);
    DefaultsWellFormed();
    WithDefaultsWellTyped(old(session.vars), Defaults);
    WithDefaultsKeys(old(session.vars), Defaults);
    WithDefaultsKeepsExisting(old(session.vars), Defaults);
    WithDefaultsFillsMissing(old(session.vars), Defaults);
    assert Defaults[2] == (UploadedFileName, Null) && Defaults[3] == (UploadedFileObj, Null);
  }

  // ---------------------------------------------------------------------------
  // Source previews under an answer
  // ---------------------------------------------------------------------------

  /** `doc.get("metadata", {}).get("page", "N/A")`, as shown. */
  function PageLabel(doc: Doc): (s: string)
    ensures "page" !in doc.metadata ==> s == "N/A"
    ensures "page" in doc.metadata ==> s == MetaToString(doc.metadata["page"])
  {
    if "page" in doc.metadata then MetaToString(doc.metadata["page"]) else "N/A"
  }

  /** `s[:300]`: a prefix of at most 300 characters, the whole text when it is short enough. */
  function ContentPreview(s: string): (r: string)
    ensures |r| <= 300 && |r| <= |s|
    ensures r == s[..|r|]
    ensures |s| <= 300 ==> r == s
    ensures |s| > 300 ==> |r| == 300
  {
    if |s| <= 300 then s else s[..300]
  }

  /** The text of the i-th (0-based) source box. */
  function SourcePreview(i: nat, doc: Doc): string {
    "Source " + NatToString(i + 1) + " (Page " + PageLabel(doc) + "):\n\n" + ContentPreview(doc.pageContent) + "..."
  }

  /** The preview shows at most 300 characters of the content, between the fixed label and "...". */
  lemma SourcePreviewShape(i: nat, doc: Doc)
    ensures var heading := "Source " + NatToString(i + 1) + " (Page " + PageLabel(doc) + "):\n\n";
            var p := SourcePreview(i, doc);
            && |p| <= |heading| + 300 + 3
            && p[..|heading|] == heading
            && p[|p| - 3..] == "..."
            && p[|heading|..|p| - 3] == ContentPreview(doc.pageContent)
  {
  }

  // ---------------------------------------------------------------------------
  // handle_document_upload
  // ---------------------------------------------------------------------------

  /** The multipart form posted to `/upload`. */
  datatype UploadForm = UploadForm(
    fileName: string, data: seq<bv8>, mode: string, manualChunkSize: int, manualChunkOverlap: int)

  /** Why a request failed: a `requests` exception (connection or bad status) or any other. */
  datatype Failure = RequestFailed(message: string) | OtherFailure(message: string)

  datatype UploadOutcome = UploadedAndReran | UploadFailed(error: string)

  function UploadErrorText(f: Failure): string {
    match f
    case RequestFailed(m) => "Failed to connect to backend: " + m
    case OtherFailure(m) => "Failed to process document: " + m
  }

  /**
   * `handle_document_upload`: success marks the document processed, records its name and leaves
   * exactly one assistant message, then reruns; failure only marks it not processed.
   */
  method HandleDocumentUpload(
    session: SessionState, file: UploadedFile, mode: string, manualChunkSize: int, manualChunkOverlap: int,
    post: UploadForm -> Result<(), Failure>) returns (outcome: UploadOutcome)
    requires WellTyped(session.vars)
    modifies session
    ensures WellTyped(session.vars)
    ensures var reply := post(UploadForm(file.name, file.data, mode, manualChunkSize, manualChunkOverlap));
            if reply.Ok? then
              && outcome == UploadedAndReran
              && session.vars == old(session.vars)[DocumentProcessed := Bool(true)]
                                                  [UploadedFileName := Str(file.name)]
                                                  [Messages := Msgs([ReadyMessage(file.name)])]
            else
              && outcome == UploadFailed(UploadErrorText(reply.error))
              && session.vars == old(session.vars)[DocumentProcessed := Bool(false)]
    ensures post(UploadForm(file.name, file.data, mode, manualChunkSize, manualChunkOverlap)).Err? ==>
              && Get(session.vars, UploadedFileName, Null) == Get(old(session.vars), UploadedFileName, Null)
              && Get(session.vars, Messages, Null) == Get(old(session.vars), Messages, Null)
              && Get(session.vars, DocumentProcessed, Null) == Bool(false)
  {
    var response := post(UploadForm(file.name, file.data, mode, manualChunkSize, manualChunkOverlap));
    if response.Err? {
      session.Set(DocumentProcessed, Bool(false));
      return UploadFailed(UploadErrorText(response.error));
    }
    session.Set(DocumentProcessed, Bool(true));
    session.Set(UploadedFileName, Str(file.name));
    session.Set(Messages, Msgs([ReadyMessage(file.name)]));
    outcome := UploadedAndReran;
  }

  // ---------------------------------------------------------------------------
  // Asking a question
  // ---------------------------------------------------------------------------

  /** The JSON body posted for a question. */
  datatype QueryPayload = QueryPayload(
    inputText: string, chatHistory: seq<Message>, uploadedFileName: Option<string>,
    mode: string, manualChunkSize: int, manualChunkOverlap: int)

  /** The decoded reply: its "answer" and its "sources", if present. */
  datatype BotReply = BotReply(answer: string, sources: Option<seq<Doc>>)

  /** The stored file name as JSON: a string or null. */
  function NameOf(v: Value): Option<string> {
    if v.Str? then Some(v.s) else None
  }

  function AskErrorText(f: Failure): string {
    match f
    case RequestFailed(m) => "Error communicating with backend: " + m
    case OtherFailure(m) => "An unexpected error occurred: " + m
  }

  datatype QuestionOutcome = NotReady | AnsweredAndReran | AnswerFailed(error: string)

  /**
   * The payload sent with a question: the prompt and the history without the prompt just
   * appended, that is, the messages as they were before the question.
   */
  function PayloadFor(
    asked: seq<Message>, prompt: string, fileName: Value, mode: string, size: int, overlap: int): (p: QueryPayload)
    requires asked != []
    ensures p.inputText == prompt
    ensures asked[|asked| - 1] == Message(User, prompt, None) ==>
              p.chatHistory + [Message(User, prompt, None)] == asked
  {
    QueryPayload(prompt, asked[..|asked| - 1], NameOf(fileName), mode, size, overlap)
  }

  /**
   * The chat-input branch of `main`: before any document is processed it only warns. Otherwise
   * the question is appended; on success one assistant message follows (sources default to [])
   * and the script reruns; on failure only the question remains appended.
   */
  method AskQuestion(
    session: SessionState, prompt: string, settings: FrontendSidebar.Settings,
    query: QueryPayload -> Result<BotReply, Failure>) returns (outcome: QuestionOutcome)
    requires WellTyped(session.vars) && Initialized(session.vars)
    modifies session
    ensures WellTyped(session.vars)
    ensures !Truthy(old(session.vars)[DocumentProcessed]) ==> outcome == NotReady && session.vars == old(session.vars)
    ensures Truthy(old(session.vars)[DocumentProcessed]) ==>
              var asked := old(MessagesOf(session.vars)) + [Message(User, prompt, None)];
              var payload := PayloadFor(asked, prompt, old(session.vars)[UploadedFileName],
                                        settings.mode, settings.chunkSize, settings.chunkOverlap);
              && payload.chatHistory == old(MessagesOf(session.vars))
              && match query(payload)
                 case Ok(reply) =>
                   && outcome == AnsweredAndReran
                   && session.vars == old(session.vars)[Messages :=
                        Msgs(asked + [Message(Assistant, reply.answer, Some(reply.sources.GetOr([])))])]
                 case Err(f) =>
                   && outcome == AnswerFailed(AskErrorText(f))
                   && session.vars == old(session.vars)[Messages := Msgs(asked)]
  {
    if !Truthy(session.vars[DocumentProcessed]) {
      return NotReady;
    }
    session.AppendMessage(Message(User, prompt, None));
    var messages := MessagesOf(session.vars);
    var payload := QueryPayload(prompt, messages[..|messages| - 1], NameOf(session.vars[UploadedFileName]),
                                settings.mode, settings.chunkSize, settings.chunkOverlap);
    var response := query(payload);
    if response.Err? {
      return AnswerFailed(AskErrorText(response.error));
    }
    var botResponse := response.value;
    session.AppendMessage(Message(Assistant, botResponse.answer, Some(botResponse.sources.GetOr([]))));
    outcome := AnsweredAndReran;
  }

  // ---------------------------------------------------------------------------
  // main
  // ---------------------------------------------------------------------------

  /** The inputs of one run: the sidebar widgets, the uploader and the chat input. */
  datatype RunInput = RunInput(
    sidebar: FrontendSidebar.SidebarInput, uploaded: Option<UploadedFile>, prompt: Option<string>)

  datatype Alert = UploadError(message: string) | NoDocumentYet | AnswerError(message: string)

  datatype RunEnd = SidebarReran | UploadedReran | AnsweredReran | Finished(alerts: seq<Alert>)

  /** `main` after the sidebar returned. */
  method RunAfterSidebar(
    session: SessionState, settings: FrontendSidebar.Settings, input: RunInput,
    post: UploadForm -> Result<(), Failure>,
    query: QueryPayload -> Result<BotReply, Failure>) returns (end: RunEnd)
    requires WellTyped(session.vars) && Initialized(session.vars)
    modifies session
    ensures WellTyped(session.vars)
    ensures end != SidebarReran
    ensures TriggerReprocess !in session.vars
    ensures end == UploadedReran ==>
              && ProcessingWanted(old(session.vars), input.uploaded)
              && Get(session.vars, DocumentProcessed, Null) == Bool(true)
    ensures ProcessingWanted(old(session.vars), input.uploaded) ==>
              end == UploadedReran || (end.Finished? && |end.alerts| > 0 && end.alerts[0].UploadError?)
    ensures !ProcessingWanted(old(session.vars), input.uploaded) ==>
              && Get(session.vars, DocumentProcessed, Null) == Get(old(session.vars), DocumentProcessed, Null)
              && Get(session.vars, UploadedFileName, Null) == Get(old(session.vars), UploadedFileName, Null)
    ensures !ProcessingWanted(old(session.vars), input.uploaded) ==>
              && end != UploadedReran
              && (end.Finished? ==> forall i :: 0 <= i < |end.alerts| ==> !end.alerts[i].UploadError?)
    ensures end == UploadedReran && input.uploaded.Some? ==>
              Get(session.vars, UploadedFileName, Null) == Str(input.uploaded.value.name)
  {
    ghost var processed0 := Get(session.vars, DocumentProcessed, Null);
    ghost var name0 := Get(session.vars, UploadedFileName, Null);
    var fileToProcess := TakeProcessingDecision(session, input.uploaded);
    assert Get(session.vars, DocumentProcessed, Null) == processed0 && Get(session.vars, UploadedFileName, Null) == name0;
    var alerts: seq<Alert> := [];
    if fileToProcess.Some? {
      var outcome := HandleDocumentUpload(
        session, fileToProcess.value, settings.mode, settings.chunkSize, settings.chunkOverlap, post);
      if outcome == UploadedAndReran {
        return UploadedReran;
      }
      alerts := [UploadError(outcome.error)];
    }
    ghost var alerts0 := alerts;
    if input.prompt.Some? && input.prompt.value != "" {
      ghost var before := session.vars;
      var asked := AskQuestion(session, input.prompt.value, settings, query);
      assert Get(session.vars, DocumentProcessed, Null) == Get(before, DocumentProcessed, Null);
      assert Get(session.vars, UploadedFileName, Null) == Get(before, UploadedFileName, Null);
      match asked
      case AnsweredAndReran =>
        return AnsweredReran;
      case NotReady =>
        alerts := alerts + [NoDocumentYet];
      case AnswerFailed(e) =>
        alerts := alerts + [AnswerError(e)];
    }
    assert |alerts0| > 0 ==> |alerts| > 0 && alerts[0] == alerts0[0];
    end := Finished(alerts);
  }

  /**
   * The start of `main`: the defaults, then the sidebar. When the sidebar returns, every key the
   * rest of `main` reads is present and processing is wanted exactly as before the run. Either
   * way, the processed flag and the stored name are as the defaults left them.
   */
  method StartRun(session: SessionState, input: RunInput) returns (sidebar: FrontendSidebar.SidebarResult)
    requires WellTyped(session.vars)
    requires FrontendSidebar.SlidersInRange(input.sidebar)
    modifies session
    ensures WellTyped(session.vars)
    ensures Get(session.vars, DocumentProcessed, Null) ==
            Get(WithDefaults(old(session.vars), Defaults), DocumentProcessed, Null)
    ensures Get(session.vars, UploadedFileName, Null) == Get(old(session.vars), UploadedFileName, Null)
    ensures sidebar.Returned? ==>
              && Initialized(session.vars)
              && ProcessingWanted(session.vars, input.uploaded) == ProcessingWanted(old(session.vars), input.uploaded)
  {
    InitializeSessionState(session);
    ghost var initial := session.vars;
    sidebar := FrontendSidebar.ShowSidebar(session, input.sidebar);
    assert forall k :: k in {UploadedFileName, DocumentProcessed} ==>
             Get(session.vars, k, Null) == Get(initial, k, Null);
    if sidebar.Returned? {
      assert Initialized(session.vars);
      assert forall k :: k in {UploadedFileObj, TriggerReprocess} ==>
               Get(session.vars, k, Null) == Get(initial, k, Null);
      assert Get(session.vars, TriggerReprocess, Bool(false)) == Get(old(session.vars), TriggerReprocess, Bool(false));
    }
  }

  /**
   * `main`. Every run that gets past the sidebar consumes the reprocess flag, and an upload is
   * sent exactly when processing is wanted: it then either reruns or reports its error first.
   * Without a reason to process, the processed flag and the stored name stay as initialized.
   */
  method Run(
    session: SessionState, input: RunInput,
    post: UploadForm -> Result<(), Failure>,
    query: QueryPayload -> Result<BotReply, Failure>) returns (end: RunEnd)
    requires WellTyped(session.vars)
    requires FrontendSidebar.SlidersInRange(input.sidebar)
    modifies session
    ensures WellTyped(session.vars)
    ensures end != SidebarReran ==> TriggerReprocess !in session.vars
    ensures end == UploadedReran ==>
              && ProcessingWanted(old(session.vars), input.uploaded)
              && Get(session.vars, DocumentProcessed, Null) == Bool(true)
    ensures ProcessingWanted(old(session.vars), input.uploaded) ==>
              || end == SidebarReran
              || end == UploadedReran
              || (end.Finished? && |end.alerts| > 0 && end.alerts[0].UploadError?)
    ensures !ProcessingWanted(old(session.vars), input.uploaded) ==>
              && Get(session.vars, DocumentProcessed, Null) ==
                 Get(WithDefaults(old(session.vars), Defaults), DocumentProcessed, Null)
              && Get(session.vars, UploadedFileName, Null) == Get(old(session.vars), UploadedFileName, Null)
    ensures !ProcessingWanted(old(session.vars), input.uploaded) ==>
              && end != UploadedReran
              && (end.Finished? ==> forall i :: 0 <= i < |end.alerts| ==> !end.alerts[i].UploadError?)
    ensures end == UploadedReran && input.uploaded.Some? ==>
              Get(session.vars, UploadedFileName, Null) == Str(input.uploaded.value.name)
  {
    var sidebar := StartRun(session, input);
    if sidebar.Reran? {
      return SidebarReran;
    }
    end := RunAfterSidebar(session, sidebar.settings, input, post, query);
  }

  /**
   * One flag, one reprocess. After a run that got past the sidebar, a following run with an empty
   * uploader sends no upload, because the flag is gone (an Apply click reruns from the sidebar
   * first). After a run that uploaded, a following run whose uploader still holds the same file
   * sends no upload either, because that name is now stored.
   */
  method FlagTriggersAtMostOnce(
    session: SessionState, first: RunInput, second: RunInput,
    post: UploadForm -> Result<(), Failure>,
    query: QueryPayload -> Result<BotReply, Failure>) returns (end1: RunEnd, end2: RunEnd)
    requires WellTyped(session.vars)
    requires FrontendSidebar.SlidersInRange(first.sidebar) && FrontendSidebar.SlidersInRange(second.sidebar)
    modifies session
    ensures end1 != SidebarReran && second.uploaded.None? ==> end2 != UploadedReran
    ensures end1 == UploadedReran && second.uploaded == first.uploaded ==> end2 != UploadedReran
  {
    end1 := Run(session, first, post, query);
    end2 := Run(session, second, post, query);
  }
}
