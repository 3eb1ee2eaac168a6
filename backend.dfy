/**
 * The FastAPI back end (`backend/app.py`): three module-level caches keyed by the uploaded file's
 * name, and the handlers that fill and read them. The chains are the values `RagCore` builds;
 * running them (`ainvoke`, `astream`) and the PII redaction are library calls, passed in as
 * functions.
 */
module Backend {
  import opened Common
  import opened Chat
  import opened RagCore

  /** The `Invoice` schema of backend/schemas.py: four optional fields. */
  datatype Invoice = Invoice(
    invoiceId: Option<string>, vendorName: Option<string>,
    invoiceDate: Option<string>, totalAmount: Option<real>)

  /** What an empty `{}` answer validates to: every field absent. */
  const EmptyInvoice: Invoice := Invoice(None, None, None, None)

  /** An `HTTPException`: status code and detail. */
  datatype HttpError = HttpError(status: int, detail: string)

  /** The body of `/stream_chat` (`QueryRequest`). */
  datatype QueryRequest = QueryRequest(
    inputText: string, chatHistory: Option<seq<Message>>, uploadedFileName: string,
    mode: string, manualChunkSize: int, manualChunkOverlap: int)

  /** The body of `/extract_data` (`ExtractionRequest`). */
  datatype ExtractionRequest = ExtractionRequest(inputText: string, uploadedFileName: string)

  /** One dict produced by `rag_chain.astream(...)`: it may carry an "answer" and a "context". */
  datatype StreamPart = StreamPart(answer: Option<string>, context: Option<seq<Doc>>)

  const DocumentNotFound: string := "Document not found. Please upload the document first."
  const ExtractionChainNotFound: string := "Extraction chain not found for this document."

  /**
   * The detail of the upload's 500 response when the key is missing: the `HTTPException` raised
   * inside the `try` is caught by `except Exception` and re-raised with `str(e)` as detail.
   */
  const ApiKeyMissing: string := "500: GOOGLE_API_KEY not set"

  function UploadSucceeded(fileName: string): string {
    "Document '" + fileName + "' processed and ready."
  }

  // ---------------------------------------------------------------------------
  // format_chat_history
  // ---------------------------------------------------------------------------

  /**
   * `format_chat_history`: user messages become human turns, assistant messages AI turns, other
   * roles are skipped. `Chat.ChatTurnsExactly` states what `ChatTurns` keeps.
   */
  method FormatChatHistory(messages: seq<Message>) returns (history: seq<Turn>)
    ensures history == ChatTurns(messages)
    ensures |history| == ConversationalCount(messages)
  {
    history := [];
    var i := 0;
    while i < |messages|
      invariant 0 <= i <= |messages|
      invariant history == ChatTurns(messages[..i])
    {
      var msg := messages[i];
      assert messages[..i + 1][..i] == messages[..i];
      if msg.role == User {
        history := history + [Human(msg.content)];
      } else if msg.role == Assistant {
        history := history + [Ai(msg.content)];
      }
      i := i + 1;
    }
    assert messages[..|messages|] == messages;
    ChatTurnsExactly(messages);
  }

  // ---------------------------------------------------------------------------
  // What a stream yields and what it leaves in the context cache
  // ---------------------------------------------------------------------------

  /** The answer fragments of `parts`, in the order they arrive. */
  function Answers(parts: seq<StreamPart>): seq<string>
    decreases |parts|
  {
    if parts == [] then []
    else
      var last := parts[|parts| - 1];
      Answers(parts[..|parts| - 1]) + (if last.answer.Some? then [last.answer.value] else [])
  }

  /** The last context carried by `parts`, if any. */
  function LastContext(parts: seq<StreamPart>): Option<seq<Doc>>
    decreases |parts|
  {
    if parts == [] then None
    else if parts[|parts| - 1].context.Some? then parts[|parts| - 1].context
    else LastContext(parts[..|parts| - 1])
  }

  /** Fragments are forwarded in order: the fragments of a longer stream extend those of its prefix. */
  lemma {:induction false} AnswersAppend(a: seq<StreamPart>, b: seq<StreamPart>)
    ensures Answers(a + b) == Answers(a) + Answers(b)
    decreases |b|
  {
    if b == [] {
      assert a + b == a;
    } else {
      assert (a + b)[..|a + b| - 1] == a + b[..|b| - 1];
      AnswersAppend(a, b[..|b| - 1]);
    }
  }

  /**
   * `LastContext` is the context of the last part that carries one: it is absent exactly when no
   * part carries a context, and otherwise some part carries it and no later part carries any.
   */
  lemma {:induction false} LastContextIsLast(parts: seq<StreamPart>)
    ensures LastContext(parts).None? <==> forall i :: 0 <= i < |parts| ==> parts[i].context.None?
    ensures LastContext(parts).Some? ==>
              exists i :: 0 <= i < |parts| && parts[i].context == LastContext(parts) &&
                          forall j :: i < j < |parts| ==> parts[j].context.None?
    decreases |parts|
  {
    if parts != [] {
      var n := |parts| - 1;
      var p := parts[..n];
      LastContextIsLast(p);
      if parts[n].context.Some? {
        assert parts[n].context == LastContext(parts);
      } else if LastContext(p).Some? {
        var i :| 0 <= i < |p| && p[i].context == LastContext(p) &&
                 forall j :: i < j < |p| ==> p[j].context.None?;
        assert parts[i] == p[i];
        assert forall j :: i < j < |parts| ==> parts[j].context.None? by {
          forall j | i < j < |parts| ensures parts[j].context.None? {
            if j < n { assert parts[j] == p[j]; }
          }
        }
      } else {
        assert forall i :: 0 <= i < |parts| ==> parts[i].context.None? by {
          forall i | 0 <= i < |parts| ensures parts[i].context.None? {
            if i < n { assert parts[i] == p[i]; }
          }
        }
      }
    }
  }

  /** The history passed to the chain: `format_chat_history(h) if h else []`. */
  function HistoryOf(request: QueryRequest): seq<Turn> {
    if request.chatHistory.Some? && request.chatHistory.value != [] then ChatTurns(request.chatHistory.value)
    else []
  }

  /**
   * The parts the generator consumes: none when redaction raises (the `except` ends the stream),
   * otherwise what `astream` delivers before it finishes or raises.
   */
  function StreamedParts(
    request: QueryRequest, chain: RagChain,
    redact: string -> Result<string, string>,
    astream: (RagChain, string, seq<Turn>) -> seq<StreamPart>): seq<StreamPart>
  {
    match redact(request.inputText)
    case Err(_) => []
    case Ok(redacted) => astream(chain, redacted, HistoryOf(request))
  }

  // ---------------------------------------------------------------------------
  // The upload's builds, before anything is cached
  // ---------------------------------------------------------------------------

  /**
   * Everything `upload_document` computes before touching a cache: load the temporary copy,
   * choose the chunking, check the API key, build the conversational chain, then the extraction
   * chain. The first failure is the error reported.
   */
  function BuildChains(
    file: UploadedFile, mode: string, manualChunkSize: int, manualChunkOverlap: int,
    apiKey: Option<string>, tmpName: string, lib: Library): (r: Result<(RagChain, ExtractionChain), string>)
    ensures LoadDocument(TempPath(tmpName, file.name), file.data, lib).Err? ==>
              r == Err(LoadDocument(TempPath(tmpName, file.name), file.data, lib).error)
    ensures (LoadDocument(TempPath(tmpName, file.name), file.data, lib).Ok? &&
             (apiKey.None? || apiKey.value == "")) ==> r == Err(ApiKeyMissing)
    ensures r.Ok? ==>
              var docs := LoadDocument(TempPath(tmpName, file.name), file.data, lib).value;
              var settings := ChooseChunking(mode, docs, manualChunkSize, manualChunkOverlap);
              && apiKey.Some? && apiKey.value != ""
              && CreateConversationalRagChain(docs, apiKey.value, settings.0, settings.1, lib) == Ok(r.value.0)
              && CreateStructuredExtractionChain(docs, apiKey.value, lib) == Ok(r.value.1)
    ensures LoadDocument(TempPath(tmpName, file.name), file.data, lib).Ok? && apiKey.Some? && apiKey.value != "" ==>
              var docs := LoadDocument(TempPath(tmpName, file.name), file.data, lib).value;
              var settings := ChooseChunking(mode, docs, manualChunkSize, manualChunkOverlap);
              var conversational := CreateConversationalRagChain(docs, apiKey.value, settings.0, settings.1, lib);
              var extraction := CreateStructuredExtractionChain(docs, apiKey.value, lib);
              && (conversational.Err? ==> r == Err(conversational.error))
              && (conversational.Ok? && extraction.Err? ==> r == Err(extraction.error))
              && (conversational.Ok? && extraction.Ok? ==> r.Ok?)
  {
    match LoadDocument(TempPath(tmpName, file.name), file.data, lib)
    case Err(e) => Err(e)
    case Ok(docs) =>
      var settings := ChooseChunking(mode, docs, manualChunkSize, manualChunkOverlap);
      if apiKey.None? || apiKey.value == "" then Err(ApiKeyMissing)
      else
        match CreateConversationalRagChain(docs, apiKey.value, settings.0, settings.1, lib)
        case Err(e) => Err(e)
        case Ok(ragChain) =>
          match CreateStructuredExtractionChain(docs, apiKey.value, lib)
          case Err(e) => Err(e)
          case Ok(extractionChain) => Ok((ragChain, extractionChain))
  }

  /**
   * An upload with an unsupported extension fails whatever the settings, the key and the
   * libraries, with the loader's `ValueError`.
   */
  lemma UnsupportedUploadFails(
    file: UploadedFile, mode: string, size: int, overlap: int,
    apiKey: Option<string>, tmpName: string, lib: Library)
    requires TempNameOk(tmpName)
    requires SelectLoader(Extension(file.name)).Err?
    ensures BuildChains(file, mode, size, overlap, apiKey, tmpName, lib) ==
            Err(SelectLoader(Extension(file.name)).error)
  {
    TempPathKeepsExtension(tmpName, file.name);
  }

  /** A successful build yields non-empty chains with the fixed retrieval parameters. */
  lemma BuiltChainsShape(
    file: UploadedFile, mode: string, size: int, overlap: int,
    apiKey: Option<string>, tmpName: string, lib: Library)
    requires BuildChains(file, mode, size, overlap, apiKey, tmpName, lib).Ok?
    ensures var (rag, extraction) := BuildChains(file, mode, size, overlap, apiKey, tmpName, lib).value;
            && rag.chunks != [] && rag.bm25K == 4 && rag.faissK == 4
            && rag.bm25Weight == 0.5 && rag.faissWeight == 0.5
            && extraction.chunks != [] && extraction.k == 5
  {
  }

  /**
   * The extraction chain ignores the upload's chunk settings: two uploads of the same file that
   * differ only in mode and manual sizes store the same extraction chain, split at (1000, 200).
   */
  lemma ExtractionIgnoresChunkSettings(
    file: UploadedFile, mode1: string, size1: int, overlap1: int,
    mode2: string, size2: int, overlap2: int,
    apiKey: Option<string>, tmpName: string, lib: Library)
    requires BuildChains(file, mode1, size1, overlap1, apiKey, tmpName, lib).Ok?
    requires BuildChains(file, mode2, size2, overlap2, apiKey, tmpName, lib).Ok?
    ensures BuildChains(file, mode1, size1, overlap1, apiKey, tmpName, lib).value.1 ==
            BuildChains(file, mode2, size2, overlap2, apiKey, tmpName, lib).value.1
    ensures var docs := LoadDocument(TempPath(tmpName, file.name), file.data, lib).value;
            lib.split(docs, 1000, 200) == Ok(BuildChains(file, mode1, size1, overlap1, apiKey, tmpName, lib).value.1.chunks)
  {
  }

  // ---------------------------------------------------------------------------
  // The caches and the handlers
  // ---------------------------------------------------------------------------

  /** `rag_chain_cache`, `extraction_chain_cache` and `context_cache`. */
  class DocumentCaches {
    var ragChains: map<string, RagChain>
    var extractionChains: map<string, ExtractionChain>
    var contexts: map<string, seq<Doc>>

    constructor ()
      ensures ragChains == map[] && extractionChains == map[] && contexts == map[]
    {
      ragChains := map[];
      extractionChains := map[];
      contexts := map[];
    }

    /**
     * `upload_document`: both chains are stored under the file's name only after both were
     * built, replacing whatever was stored there; on any failure no cache changes. The context
     * cache is never touched.
     */
    method Upload(
      file: UploadedFile, mode: string, manualChunkSize: int, manualChunkOverlap: int,
      apiKey: Option<string>, tmpName: string, lib: Library) returns (reply: Result<string, HttpError>)
      modifies this
      ensures contexts == old(contexts)
      ensures var built := BuildChains(file, mode, manualChunkSize, manualChunkOverlap, apiKey, tmpName, lib);
              if built.Ok? then
                && ragChains == old(ragChains)[file.name := built.value.0]
                && extractionChains == old(extractionChains)[file.name := built.value.1]
                && reply == Ok(UploadSucceeded(file.name))
              else
                && ragChains == old(ragChains)
                && extractionChains == old(extractionChains)
                && reply == Err(HttpError(500, built.error))
    {
      var loaded := LoadDocument(TempPath(tmpName, file.name), file.data, lib);
      if loaded.Err? {
        return Err(HttpError(500, loaded.error));
      }
      var documents := loaded.value;
      var settings := ChooseChunking(mode, documents, manualChunkSize, manualChunkOverlap);
      if apiKey.None? || apiKey.value == "" {
        return Err(HttpError(500, ApiKeyMissing));
      }
      var ragChain := CreateConversationalRagChain(documents, apiKey.value, settings.0, settings.1, lib);
      if ragChain.Err? {
        return Err(HttpError(500, ragChain.error));
      }
      var extractionChain := CreateStructuredExtractionChain(documents, apiKey.value, lib);
      if extractionChain.Err? {
        return Err(HttpError(500, extractionChain.error));
      }
      ragChains := ragChains[file.name := ragChain.value];
      extractionChains := extractionChains[file.name := extractionChain.value];
      reply := Ok(UploadSucceeded(file.name));
    }

    /**
     * `extract_data`: 404 for a name with no extraction chain; otherwise the chain's "answer"
     * (an empty answer validates to the all-absent invoice), or 500 when the chain raises.
     */
    method ExtractData(
      request: ExtractionRequest,
      invoke: (ExtractionChain, string) -> Result<Option<Invoice>, string>) returns (r: Result<Invoice, HttpError>)
      ensures request.uploadedFileName !in extractionChains ==> r == Err(HttpError(404, ExtractionChainNotFound))
      ensures request.uploadedFileName in extractionChains ==>
                match invoke(extractionChains[request.uploadedFileName], request.inputText)
                case Err(e) => r == Err(HttpError(500, e))
                case Ok(answer) => r == Ok(answer.GetOr(EmptyInvoice))
    {
      var cacheKey := request.uploadedFileName;
      if cacheKey !in extractionChains {
        return Err(HttpError(404, ExtractionChainNotFound));
      }
      var extractionChain := extractionChains[cacheKey];
      var response := invoke(extractionChain, request.inputText);
      if response.Err? {
        return Err(HttpError(500, response.error));
      }
      r := Ok(response.value.GetOr(EmptyInvoice));
    }

    /**
     * `stream_chat` together with the `stream_generator` it returns: 404 and no change for an
     * unknown name; otherwise the answer fragments in arrival order, with the context cache
     * holding the last context seen (and unchanged when the stream carried none).
     */
    method StreamChat(
      request: QueryRequest,
      redact: string -> Result<string, string>,
      astream: (RagChain, string, seq<Turn>) -> seq<StreamPart>) returns (r: Result<seq<string>, HttpError>)
      modifies this
      ensures ragChains == old(ragChains) && extractionChains == old(extractionChains)
      ensures request.uploadedFileName !in old(ragChains) ==>
                r == Err(HttpError(404, DocumentNotFound)) && contexts == old(contexts)
      ensures request.uploadedFileName in old(ragChains) ==>
                var parts := StreamedParts(request, old(ragChains)[request.uploadedFileName], redact, astream);
                && r == Ok(Answers(parts))
                && contexts == match LastContext(parts)
                               case None => old(contexts)
                               case Some(c) => old(contexts)[request.uploadedFileName := c]
    {
      var cacheKey := request.uploadedFileName;
      if cacheKey !in ragChains {
        return Err(HttpError(404, DocumentNotFound));
      }
      var fragments := StreamGenerator(cacheKey, request, redact, astream);
      r := Ok(fragments);
    }

    /**
     * `stream_generator`: a redaction error ends the stream quietly before it starts; a chain
     * error ends it quietly too, and `astream` then returns the parts yielded before it.
     */
    method StreamGenerator(
      cacheKey: string, request: QueryRequest,
      redact: string -> Result<string, string>,
      astream: (RagChain, string, seq<Turn>) -> seq<StreamPart>) returns (fragments: seq<string>)
      modifies this
      ensures ragChains == old(ragChains) && extractionChains == old(extractionChains)
      ensures cacheKey !in ragChains ==> fragments == [] && contexts == old(contexts)
      ensures cacheKey in ragChains ==>
                var parts := StreamedParts(request, ragChains[cacheKey], redact, astream);
                && fragments == Answers(parts)
                && contexts == match LastContext(parts)
                               case None => old(contexts)
                               case Some(c) => old(contexts)[cacheKey := c]
    {
      fragments := [];
      var redacted := redact(request.inputText);
      if redacted.Err? || cacheKey !in ragChains {
        return;
      }
      var ragChain := ragChains[cacheKey];
      var chatHistory: seq<Turn> := [];
      if request.chatHistory.Some? && request.chatHistory.value != [] {
        chatHistory := FormatChatHistory(request.chatHistory.value);
      }
      var parts := astream(ragChain, redacted.value, chatHistory);
      var i := 0;
      while i < |parts|
        invariant 0 <= i <= |parts|
        invariant ragChains == old(ragChains) && extractionChains == old(extractionChains)
        invariant fragments == Answers(parts[..i])
        invariant contexts == match LastContext(parts[..i])
                              case None => old(contexts)
                              case Some(c) => old(contexts)[cacheKey := c]
      {
        assert parts[..i + 1][..i] == parts[..i];
        if parts[i].answer.Some? {
          fragments := fragments + [parts[i].answer.value];
        }
        if parts[i].context.Some? {
          contexts := contexts[cacheKey := parts[i].context.value];
        }
        i := i + 1;
      }
      assert parts[..|parts|] == parts;
    }

    /** `get_sources`: the cached sources of the last stream for that name, in order, or []. */
    function GetSources(fileName: string): (r: seq<Doc>)
      reads this
      ensures fileName !in contexts ==> r == []
      ensures fileName in contexts ==> r == contexts[fileName]
    {
      if fileName in contexts then contexts[fileName] else []
    }
  }

  /**
   * A re-upload does not reset the sources: after a stream that carried a context, uploading
   * the same name again (successfully or not) leaves `get_sources` returning the old context.
   */
  method SourcesSurviveReupload(
    caches: DocumentCaches, request: QueryRequest,
    redact: string -> Result<string, string>,
    astream: (RagChain, string, seq<Turn>) -> seq<StreamPart>,
    file: UploadedFile, apiKey: Option<string>, tmpName: string, lib: Library) returns (sources: seq<Doc>)
    requires request.uploadedFileName == file.name
    requires file.name in caches.ragChains
    modifies caches
    ensures var parts := StreamedParts(request, old(caches.ragChains)[file.name], redact, astream);
            LastContext(parts).Some? ==> sources == LastContext(parts).value
  {
    var streamed := caches.StreamChat(request, redact, astream);
    var reply := caches.Upload(file, "Automatic", 1000, 200, apiKey, tmpName, lib);
    sources := caches.GetSources(file.name);
  }
}
