# DocuQuery in Dafny

DocuQuery lets a user upload a PDF, Word or text document and then chat about it. The
repository contains two front ends:

- `app.py`, a single-process Streamlit app that builds the retrieval chain itself;
- `frontend/app.py`, a Streamlit client of the FastAPI back end `backend/app.py`.

Both rely on `backend/logic/rag_core.py` to load a document, choose the chunking and build the
chains. This project models the part of the system that the repository writes itself. Text
splitting, BM25, FAISS, the Gemini models and Presidio are library code; they enter the model as
opaque function values.

Modules:

- `Common` (common.dfy): values shared by every layer. These are Option, Result, the LangChain
  `Document` (`Doc`), uploaded files and Python's `s[1:]`.
- `Chat` (chat.dfy): chat messages and their conversion to LangChain history turns.
- `RagCore` (rag_core.dfy), which models `backend/logic/rag_core.py`:
  - the loader dispatch on the lower-cased extension;
  - `os.path.splitext`;
  - the three-band automatic chunk sizing;
  - the two chain builders with their empty-chunks guard and fixed retrieval parameters.
- `Backend` (backend.dfy), which models `backend/app.py`. The class `DocumentCaches` holds the
  three module-level caches (conversational chains, extraction chains, last sources), and its
  methods are the handlers.
- `Session` (session.dfy): `st.session_state` as the class `SessionState` over a map from keys
  to Python values. It holds the default-filling loop, `pop`, and the reprocessing decision both
  front ends share.
- `Transcript` (transcript.dfy): `get_chat_history_text` and the Clear Chat / Download section.
  Both sidebars contain the same code for these.
- `Sidebar` (sidebar.dfy) and `FrontendSidebar` (frontend_sidebar.dfy): the two `show_sidebar`s.
- `StreamlitApp` (streamlit_app.dfy) and `FrontendApp` (frontend_app.dfy): one run of each
  script's `main`, one call per run. `st.rerun()` ends the run.
- `DataExtraction` (data_extraction.dfy): the guards and the None-filter of
  `show_extraction_ui`.

## Model

| member | source | states |
|---|---|---|
| `RagCore.Extension` | backend/logic/rag_core.py:31 | `os.path.splitext(p)[1]` for POSIX paths: the extension is non-empty exactly when the last '.' comes after the last '/' and some character other than '.' lies between them; it is then the suffix starting at that last '.', with no '/' and no further '.' |
| `RagCore.SelectLoaderCaseInsensitive` | backend/logic/rag_core.py:31-39 | the dispatch only sees the lower-cased extension; ".pdf", ".txt" and ".docx" each select their own loader (both directions), and every other extension, the empty one included, is an error |
| `RagCore.SelectLoaderExamples` | backend/logic/rag_core.py:31-39 | "Report.PDF" loads as PDF and "a.tar.docx" as Word; "README" and the dotfile "d.x/.txt" have no extension and raise "Unsupported file format: " |
| `RagCore.LoadDocument` | backend/logic/rag_core.py:29-40 | an unsupported extension fails with the `ValueError` message, which carries the extension with its ASCII letters lowered; otherwise the selected loader's result is returned |
| `RagCore.TempPathKeepsExtension` | backend/app.py:132-136 | the temporary file keeps the uploaded name's extension as its suffix, so the loader sees the same extension the upload had |
| `RagCore.AutoSelectChunkSize` | backend/logic/rag_core.py:43-52 | every automatic choice has size 500, 1000 or 1500, a positive size, and an overlap of a fifth of it (so 0 <= overlap < size) |
| `RagCore.ChunkSettingsBands` | backend/logic/rag_core.py:47-52 | below 5000 characters (500,100); from 5000 to 49999 (1000,200); from 50000 (1500,300); with the boundary values 4999, 5000, 49999 and 50000 |
| `RagCore.ChunkSettingsMonotone` | backend/logic/rag_core.py:47-52 | a longer text never gets a smaller chunk size or overlap |
| `RagCore.AutoSelectIgnoresPageBreaks` | backend/logic/rag_core.py:45-46 | cutting one page's text into two pages, with any metadata, does not change the choice |
| `RagCore.AutoSelectIgnoresPageOrder` | backend/logic/rag_core.py:45-46 | any permutation of the pages gets the same choice |
| `RagCore.ChooseChunking` | backend/app.py:138-141 | the exact mode "Automatic" gives exactly `AutoSelectChunkSize` of the documents (so a size of 500, 1000 or 1500 with 0 <= overlap < size); any other mode string uses the manual size and overlap as given |
| `RagCore.CreateConversationalRagChain` | backend/logic/rag_core.py:68-133 | fails with the "no chunks" error when splitting yields nothing, and with the splitter's or the embedding's error when those fail; with non-empty chunks it succeeds exactly when the embedding does and returns the embedding's error as is; a built chain has non-empty chunks, k = 4 for both retrievers and weights 0.5/0.5 |
| `RagCore.CreateStructuredExtractionChain` | backend/logic/rag_core.py:136-175 | splits with (1000, 200) whatever the caller's settings; fails the same ways; with non-empty chunks it succeeds exactly when the embedding does and returns the embedding's error as is; a built chain has non-empty chunks and k = 5 |
| `RagCore.NoChunksFailsBeforeIndexing` | backend/logic/rag_core.py:77-78 | when splitting yields no chunks, both builders fail whatever the embedding call would do, so no index is built (the extraction builder's guard is at lines 149-150) |
| `Chat.ChatTurnsExactly` | backend/app.py:48-56 | the conversion keeps exactly the user and assistant messages, in order and with their content: one turn per such message, placed after the turns of the messages before it; user becomes Human, assistant becomes AI |
| `Chat.ChatTurnsAppend` | backend/app.py:51-55 | the conversion of a concatenation is the concatenation of the conversions |
| `Chat.ChatTurnsDropsOtherRoles` | backend/app.py:51-55 | messages with other roles contribute no turns |
| `Chat.RoleOf` | backend/app.py:51-54 | a dict's role is `User` exactly for "user", `Assistant` exactly for "assistant", and any other name is kept as an other role, which is never "user" or "assistant" |
| `Backend.FormatChatHistory` | backend/app.py:48-56 | the loop builds exactly `ChatTurns(messages)`, one turn per user or assistant message |
| `Backend.AnswersAppend` | backend/app.py:99-103 | answer fragments are forwarded in arrival order: the fragments of a longer stream extend those of its prefix |
| `Backend.LastContextIsLast` | backend/app.py:104-105 | the context left in the cache is absent exactly when no part carried one; otherwise it is the context of some part with no later part carrying a context |
| `Backend.BuildChains` | backend/app.py:131-150 | a load failure is reported as is; a missing or empty API key gives "500: GOOGLE_API_KEY not set"; a builder error is returned as is, the conversational builder's first; when the load succeeds, the key is set and both builders succeed, the build succeeds; success means the key was set and both chains are what the builders return for the chosen chunking |
| `Backend.UnsupportedUploadFails` | backend/app.py:132-136 | an upload with an unsupported extension fails with the loader's error, whatever the mode, key and libraries |
| `Backend.ExtractionIgnoresChunkSettings` | backend/app.py:147-150 | two successful uploads of the same file that differ only in mode and manual sizes store the same extraction chain, whose chunks are the split at (1000, 200) |
| `Backend.BuiltChainsShape` | backend/app.py:147-150 | the chains of a successful upload have non-empty chunks, k = 4 with weights 0.5/0.5, and k = 5 |
| `Backend.DocumentCaches.constructor` | backend/app.py:43-45 | the three caches start empty |
| `Backend.DocumentCaches.Upload` | backend/app.py:121-161 | on success both chains are stored under the file name, replacing earlier entries, and the reply is the success message; on any failure neither cache changes and the reply is a 500 carrying the error; the context cache is never touched |
| `Backend.DocumentCaches.ExtractData` | backend/app.py:59-79 | 404 for a name with no extraction chain; otherwise the chain's answer, where a missing answer validates to an invoice with every field absent, or a 500 when the chain raises |
| `Backend.DocumentCaches.StreamChat` | backend/app.py:82-109 | 404 and no change for an unknown name; otherwise the answer fragments in order, the context cache holding the last context seen for that name (unchanged when none was seen), and the chain caches unchanged |
| `Backend.DocumentCaches.StreamGenerator` | backend/app.py:91-107 | a redaction error ends the stream with no fragments and no change; otherwise the loop forwards every answer fragment and overwrites the context entry with each context |
| `Backend.DocumentCaches.GetSources` | backend/app.py:112-118 | [] for a name without cached sources, otherwise the cached sources in order |
| `Backend.SourcesSurviveReupload` | backend/app.py:153-154 | after a stream that carried a context, re-uploading the same name, successfully or not, leaves `get_sources` returning that context |
| `Session.WithDefaultsKeys` | app.py:43-45 | after filling defaults the keys are the old keys plus the default keys |
| `Session.WithDefaultsKeepsExisting` | app.py:43-45 | filling defaults never overwrites a key already present |
| `Session.WithDefaultsFillsMissing` | app.py:43-45 | every default key that was missing gets its default value |
| `Session.WithDefaultsIdle` | app.py:43-45 | filling defaults changes nothing when every default key is present |
| `Session.WithDefaultsIdempotent` | app.py:43-45 | filling defaults a second time changes nothing |
| `Session.WithDefaultsWellTyped` | app.py:43-45 | defaults of the right kinds keep a well-typed state well-typed |
| `Session.SessionState.InitializeDefaults` | app.py:43-45 | the loop leaves exactly `WithDefaults` of the old state |
| `Session.SessionState.Pop` | app.py:145 | returns the stored value or the default, and removes the key |
| `Session.SessionState.AppendMessage` | app.py:175 | appends one message to the stored list and changes nothing else |
| `Session.TakeProcessingDecision` | app.py:141-162 | stores the upload, removes the reprocess flag, and picks a file exactly when a new upload's name differs from the stored one or the flag was set while a file object is stored; it prefers the new upload |
| `Transcript.WithRole` | frontend/components/sidebar.py:13-14 | the filter keeps only messages of the given role and never lengthens the list |
| `Transcript.WithRoleExactly` | frontend/components/sidebar.py:13-14 | the filter keeps every message of the role, in order: one entry per such message, the message at index i placed after those of the role before it |
| `Transcript.WithRoleAppend` | frontend/components/sidebar.py:13-14 | filtering a concatenation is the concatenation of the filtered parts |
| `Transcript.Zip` | frontend/components/sidebar.py:16 | `zip` pairs elements at equal indices, up to the shorter length |
| `Transcript.QaPairsShape` | frontend/components/sidebar.py:13-16 | there are min(#user, max(#assistant - 1, 0)) pairs, and the i-th user message is paired with the (i+1)-th assistant message |
| `Transcript.QaPairsIgnoreOtherRoles` | frontend/components/sidebar.py:13-16 | inserting a message of any other role anywhere leaves the pairs unchanged |
| `Transcript.Separator` | frontend/components/sidebar.py:9 | 80 '─' characters followed by a newline |
| `Transcript.BlocksAppend` | frontend/components/sidebar.py:16-18 | blocks appear in pair order |
| `Transcript.TranscriptLayout` | frontend/components/sidebar.py:8-18 | the text is the header, then the separator, then the Q/A blocks |
| `Transcript.ChatHistoryText` | components/sidebar.py:4-21 | the `+=` loop builds exactly the transcript text |
| `Transcript.ShowActions` | frontend/components/sidebar.py:72-98 | Clear Chat works only once there is more than one message, replaces the messages with exactly one assistant message naming the stored file, and reruns; otherwise nothing changes and the download (named after the stored file) is offered only once the chat has started |
| `Sidebar.ChosenSizes` | components/sidebar.py:43-48 | the sliders' values in manual mode, otherwise the stored sizes with defaults 1000 and 200 |
| `Sidebar.ReturnedSettings` | components/sidebar.py:42-48 | the returned tuple holds the typed key, "Manual" exactly when the toggle is on (else "Automatic"), and the chosen sizes, which lie in the slider ranges in manual mode |
| `Sidebar.SavedState` | components/sidebar.py:50-54 | Save Settings writes `api_key`, `chunk_size` and `chunk_overlap` together and nothing else |
| `Sidebar.ShowSidebar` | components/sidebar.py:24-93 | only Save and Clear Chat write the session; the result is a rerun after clearing, or the settings in the order (key, mode, size, overlap) with a download exactly when the chat has started |
| `FrontendSidebar.ModeSettings` | frontend/components/sidebar.py:38-46 | "Manual" exactly when `manual_mode` is on; slider values (within 100..2000 and 0..500) in manual mode, otherwise the stored sizes with defaults 1000 and 200 |
| `FrontendSidebar.ApplySettings` | frontend/components/sidebar.py:31-67 | the toggle stores `manual_mode`; the mode is "Manual" exactly when it is on; an enabled Apply in manual mode stores the slider sizes, sets the reprocess flag and reruns; otherwise Save stores the sizes shown, and the settings are returned |
| `FrontendSidebar.ShowSidebar` | frontend/components/sidebar.py:23-100 | the toggle stores `manual_mode`; an enabled Apply in manual mode stores both sizes, sets the reprocess flag and reruns; Save stores both sizes; Clear Chat as above; a returned run leaves every other key and the flag's presence as they were |
| `StreamlitApp.DefaultsWellFormed` | app.py:28-42 | the eight defaults have distinct keys of the right kinds |
| `StreamlitApp.InitializeSessionState` | app.py:26-45 | only missing keys are set, existing values are kept, every key `main` reads is present afterwards, and the state stays well-typed |
| `StreamlitApp.FormatChatHistory` | app.py:49-57 | the loop converts `messages[1:]`, skipping the first message whatever its role |
| `StreamlitApp.GreetingDropped` | app.py:52 | compared with the back end's conversion, this one lacks exactly the turn of `messages[0]` |
| `StreamlitApp.ProcessedChain` | app.py:86-110 | a load failure is returned as its error; otherwise the result is exactly the conversational builder's, with the chosen chunking |
| `StreamlitApp.UnsupportedFileNotProcessed` | app.py:86-93 | a file with an unsupported extension is never processed and fails with the loader's error |
| `StreamlitApp.ProcessedState` | app.py:92-121 | the name is recorded whether or not the build succeeds; success stores the chain and leaves exactly the "Ready" message; failure sets the chain to None and keeps the messages; nothing else changes |
| `StreamlitApp.HandleDocumentProcessing` | app.py:80-124 | the session ends as `ProcessedState` says; success reruns and failure reports "Failed to process document: ..." |
| `StreamlitApp.BotMessage` | app.py:185-197 | the message after a question is an assistant message: the answer with its sources (default []), or "An error occurred: ..." |
| `StreamlitApp.HistoryEndsWithQuestion` | app.py:175-183 | the history given to the chain ends with the question just asked |
| `StreamlitApp.AskQuestion` | app.py:170-197 | with no chain it only warns and changes nothing; otherwise it appends the question and then exactly one assistant message |
| `StreamlitApp.ProcessIfWanted` | app.py:140-165 | the reprocess flag is consumed; without a reason to process nothing is processed and the chain and the name are kept; with a reason and an empty key there is exactly the key warning and nothing changes; with a key the run reruns with a chain and the "Ready" message, or reports the processing error with the chain cleared |
| `StreamlitApp.RunAfterSidebar` | app.py:134-197 | the reprocess flag is always consumed; when processing is wanted and the key is non-empty, the run either reruns with a chain and the "Ready" message or reports the processing error first; when the key is empty it only warns and changes neither the chain nor the name; an unwanted run keeps the chain and the name; an answered rerun ends the messages with the question and an assistant message |
| `StreamlitApp.StartRun` | app.py:128-131 | after the defaults and the sidebar, the chain and the stored name are as the defaults left them; when the sidebar returns, the key is the one typed and processing is wanted exactly as after the defaults |
| `StreamlitApp.Run` | app.py:128-197 | every run past the sidebar removes the flag; a processing rerun had a non-empty key and a reason to process; with a reason and a key the run processes (rerun or processing error) unless the sidebar reran; without a reason, or with a missing-key warning, the chain and the file name stay as initialized; an answered rerun ends the messages with the question and an assistant message |
| `FrontendApp.DefaultsWellFormed` | frontend/app.py:26-36 | the four defaults have distinct keys of the right kinds |
| `FrontendApp.InitializeSessionState` | frontend/app.py:24-39 | only missing keys are set, existing values are kept, and every default key is present afterwards |
| `FrontendApp.PageLabel` | frontend/app.py:58 | "N/A" without page metadata, otherwise the page shown as text |
| `FrontendApp.ContentPreview` | frontend/app.py:59 | a prefix of at most 300 characters; the whole text when it is short enough |
| `FrontendApp.SourcePreviewShape` | frontend/app.py:57-60 | a preview is the label, at most 300 characters of content, and "..." |
| `FrontendApp.HandleDocumentUpload` | frontend/app.py:62-91 | success sets `document_processed`, records the name, leaves exactly the "Ready" message and reruns; either failure only clears `document_processed`, keeping the stored name and the messages, and reports its own message |
| `FrontendApp.PayloadFor` | frontend/app.py:133-140 | the payload carries the prompt, and its history is the messages without the just-appended prompt |
| `FrontendApp.AskQuestion` | frontend/app.py:122-158 | before a document is processed it only warns; otherwise the question is appended and the history sent is the messages before it; success appends one assistant message with sources defaulting to []; an error leaves only the question appended |
| `FrontendApp.RunAfterSidebar` | frontend/app.py:101-158 | the flag is consumed; an upload is sent exactly when processing is wanted: it reruns with the document marked processed, or reports the upload error first; without a reason to process, the processed flag and the name are unchanged, there is no upload rerun and no upload error alert; an upload rerun records the uploaded file's name |
| `FrontendApp.StartRun` | frontend/app.py:95-98 | after the defaults and the sidebar, the processed flag is as the defaults left it and the stored name is unchanged; when the sidebar returns, processing is wanted exactly as before the run |
| `FrontendApp.Run` | frontend/app.py:95-158 | every run past the sidebar removes the flag; unless the sidebar reran, an upload is sent exactly when processing is wanted (rerun or upload error); without a reason, the processed flag and the name stay as initialized, there is no upload rerun and no upload error alert; an upload rerun records the uploaded file's name |
| `FrontendApp.FlagTriggersAtMostOnce` | frontend/app.py:110 | after a run that got past the sidebar, a following run with an empty uploader sends no upload; after an upload rerun, a following run with the same file still in the uploader sends no upload; in both cases however the sidebar is used |
| `DataExtraction.DropNulls` | frontend/components/data_extraction.py:36 | keeps exactly the keys whose value is not None, with their values, and adds none |
| `DataExtraction.DropNullsIdempotent` | frontend/components/data_extraction.py:36 | filtering twice filters nothing more |
| `DataExtraction.DropNullsEmpty` | frontend/components/data_extraction.py:36-40 | the filtered result is empty exactly when every value is None |
| `DataExtraction.InvoiceJson` | backend/schemas.py:4-9 | an invoice arrives with exactly its four field names |
| `DataExtraction.InvoiceFieldsShown` | backend/schemas.py:6-9 | a field appears in the table exactly when the back end filled it in |
| `DataExtraction.EmptyInvoiceShowsNoData` | frontend/components/data_extraction.py:38-40 | a sent request answered with the invoice whose fields are all absent shows "no data" in the extraction section |
| `DataExtraction.RequestSent` | frontend/components/data_extraction.py:10-29 | a request is sent exactly when a document was processed, the button was clicked and the prompt is non-empty; it carries the prompt and the stored file name (null when none) |
| `DataExtraction.ShowExtractionUi` | frontend/components/data_extraction.py:5-51 | warns without a processed document; reports an empty prompt; waits without a click; once a request is sent, a transport error or other error shows its message after the matching prefix, an answer with no non-None field shows "no data", and any other answer shows the table of exactly its non-None fields |

## Left out

- Library internals are opaque function values of `RagCore.Library`, and the model does not
  invent their behaviour. These are the loaders' `load()`, `RecursiveCharacterTextSplitter`, the
  Gemini embeddings with `FAISS.from_documents`, `BM25Retriever`, `EnsembleRetriever`,
  `create_history_aware_retriever`, and the answering and structured-output chains. Ranking,
  splitting and generation are not modelled.
- backend/guardrails.py (Presidio redaction) is not part of this model. Redaction is a function
  parameter that may fail, so its idempotence is not stated.
- eval/evaluate.py is an offline harness that calls external services; it is not part of this
  model.
- backend/schemas.py validation is pydantic's. Only the four optional `Invoice` fields are kept,
  with `total_amount` as a real number.
- Temporary-file writing and removal, HTTP transport, the FastAPI async streaming mechanics and
  Streamlit rendering are left out: the chat display, spinners, toasts, CSS and the header. HTTP
  replies and chain calls are function parameters returning a `Result`.
- Concurrent requests sharing the module-level caches are not modelled. Each handler runs to
  completion.
- `datetime.now()` is a string parameter of the transcript.
- `RagCore.Extension`: models `os.path.splitext` for POSIX paths only.
- `RagCore.SelectLoaderCaseInsensitive`: `str.lower()` is modelled for ASCII letters only.
  No other character lowers to a letter of ".pdf", ".txt" or ".docx", so the dispatch decides
  the same way.
- `app.py` imports `core.rag_core`, a module that is not part of this model. It is modelled by
  the functions of backend/logic/rag_core.py.
- frontend/app.py posts questions to `/query`, which backend/app.py does not define; the back
  end only streams through `/stream_chat`. The reply is a function parameter of
  `FrontendApp.AskQuestion`, and no pairing with `Backend.DocumentCaches.StreamChat` is claimed.
- `StreamlitApp.BotMessage`: the answer is modelled as a string. The case of a chain response
  with no "answer" key, where the message content would be None, is not modelled.
- `RagCore.LoadDocument`: the error message lowers ASCII letters only. For an extension with
  other letters, such as ".PDFÉ", Python's message reads ".pdfé" while the model's keeps "É".
- `Backend.DocumentCaches.ExtractData`: an "answer" that is present but None, which the
  `response_model` validation would turn into a 500, is not modelled. A missing answer is
  modelled as `{}`.
- `DataExtraction.ShowExtractionUi`: requires `uploaded_file_name` to be present even on the
  guard paths, which never read it; `initialize_session_state` of frontend/app.py always sets it.
- `DataExtraction.RequestSent`: requires `uploaded_file_name` to be present, as
  `initialize_session_state` of frontend/app.py always makes it. Without it the source would
  raise `AttributeError`.
- `Transcript.ShowActions`: when the chat has not started, the disabled download button still
  computes its text; the model returns no download in that case.
- Slider values are run inputs restricted to the sliders' ranges and steps. The sidebars do not
  check overlap against size, and neither does the model.
- The history `app.py` passes to the chain includes the question just asked, because the
  question is appended before `format_chat_history` runs. The model keeps this behaviour, and
  `StreamlitApp.HistoryEndsWithQuestion` states it.
- `Backend.DocumentCaches.StreamGenerator`: a `chat_history` entry without a "role" key, or a
  user or assistant entry without "content", makes `format_chat_history` raise `KeyError`. The
  `except Exception` around the stream catches it, and the stream ends with no fragments and
  no context write. `Chat.Message` always has a role and a content, so this path is not
  modelled. A redaction failure ends the modelled stream before it starts. A chain error
  ends it after the parts that `astream` returns.
