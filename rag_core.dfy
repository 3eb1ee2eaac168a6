/**
 * The document-processing policy of `backend/logic/rag_core.py`: which loader a file name
 * selects, how chunk size and overlap are chosen from the document's length, and the guards and
 * fixed parameters of the two chain builders. The text splitter, the loaders and the FAISS
 * vector store are library code; they enter the model as the opaque functions of `Library`.
 */
module RagCore {
  import opened Common

  // ---------------------------------------------------------------------------
  // load_document: dispatch on the lower-cased extension
  // ---------------------------------------------------------------------------

  /** The three LangChain loaders `load_document` can pick. */
  datatype LoaderKind = PyMuPdfLoader | TextLoader | Docx2txtLoader

  /** Python's `s.rfind(c)`: the last index holding `c`, or -1. */
  function LastIndexOf(s: string, c: char): (r: int)
    ensures -1 <= r < |s|
    ensures r >= 0 ==> s[r] == c
    ensures forall i :: r < i < |s| ==> s[i] != c
    decreases |s|
  {
    if s == [] then -1
    else if s[|s| - 1] == c then |s| - 1
    else LastIndexOf(s[..|s| - 1], c)
  }

  /**
   * `os.path.splitext(p)[1]` for POSIX paths: the text from the last '.' on, provided that dot
   * lies in the last path component and is preceded there by some character other than '.'
   * (so ".bashrc" and "a/.." have no extension); otherwise "".
   */
  function Extension(p: string): (e: string)
    ensures e == "" || (|e| <= |p| && e == p[|p| - |e|..] && e[0] == '.')
    ensures forall i :: 0 <= i < |e| ==> e[i] != '/'
    ensures forall i :: 1 <= i < |e| ==> e[i] != '.'
    ensures e != "" <==>
              (LastIndexOf(p, '.') > LastIndexOf(p, '/') &&
               exists i | LastIndexOf(p, '/') < i < LastIndexOf(p, '.') :: p[i] != '.')
    ensures e != "" ==> |p| - |e| == LastIndexOf(p, '.')
  {
    var sep := LastIndexOf(p, '/');
    var dot := LastIndexOf(p, '.');
    if dot > sep && exists i | sep < i < dot :: p[i] != '.' then p[dot..] else ""
  }

  function LowerChar(c: char): char {
    if 'A' <= c <= 'Z' then (c as int + 32) as char else c
  }

  /**
   * `str.lower()` restricted to ASCII letters. No other character lowers to one of the letters
   * of ".pdf", ".txt" or ".docx", so the dispatch below decides exactly as Python's does.
   */
  function Lower(s: string): (r: string)
    ensures |r| == |s|
  {
    seq(|s|, i requires 0 <= i < |s| => LowerChar(s[i]))
  }

  /** The message of the `ValueError` raised for an unsupported extension. */
  function UnsupportedFormat(ext: string): string {
    "Unsupported file format: " + ext
  }

  /** The loader `load_document` constructs for extension `ext`, or the `ValueError` it raises. */
  function SelectLoader(ext: string): (r: Result<LoaderKind, string>) {
    var e := Lower(ext);
    if e == ".pdf" then Ok(PyMuPdfLoader)
    else if e == ".txt" then Ok(TextLoader)
    else if e == ".docx" then Ok(Docx2txtLoader)
    else Err(UnsupportedFormat(e))
  }

  /**
   * The dispatch is case-insensitive: an extension selects the same loader as its lower-case
   * form, and exactly the three lower-case extensions are accepted, each with its own loader.
   */
  lemma {:induction false} SelectLoaderCaseInsensitive(ext: string)
    ensures SelectLoader(ext) == SelectLoader(Lower(ext))
    ensures SelectLoader(ext) == Ok(PyMuPdfLoader) <==> Lower(ext) == ".pdf"
    ensures SelectLoader(ext) == Ok(TextLoader) <==> Lower(ext) == ".txt"
    ensures SelectLoader(ext) == Ok(Docx2txtLoader) <==> Lower(ext) == ".docx"
    ensures SelectLoader(ext).Err? <==> Lower(ext) !in {".pdf", ".txt", ".docx"}
  {
    assert Lower(Lower(ext)) == Lower(ext);
  }

  /** An upper-case extension is accepted, and a path without extension is refused. */
  lemma SelectLoaderExamples()
    ensures SelectLoader(Extension("Report.PDF")) == Ok(PyMuPdfLoader)
    ensures SelectLoader(Extension("a.tar.docx")) == Ok(Docx2txtLoader)
    ensures SelectLoader(Extension("README")) == Err(UnsupportedFormat(""))
    ensures SelectLoader(Extension("d.x/.txt")) == Err(UnsupportedFormat(""))
  {
    UpperCasePdfExample();
    DoubleExtensionExample();
    NoExtensionExamples();
  }

  /** "Report.PDF" has the extension ".PDF", which lowers to ".pdf". */
  lemma UpperCasePdfExample()
    ensures SelectLoader(Extension("Report.PDF")) == Ok(PyMuPdfLoader)
  {
    LastIndexOfIs("Report.PDF", '/', -1);
    LastIndexOfIs("Report.PDF", '.', 6);
    assert "Report.PDF"[0] != '.';
    assert Extension("Report.PDF") == ".PDF";
    assert forall i :: 0 <= i < 4 ==> Lower(".PDF")[i] == ".pdf"[i];
    assert Lower(".PDF") == ".pdf";
  }

  /** Only the last suffix counts: "a.tar.docx" has the extension ".docx". */
  lemma DoubleExtensionExample()
    ensures SelectLoader(Extension("a.tar.docx")) == Ok(Docx2txtLoader)
  {
    LastIndexOfIs("a.tar.docx", '/', -1);
    LastIndexOfIs("a.tar.docx", '.', 5);
    assert "a.tar.docx"[0] != '.';
    assert Extension("a.tar.docx") == ".docx";
    LowerIdle(".docx");
  }

  /** A name without a dot and a dotfile in a dotted directory have no extension. */
  lemma NoExtensionExamples()
    ensures SelectLoader(Extension("README")) == Err(UnsupportedFormat(""))
    ensures SelectLoader(Extension("d.x/.txt")) == Err(UnsupportedFormat(""))
  {
    LastIndexOfIs("README", '/', -1);
    LastIndexOfIs("README", '.', -1);
    LastIndexOfIs("d.x/.txt", '/', 3);
    LastIndexOfIs("d.x/.txt", '.', 4);
  }


  /** Text without upper-case ASCII letters is its own lower-case form. */
  lemma LowerIdle(s: string)
    requires forall i :: 0 <= i < |s| ==> !('A' <= s[i] <= 'Z')
    ensures Lower(s) == s
  {
    assert forall i :: 0 <= i < |s| ==> Lower(s)[i] == s[i];
  }

  /** `LastIndexOf` is determined by its postconditions. */
  lemma LastIndexOfIs(s: string, c: char, k: int)
    requires -1 <= k < |s|
    requires k >= 0 ==> s[k] == c
    requires forall i :: k < i < |s| ==> s[i] != c
    ensures LastIndexOf(s, c) == k
  {
  }

  /**
   * `load_document(file_path)`: the loader chosen by the path's extension reads the file; the
   * loaders themselves are library code, supplied as `lib.load`.
   */
  function LoadDocument(path: string, data: seq<bv8>, lib: Library): (r: Result<seq<Doc>, string>)
    ensures SelectLoader(Extension(path)).Err? ==> r == Err(SelectLoader(Extension(path)).error)
    ensures SelectLoader(Extension(path)).Ok? ==> r == lib.load(SelectLoader(Extension(path)).value, path, data)
  {
    match SelectLoader(Extension(path))
    case Err(e) => Err(e)
    case Ok(kind) => lib.load(kind, path, data)
  }

  // ---------------------------------------------------------------------------
  // Temporary files keep the uploaded file's extension
  // ---------------------------------------------------------------------------

  /**
   * A name `tempfile.NamedTemporaryFile` can produce before its suffix: a path whose last
   * component ("tmp" and random letters, digits and '_') is non-empty and has no '.'.
   */
  predicate TempNameOk(t: string) {
    && |t| > 0
    && t[|t| - 1] != '/'
    && forall i :: LastIndexOf(t, '/') < i < |t| ==> t[i] != '.'
  }

  /** The path of the temporary file created with `suffix=os.path.splitext(name)[1]`. */
  function TempPath(tmpName: string, fileName: string): string {
    tmpName + Extension(fileName)
  }

  lemma LastIndexOfAppend(a: string, b: string, c: char)
    ensures LastIndexOf(a + b, c) ==
            if LastIndexOf(b, c) >= 0 then |a| + LastIndexOf(b, c) else LastIndexOf(a, c)
  {
    var j := LastIndexOf(b, c);
    var k := LastIndexOf(a, c);
    if j >= 0 {
      assert (a + b)[|a| + j] == c;
    } else if k >= 0 {
      assert (a + b)[k] == c;
    }
  }

  /**
   * The loader is chosen from the temporary file's path, which ends with the uploaded name's
   * extension: the dispatch therefore sees exactly the extension of the uploaded file's name.
   */
  lemma {:induction false} TempPathKeepsExtension(tmpName: string, fileName: string)
    requires TempNameOk(tmpName)
    ensures Extension(TempPath(tmpName, fileName)) == Extension(fileName)
  {
    var e := Extension(fileName);
    var p := tmpName + e;
    var n := |tmpName|;
    LastIndexOfAppend(tmpName, e, '/');
    LastIndexOfAppend(tmpName, e, '.');
    var sep := LastIndexOf(tmpName, '/');
    assert LastIndexOf(e, '/') == -1;
    assert LastIndexOf(p, '/') == sep;
    if e == "" {
      assert p == tmpName;
      var dot := LastIndexOf(tmpName, '.');
      assert dot <= sep;
    } else {
      assert LastIndexOf(e, '.') == 0;
      assert LastIndexOf(p, '.') == n;
      assert sep < n - 1 && p[n - 1] == tmpName[n - 1] != '.';
      assert p[n..] == e;
    }
  }

  // ---------------------------------------------------------------------------
  // auto_select_chunk_size
  // ---------------------------------------------------------------------------

  /** `"".join(doc.page_content for doc in documents)`. */
  function JoinedText(docs: seq<Doc>): string
    decreases |docs|
  {
    if docs == [] then "" else docs[0].pageContent + JoinedText(docs[1..])
  }

  lemma {:induction false} JoinedTextAppend(a: seq<Doc>, b: seq<Doc>)
    ensures JoinedText(a + b) == JoinedText(a) + JoinedText(b)
    decreases |a|
  {
    if a == [] {
      assert a + b == b;
    } else {
      assert (a + b)[1..] == a[1..] + b;
      JoinedTextAppend(a[1..], b);
    }
  }

  /** The (chunk_size, chunk_overlap) chosen for a document of `totalLength` characters. */
  function ChunkSettingsForLength(totalLength: nat): (r: (int, int)) {
    if totalLength < 5000 then (500, 100)
    else if totalLength < 50000 then (1000, 200)
    else (1500, 300)
  }

  /**
   * `auto_select_chunk_size`: the settings depend on the length of the joined page texts only.
   * Every choice has a positive size, an overlap of a fifth of it, hence `0 <= overlap < size`.
   */
  function AutoSelectChunkSize(docs: seq<Doc>): (r: (int, int))
    ensures r.0 > 0 && 0 <= r.1 < r.0 && r.0 == 5 * r.1
    ensures r.0 in {500, 1000, 1500}
  {
    ChunkSettingsForLength(|JoinedText(docs)|)
  }

  /** The three bands and their boundaries. */
  lemma ChunkSettingsBands(n: nat)
    ensures n < 5000 ==> ChunkSettingsForLength(n) == (500, 100)
    ensures 5000 <= n < 50000 ==> ChunkSettingsForLength(n) == (1000, 200)
    ensures 50000 <= n ==> ChunkSettingsForLength(n) == (1500, 300)
    ensures ChunkSettingsForLength(4999) == (500, 100)
    ensures ChunkSettingsForLength(5000) == (1000, 200)
    ensures ChunkSettingsForLength(49999) == (1000, 200)
    ensures ChunkSettingsForLength(50000) == (1500, 300)
  {
  }

  /** A longer document never gets smaller chunks, nor a smaller overlap. */
  lemma ChunkSettingsMonotone(m: nat, n: nat)
    requires m <= n
    ensures ChunkSettingsForLength(m).0 <= ChunkSettingsForLength(n).0
    ensures ChunkSettingsForLength(m).1 <= ChunkSettingsForLength(n).1
  {
  }

  /**
   * How the text is cut into pages does not matter: splitting one page's text into two pages
   * (with any metadata) leaves the choice unchanged.
   */
  lemma {:induction false} AutoSelectIgnoresPageBreaks(
    before: seq<Doc>, x: string, y: string, after: seq<Doc>,
    m: map<string, MetaValue>, mx: map<string, MetaValue>, my: map<string, MetaValue>)
    ensures AutoSelectChunkSize(before + [Doc(x + y, m)] + after) ==
            AutoSelectChunkSize(before + [Doc(x, mx), Doc(y, my)] + after)
  {
    var one := [Doc(x + y, m)];
    var two := [Doc(x, mx), Doc(y, my)];
    JoinedTextAppend(before + one, after);
    JoinedTextAppend(before, one);
    JoinedTextAppend(before + two, after);
    JoinedTextAppend(before, two);
    assert JoinedText(one) == x + y;
    assert two[1..] == [Doc(y, my)];
    assert two[1..][1..] == [];
    assert JoinedText(two[1..]) == y + "";
    assert JoinedText(two) == x + y;
  }

  /** The order of the pages does not matter: any permutation of them gets the same settings. */
  lemma {:induction false} AutoSelectIgnoresPageOrder(a: seq<Doc>, b: seq<Doc>)
    requires multiset(a) == multiset(b)
    ensures AutoSelectChunkSize(a) == AutoSelectChunkSize(b)
  {
    JoinedLengthPermutation(a, b);
  }

  lemma {:induction false} JoinedLengthPermutation(a: seq<Doc>, b: seq<Doc>)
    requires multiset(a) == multiset(b)
    ensures |JoinedText(a)| == |JoinedText(b)|
    decreases |a|
  {
    if a == [] {
      assert |multiset(b)| == 0;
    } else {
      assert a[0] in multiset(b);
      var j :| 0 <= j < |b| && b[j] == a[0];
      var rest := b[..j] + b[j + 1..];
      MultisetWithout(a, b, j);
      JoinedLengthPermutation(a[1..], rest);
      JoinedLengthWithout(b, j);
    }
  }

  lemma MultisetWithout(a: seq<Doc>, b: seq<Doc>, j: nat)
    requires multiset(a) == multiset(b) && a != [] && j < |b| && b[j] == a[0]
    ensures multiset(a[1..]) == multiset(b[..j] + b[j + 1..])
  {
    assert a == [a[0]] + a[1..];
    assert b == b[..j] + [b[j]] + b[j + 1..];
    assert multiset(a[1..]) == multiset(a) - multiset{a[0]};
  }

  lemma JoinedLengthWithout(b: seq<Doc>, j: nat)
    requires j < |b|
    ensures |JoinedText(b)| == |b[j].pageContent| + |JoinedText(b[..j] + b[j + 1..])|
  {
    assert b == b[..j] + ([b[j]] + b[j + 1..]);
    JoinedTextAppend(b[..j], [b[j]] + b[j + 1..]);
    assert ([b[j]] + b[j + 1..])[1..] == b[j + 1..];
    JoinedTextAppend(b[..j], b[j + 1..]);
  }

  /**
   * The settings a caller passes on (backend/app.py and app.py): mode "Automatic", spelled
   * exactly so, uses automatic sizing; any other mode string uses the manual values as given.
   */
  function ChooseChunking(mode: string, docs: seq<Doc>, manualSize: int, manualOverlap: int): (r: (int, int))
    ensures mode != "Automatic" ==> r == (manualSize, manualOverlap)
    ensures mode == "Automatic" ==> r == AutoSelectChunkSize(docs)
    ensures mode == "Automatic" ==> r.0 in {500, 1000, 1500} && 0 <= r.1 < r.0
  {
    if mode == "Automatic" then AutoSelectChunkSize(docs) else (manualSize, manualOverlap)
  }

  // ---------------------------------------------------------------------------
  // The two chain builders
  // ---------------------------------------------------------------------------

  /** A FAISS vector store built from embedded chunks; opaque. */
  datatype VectorIndex = VectorIndex(handle: nat)

  /**
   * The library calls the builders make, as functions. `split` is
   * `RecursiveCharacterTextSplitter(...).split_documents` (which may raise), `embed` is
   * `FAISS.from_documents` with Gemini embeddings under the given API key (a network call that
   * may fail), `load` is a loader's `load()` on a path holding the given bytes.
   */
  datatype Library = Library(
    load: (LoaderKind, string, seq<bv8>) -> Result<seq<Doc>, string>,
    split: (seq<Doc>, int, int) -> Result<seq<Doc>, string>,
    embed: (seq<Doc>, string) -> Result<VectorIndex, string>)

  /**
   * The conversational chain: an ensemble of a BM25 retriever over the chunks and a FAISS
   * retriever, each returning `k` documents, merged with the given weights, behind a
   * history-aware question rewriter and a "stuff" answering chain.
   */
  datatype RagChain = RagChain(
    chunks: seq<Doc>, vectorIndex: VectorIndex,
    bm25K: nat, faissK: nat, bm25Weight: real, faissWeight: real)

  /** The extraction chain: a FAISS retriever returning `k` documents, feeding a structured LLM. */
  datatype ExtractionChain = ExtractionChain(chunks: seq<Doc>, vectorIndex: VectorIndex, k: nat)

  const NoChunksMessage: string := "Document splitting resulted in no chunks."

  /** `create_conversational_rag_chain`. */
  function CreateConversationalRagChain(
    docs: seq<Doc>, apiKey: string, chunkSize: int, chunkOverlap: int, lib: Library): (r: Result<RagChain, string>)
    ensures lib.split(docs, chunkSize, chunkOverlap) == Ok([]) ==> r == Err(NoChunksMessage)
    ensures lib.split(docs, chunkSize, chunkOverlap).Err? ==> r == Err(lib.split(docs, chunkSize, chunkOverlap).error)
    ensures r.Ok? ==> && r.value.chunks != []
                      && lib.split(docs, chunkSize, chunkOverlap) == Ok(r.value.chunks)
                      && lib.embed(r.value.chunks, apiKey) == Ok(r.value.vectorIndex)
    ensures r.Ok? ==> r.value.bm25K == 4 && r.value.faissK == 4
    ensures r.Ok? ==> r.value.bm25Weight == 0.5 && r.value.faissWeight == 0.5
    ensures lib.split(docs, chunkSize, chunkOverlap).Ok? && lib.split(docs, chunkSize, chunkOverlap).value != [] ==>
              var chunks := lib.split(docs, chunkSize, chunkOverlap).value;
              && (lib.embed(chunks, apiKey).Ok? <==> r.Ok?)
              && (lib.embed(chunks, apiKey).Err? ==> r == Err(lib.embed(chunks, apiKey).error))
  {
    match lib.split(docs, chunkSize, chunkOverlap)
    case Err(e) => Err(e)
    case Ok(chunks) =>
      if chunks == [] then Err(NoChunksMessage)
      else
        match lib.embed(chunks, apiKey)
        case Err(e) => Err(e)
        case Ok(index) => Ok(RagChain(chunks, index, 4, 4, 0.5, 0.5))
  }

  /** `create_structured_extraction_chain`: fixed splitting (1000, 200) and k = 5. */
  function CreateStructuredExtractionChain(docs: seq<Doc>, apiKey: string, lib: Library): (r: Result<ExtractionChain, string>)
    ensures lib.split(docs, 1000, 200) == Ok([]) ==> r == Err(NoChunksMessage)
    ensures lib.split(docs, 1000, 200).Err? ==> r == Err(lib.split(docs, 1000, 200).error)
    ensures r.Ok? ==> && r.value.chunks != []
                      && lib.split(docs, 1000, 200) == Ok(r.value.chunks)
                      && lib.embed(r.value.chunks, apiKey) == Ok(r.value.vectorIndex)
                      && r.value.k == 5
    ensures lib.split(docs, 1000, 200).Ok? && lib.split(docs, 1000, 200).value != [] ==>
              var chunks := lib.split(docs, 1000, 200).value;
              && (lib.embed(chunks, apiKey).Ok? <==> r.Ok?)
              && (lib.embed(chunks, apiKey).Err? ==> r == Err(lib.embed(chunks, apiKey).error))
  {
    match lib.split(docs, 1000, 200)
    case Err(e) => Err(e)
    case Ok(chunks) =>
      if chunks == [] then Err(NoChunksMessage)
      else
        match lib.embed(chunks, apiKey)
        case Err(e) => Err(e)
        case Ok(index) => Ok(ExtractionChain(chunks, index, 5))
  }

  /**
   * The empty-chunks guard fires before any index is built: when splitting yields nothing,
   * both builders fail the same way whatever the embedding call would have done.
   */
  lemma NoChunksFailsBeforeIndexing(
    docs: seq<Doc>, apiKey: string, chunkSize: int, chunkOverlap: int, lib: Library,
    otherEmbed: (seq<Doc>, string) -> Result<VectorIndex, string>)
    ensures lib.split(docs, chunkSize, chunkOverlap) == Ok([]) ==>
              CreateConversationalRagChain(docs, apiKey, chunkSize, chunkOverlap, lib) ==
              CreateConversationalRagChain(docs, apiKey, chunkSize, chunkOverlap, lib.(embed := otherEmbed))
    ensures lib.split(docs, 1000, 200) == Ok([]) ==>
              CreateStructuredExtractionChain(docs, apiKey, lib) ==
              CreateStructuredExtractionChain(docs, apiKey, lib.(embed := otherEmbed))
  {
  }
}
