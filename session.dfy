/**
 * `st.session_state`: a dictionary from keys to Python values that survives reruns of a Streamlit
 * script. The two front ends use a fixed set of keys, so keys are an enumeration here; values are
 * the few Python values those keys hold.
 */
module Session {
  import opened Common
  import opened Chat
  import RagCore

  /** The session keys used by `app.py`, `frontend/app.py` and their sidebars. */
  datatype Key =
    | Messages | RagChain | ApiKey | ChunkSize | ChunkOverlap | UploadedFileName
    | ManualMode | UploadedFileObj | TriggerReprocess | DocumentProcessed

  /** The Python values stored under those keys. */
  datatype Value =
    | Null
    | Bool(b: bool)
    | Int(i: int)
    | Str(s: string)
    | Msgs(ms: seq<Message>)
    | Chain(chain: RagCore.RagChain)
    | File(file: UploadedFile)

  /** Python truthiness of a stored value. */
  predicate Truthy(v: Value) {
    match v
    case Null => false
    case Bool(b) => b
    case Int(i) => i != 0
    case Str(s) => s != ""
    case Msgs(ms) => ms != []
    case Chain(_) => true
    case File(_) => true
  }

  /** The kind of value each key holds in both programs. */
  predicate KindOk(k: Key, v: Value) {
    match k
    case Messages => v.Msgs?
    case RagChain => v.Null? || v.Chain?
    case ApiKey => v.Str?
    case ChunkSize => v.Int?
    case ChunkOverlap => v.Int?
    case UploadedFileName => v.Null? || v.Str?
    case ManualMode => v.Bool?
    case UploadedFileObj => v.Null? || v.File?
    case TriggerReprocess => v.Bool?
    case DocumentProcessed => v.Bool?
  }

  /** Every stored value has its key's kind: the invariant every transition keeps. */
  predicate WellTyped(vars: map<Key, Value>) {
    forall k :: k in vars ==> KindOk(k, vars[k])
  }

  /** `st.session_state.get(k, default)`. */
  function Get(vars: map<Key, Value>, k: Key, default: Value): (v: Value)
    ensures k in vars ==> v == vars[k]
    ensures k !in vars ==> v == default
  {
    if k in vars then vars[k] else default
  }

  /** How an f-string shows a stored file name: the name itself, or "None". */
  function NameText(v: Value): (s: string)
    requires v.Null? || v.Str?
    ensures v.Str? ==> s == v.s
    ensures v.Null? ==> s == "None"
  {
    if v.Str? then v.s else "None"
  }

  /** The messages stored in a well-typed state that has them. */
  function MessagesOf(vars: map<Key, Value>): seq<Message>
    requires Messages in vars && WellTyped(vars)
  {
    vars[Messages].ms
  }

  /** The keys of a defaults table, in order. */
  function KeysOf(ds: seq<(Key, Value)>): set<Key> {
    set i | 0 <= i < |ds| :: ds[i].0
  }

  /** A Python dict literal names each key once. */
  predicate DistinctKeys(ds: seq<(Key, Value)>) {
    forall i, j :: 0 <= i < j < |ds| ==> ds[i].0 != ds[j].0
  }

  /** The state after `for key, value in defaults.items(): if key not in state: state[key] = value`. */
  function WithDefaults(vars: map<Key, Value>, ds: seq<(Key, Value)>): map<Key, Value>
    decreases |ds|
  {
    if ds == [] then vars
    else
      var m := WithDefaults(vars, ds[..|ds| - 1]);
      var k := ds[|ds| - 1].0;
      if k in m then m else m[k := ds[|ds| - 1].1]
  }

  lemma KeysOfSnoc(ds: seq<(Key, Value)>)
    requires ds != []
    ensures KeysOf(ds) == KeysOf(ds[..|ds| - 1]) + {ds[|ds| - 1].0}
  {
    var n := |ds| - 1;
    var p := ds[..n];
    forall k | k in KeysOf(ds) ensures k in KeysOf(p) + {ds[n].0} {
      var i :| 0 <= i < |ds| && ds[i].0 == k;
      if i < n { assert p[i] == ds[i]; }
    }
    forall k | k in KeysOf(p) ensures k in KeysOf(ds) {
      var i :| 0 <= i < |p| && p[i].0 == k;
      assert ds[i] == p[i];
    }
  }

  /** After initialisation the keys are the old keys plus the default keys. */
  lemma {:induction false} WithDefaultsKeys(vars: map<Key, Value>, ds: seq<(Key, Value)>)
    ensures WithDefaults(vars, ds).Keys == vars.Keys + KeysOf(ds)
    decreases |ds|
  {
    if ds != [] {
      WithDefaultsKeys(vars, ds[..|ds| - 1]);
      KeysOfSnoc(ds);
    }
  }

  /** Initialisation never overwrites: every key already present keeps its value. */
  lemma {:induction false} WithDefaultsKeepsExisting(vars: map<Key, Value>, ds: seq<(Key, Value)>)
    ensures forall k :: k in vars ==> k in WithDefaults(vars, ds) && WithDefaults(vars, ds)[k] == vars[k]
    decreases |ds|
  {
    if ds != [] {
      WithDefaultsKeepsExisting(vars, ds[..|ds| - 1]);
    }
  }

  /** Every default key that was missing holds its default value afterwards. */
  lemma {:induction false} WithDefaultsFillsMissing(vars: map<Key, Value>, ds: seq<(Key, Value)>)
    requires DistinctKeys(ds)
    ensures forall i :: 0 <= i < |ds| && ds[i].0 !in vars ==>
              ds[i].0 in WithDefaults(vars, ds) && WithDefaults(vars, ds)[ds[i].0] == ds[i].1
    decreases |ds|
  {
    if ds != [] {
      var n := |ds| - 1;
      var p := ds[..n];
      WithDefaultsFillsMissing(vars, p);
      forall i | 0 <= i < |ds| && ds[i].0 !in vars
        ensures ds[i].0 in WithDefaults(vars, ds) && WithDefaults(vars, ds)[ds[i].0] == ds[i].1
      {
        if i < n {
          assert p[i] == ds[i];
          assert ds[i].0 != ds[n].0;
        } else {
          WithDefaultsKeys(vars, p);
          forall j | 0 <= j < |p| ensures p[j].0 != ds[n].0 {
            assert ds[j] == p[j];
          }
        }
      }
    }
  }

  /** Once every default key is present, initialising again changes nothing. */
  lemma {:induction false} WithDefaultsIdle(vars: map<Key, Value>, ds: seq<(Key, Value)>)
    requires KeysOf(ds) <= vars.Keys
    ensures WithDefaults(vars, ds) == vars
    decreases |ds|
  {
    if ds != [] {
      KeysOfSnoc(ds);
      WithDefaultsIdle(vars, ds[..|ds| - 1]);
    }
  }

  /** Initialisation is idempotent. */
  lemma WithDefaultsIdempotent(vars: map<Key, Value>, ds: seq<(Key, Value)>)
    ensures WithDefaults(WithDefaults(vars, ds), ds) == WithDefaults(vars, ds)
  {
    WithDefaultsKeys(vars, ds);
    WithDefaultsIdle(WithDefaults(vars, ds), ds);
  }

  /** Well-typed defaults keep a well-typed state well-typed. */
  lemma {:induction false} WithDefaultsWellTyped(vars: map<Key, Value>, ds: seq<(Key, Value)>)
    requires WellTyped(vars)
    requires forall i :: 0 <= i < |ds| ==> KindOk(ds[i].0, ds[i].1)
    ensures WellTyped(WithDefaults(vars, ds))
    decreases |ds|
  {
    if ds != [] {
      WithDefaultsWellTyped(vars, ds[..|ds| - 1]);
      assert forall i :: 0 <= i < |ds| - 1 ==> ds[..|ds| - 1][i] == ds[i];
    }
  }

  /** The first message of both front ends. */
  const Greeting: Message :=
    Message(Assistant, "Hi there! Upload a document and ask me anything about it.", None)

  /** The single message left after a document was processed. */
  function ReadyMessage(fileName: string): Message {
    Message(Assistant, "✅ Ready! Ask me anything about '" + fileName + "'.", None)
  }

  /** `st.session_state`, updated in place by the scripts. */
  class SessionState {
    var vars: map<Key, Value>

    constructor ()
      ensures vars == map[]
    {
      vars := map[];
    }

    /** `initialize_session_state`'s loop over the defaults. */
    method InitializeDefaults(defaults: seq<(Key, Value)>)
      modifies this
      ensures vars == WithDefaults(old(vars), defaults)
    {
      var i := 0;
      while i < |defaults|
        invariant 0 <= i <= |defaults|
        invariant vars == WithDefaults(old(vars), defaults[..i])
      {
        assert defaults[..i + 1][..i] == defaults[..i];
        var (key, value) := defaults[i];
        if key !in vars {
          vars := vars[key := value];
        }
        i := i + 1;
      }
      assert defaults[..|defaults|] == defaults;
    }

    /** `st.session_state.pop(k, default)`. */
    method Pop(k: Key, default: Value) returns (v: Value)
      modifies this
      ensures v == Get(old(vars), k, default)
      ensures vars == old(vars) - {k}
    {
      v := Get(vars, k, default);
      vars := vars - {k};
    }

    /** `st.session_state.k = v`. */
    method Set(k: Key, v: Value)
      modifies this
      ensures vars == old(vars)[k := v]
    {
      vars := vars[k := v];
    }

    /** `st.session_state.messages.append(m)`. */
    method AppendMessage(m: Message)
      requires Messages in vars && WellTyped(vars)
      modifies this
      ensures vars == old(vars)[Messages := Msgs(old(MessagesOf(vars)) + [m])]
      ensures WellTyped(vars) && MessagesOf(vars) == old(MessagesOf(vars)) + [m]
    {
      vars := vars[Messages := Msgs(vars[Messages].ms + [m])];
    }
  }

  /**
   * The state after the uploader's file (if any) is stored under `uploaded_file_obj` and
   * `trigger_reprocess` is popped.
   */
  function AfterUploadAndPop(vars: map<Key, Value>, uploaded: Option<UploadedFile>): map<Key, Value> {
    (if uploaded.Some? then vars[UploadedFileObj := File(uploaded.value)] else vars) - {TriggerReprocess}
  }

  /**
   * Whether a run processes a document: a new upload whose name differs from the stored name, or
   * a set reprocess flag while a file object is stored (after storing this run's upload).
   */
  predicate ProcessingWanted(vars: map<Key, Value>, uploaded: Option<UploadedFile>) {
    || (uploaded.Some? && Str(uploaded.value.name) != Get(vars, UploadedFileName, Null))
    || (Truthy(Get(vars, TriggerReprocess, Bool(false))) &&
        (uploaded.Some? || Get(vars, UploadedFileObj, Null) != Null))
  }

  /**
   * The part of `main` shared by both front ends: store the upload, pop the one-shot reprocess
   * flag, and choose the file to process, the new upload first, else the stored file object.
   */
  method TakeProcessingDecision(session: SessionState, uploaded: Option<UploadedFile>)
    returns (fileToProcess: Option<UploadedFile>)
    requires WellTyped(session.vars)
    modifies session
    ensures WellTyped(session.vars)
    ensures session.vars == AfterUploadAndPop(old(session.vars), uploaded)
    ensures TriggerReprocess !in session.vars
    ensures fileToProcess.Some? <==> ProcessingWanted(old(session.vars), uploaded)
    ensures fileToProcess.Some? && uploaded.Some? ==> fileToProcess == uploaded
    ensures fileToProcess.Some? && uploaded.None? ==> File(fileToProcess.value) == old(session.vars)[UploadedFileObj]
  {
    if uploaded.Some? {
      session.Set(UploadedFileObj, File(uploaded.value));
    }
    var shouldReprocess := session.Pop(TriggerReprocess, Bool(false));
    var isNewFile := uploaded.Some? && Str(uploaded.value.name) != Get(session.vars, UploadedFileName, Null);
    var isReprocess := Truthy(shouldReprocess) && Get(session.vars, UploadedFileObj, Null) != Null;
    if isNewFile || isReprocess {
      if uploaded.Some? {
        fileToProcess := uploaded;
      } else {
        fileToProcess := Some(session.vars[UploadedFileObj].file);
      }
    } else {
      fileToProcess := None;
    }
  }
}
