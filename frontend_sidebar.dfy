/**
 * `show_sidebar` of `frontend/components/sidebar.py`, the sidebar of the client front end: the
 * manual-chunking toggle bound to `manual_mode`, the sliders, "Apply & Reprocess Document", Save
 * Settings, and the Actions section.
 */
module FrontendSidebar {
  import opened Common
  import opened Chat
  import opened Session
  import opened Transcript

  /** What the user left in the widgets during this run. */
  datatype SidebarInput = SidebarInput(
    manualToggle: bool,      // "Enable Manual Chunking", stored under `manual_mode` by its key
    sliderSize: int,
    sliderOverlap: int,
    applyClicked: bool,      // "Apply & Reprocess Document", shown only in manual mode
    saveClicked: bool,
    clearClicked: bool,
    date: string)

  predicate SlidersInRange(input: SidebarInput) {
    && 100 <= input.sliderSize <= 2000 && input.sliderSize % 100 == 0
    && 0 <= input.sliderOverlap <= 500 && input.sliderOverlap % 50 == 0
  }

  /** The return value `(processing_mode, chunk_size, chunk_overlap)`. */
  datatype Settings = Settings(mode: string, chunkSize: int, chunkOverlap: int)

  /** The sidebar reran the script (Apply & Reprocess, or Clear Chat) or returned the settings. */
  datatype SidebarResult = Reran | Returned(settings: Settings, download: Option<Download>)

  /**
   * The settings read after the toggle stored its value: "Manual" exactly when `manual_mode` is
   * on; the sliders' values in manual mode, else the stored sizes with defaults 1000 and 200.
   */
  function ModeSettings(vars: map<Key, Value>, manual: bool, input: SidebarInput): (s: Settings)
    requires WellTyped(vars)
    requires SlidersInRange(input)
    ensures s.mode == "Manual" <==> manual
    ensures !manual ==> s.mode == "Automatic"
    ensures manual ==> s.chunkSize == input.sliderSize && s.chunkOverlap == input.sliderOverlap
    ensures manual ==> 100 <= s.chunkSize <= 2000 && 0 <= s.chunkOverlap <= 500
    ensures !manual ==> s.chunkSize == Get(vars, ChunkSize, Int(1000)).i
    ensures !manual ==> s.chunkOverlap == Get(vars, ChunkOverlap, Int(200)).i
  {
    if manual then Settings("Manual", input.sliderSize, input.sliderOverlap)
    else Settings("Automatic", Get(vars, ChunkSize, Int(1000)).i, Get(vars, ChunkOverlap, Int(200)).i)
  }

  /** The Apply button is enabled only once a document was processed. */
  predicate ApplyEnabled(vars: map<Key, Value>) {
    Truthy(Get(vars, DocumentProcessed, Null))
  }

  /**
   * The settings part of `show_sidebar`. The toggle first stores its value under `manual_mode`.
   * In manual mode an enabled Apply stores both sizes, sets `trigger_reprocess` and reruns
   * (`reran`). Otherwise Save stores both sizes, and the settings are returned.
   */
  method ApplySettings(session: SessionState, input: SidebarInput) returns (reran: bool, settings: Settings)
    requires WellTyped(session.vars)
    requires SlidersInRange(input)
    modifies session
    ensures WellTyped(session.vars)
    ensures var toggled := old(session.vars)[ManualMode := Bool(input.manualToggle)];
            var s := ModeSettings(old(session.vars), input.manualToggle, input);
            var sized := toggled[ChunkSize := Int(s.chunkSize)][ChunkOverlap := Int(s.chunkOverlap)];
            if input.manualToggle && input.applyClicked && ApplyEnabled(toggled) then
              reran && session.vars == sized[TriggerReprocess := Bool(true)]
            else
              && !reran
              && session.vars == (if input.saveClicked then sized else toggled)
              && settings == s
  {
    reran := false;
    session.Set(ManualMode, Bool(input.manualToggle));
    var processingMode := if session.vars[ManualMode].b then "Manual" else "Automatic";
    var chunkSize := Get(session.vars, ChunkSize, Int(1000)).i;
    var chunkOverlap := Get(session.vars, ChunkOverlap, Int(200)).i;
    if session.vars[ManualMode].b {
      chunkSize := input.sliderSize;
      chunkOverlap := input.sliderOverlap;
      var isDocProcessed := Get(session.vars, DocumentProcessed, Null);
      if input.applyClicked && Truthy(isDocProcessed) {
        session.Set(ChunkSize, Int(chunkSize));
        session.Set(ChunkOverlap, Int(chunkOverlap));
        session.Set(TriggerReprocess, Bool(true));
        reran, settings := true, Settings(processingMode, chunkSize, chunkOverlap);
        return;
      }
    }
    if input.saveClicked {
      session.Set(ChunkSize, Int(chunkSize));
      session.Set(ChunkOverlap, Int(chunkOverlap));
    }
    settings := Settings(processingMode, chunkSize, chunkOverlap);
  }

  /**
   * `show_sidebar`: the settings part (see `ApplySettings`), then the Actions section, which may
   * clear the chat and rerun; otherwise the settings are returned.
   */
  method ShowSidebar(session: SessionState, input: SidebarInput) returns (r: SidebarResult)
    requires WellTyped(session.vars)
    requires SlidersInRange(input)
    modifies session
    ensures WellTyped(session.vars)
    ensures forall k :: k in old(session.vars) ==> k in session.vars
    ensures forall k :: k !in {ManualMode, ChunkSize, ChunkOverlap, TriggerReprocess, Messages} ==>
              Get(session.vars, k, Null) == Get(old(session.vars), k, Null)
    ensures r.Returned? ==>
              forall k :: k in old(session.vars) && k !in {ManualMode, ChunkSize, ChunkOverlap} ==>
                session.vars[k] == old(session.vars)[k]
    ensures r.Returned? ==> (TriggerReprocess in session.vars <==> TriggerReprocess in old(session.vars))
    ensures var toggled := old(session.vars)[ManualMode := Bool(input.manualToggle)];
            var s := ModeSettings(old(session.vars), input.manualToggle, input);
            var sized := toggled[ChunkSize := Int(s.chunkSize)][ChunkOverlap := Int(s.chunkOverlap)];
            var saved := if input.saveClicked then sized else toggled;
            if input.manualToggle && input.applyClicked && ApplyEnabled(toggled) then
              && r == Reran
              && session.vars == sized[TriggerReprocess := Bool(true)]
            else if input.clearClicked && ChatStarted(saved) then
              && r == Reran
              && session.vars ==
                   saved[Messages := Msgs([ClearedMessage(NameText(Get(saved, UploadedFileName, Str("the current document"))))])]
            else
              && session.vars == saved
              && r.Returned?
              && r.settings == s
              && (r.download.Some? <==> ChatStarted(saved))
  {
    var reran, settings := ApplySettings(session, input);
    if reran {
      return Reran;
    }
    var actions := ShowActions(session, input.clearClicked, input.date);
    if actions == ClearedAndReran {
      return Reran;
    }
    r := Returned(settings, actions.download);
  }
}
