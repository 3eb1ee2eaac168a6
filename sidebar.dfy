/**
 * `show_sidebar` of `components/sidebar.py`, the sidebar of the single-process app: the API key
 * box, the manual-chunking toggle and sliders, Save Settings, and the Actions section. Widget
 * values are inputs of a run.
 */
module Sidebar {
  import opened Common
  import opened Chat
  import opened Session
  import opened Transcript

  /** What the user left in the widgets during this run. */
  datatype SidebarInput = SidebarInput(
    apiKeyText: string,      // the password box, pre-filled with the stored key
    manualToggle: bool,      // "Enable Manual Chunking" (not bound to a session key here)
    sliderSize: int,         // "Chunk Size" slider, read only in manual mode
    sliderOverlap: int,      // "Chunk Overlap" slider, read only in manual mode
    saveClicked: bool,
    clearClicked: bool,
    date: string)            // `datetime.now()` for the transcript header

  /** The sliders' ranges and steps: size 100..2000 by 100, overlap 0..500 by 50. */
  predicate SlidersInRange(input: SidebarInput) {
    && 100 <= input.sliderSize <= 2000 && input.sliderSize % 100 == 0
    && 0 <= input.sliderOverlap <= 500 && input.sliderOverlap % 50 == 0
  }

  /** The return value `(api_key, processing_mode, chunk_size, chunk_overlap)`. */
  datatype Settings = Settings(apiKey: string, mode: string, chunkSize: int, chunkOverlap: int)

  /** The sidebar either reran the script (Clear Chat) or returned the settings. */
  datatype SidebarResult = Reran | Returned(settings: Settings, download: Option<Download>)

  /** The size and overlap the sidebar works with: the sliders in manual mode, else the stored values. */
  function ChosenSizes(vars: map<Key, Value>, input: SidebarInput): (r: (int, int))
    requires WellTyped(vars)
    ensures input.manualToggle ==> r == (input.sliderSize, input.sliderOverlap)
    ensures !input.manualToggle ==> r == (Get(vars, ChunkSize, Int(1000)).i, Get(vars, ChunkOverlap, Int(200)).i)
  {
    if input.manualToggle then (input.sliderSize, input.sliderOverlap)
    else (Get(vars, ChunkSize, Int(1000)).i, Get(vars, ChunkOverlap, Int(200)).i)
  }

  /**
   * The settings the sidebar returns: the typed key, "Manual" exactly when the toggle is on, and
   * the chosen sizes, which lie in the sliders' ranges in manual mode.
   */
  function ReturnedSettings(vars: map<Key, Value>, input: SidebarInput): (s: Settings)
    requires WellTyped(vars)
    requires SlidersInRange(input)
    ensures s.apiKey == input.apiKeyText
    ensures s.mode == "Manual" <==> input.manualToggle
    ensures !input.manualToggle ==> s.mode == "Automatic"
    ensures input.manualToggle ==> 100 <= s.chunkSize <= 2000 && 0 <= s.chunkOverlap <= 500
    ensures (s.chunkSize, s.chunkOverlap) == ChosenSizes(vars, input)
  {
    var sizes := ChosenSizes(vars, input);
    Settings(input.apiKeyText, if input.manualToggle then "Manual" else "Automatic", sizes.0, sizes.1)
  }

  /** Save Settings writes the key and both sizes together, and nothing else. */
  function SavedState(vars: map<Key, Value>, input: SidebarInput): (r: map<Key, Value>)
    requires WellTyped(vars)
    ensures WellTyped(r)
    ensures r.Keys == vars.Keys + {ApiKey, ChunkSize, ChunkOverlap}
    ensures forall k :: k in vars && k !in {ApiKey, ChunkSize, ChunkOverlap} ==> r[k] == vars[k]
    ensures r[ApiKey] == Str(input.apiKeyText)
    ensures (r[ChunkSize].i, r[ChunkOverlap].i) == ChosenSizes(vars, input)
  {
    var sizes := ChosenSizes(vars, input);
    vars[ApiKey := Str(input.apiKeyText)][ChunkSize := Int(sizes.0)][ChunkOverlap := Int(sizes.1)]
  }

  /**
   * `show_sidebar`: the settings are saved only when Save Settings was clicked; then the Actions
   * section may clear the chat and rerun, or the settings are returned.
   */
  method ShowSidebar(session: SessionState, input: SidebarInput) returns (r: SidebarResult)
    requires WellTyped(session.vars)
    requires SlidersInRange(input)
    modifies session
    ensures WellTyped(session.vars)
    ensures forall k :: k in old(session.vars) ==> k in session.vars
    ensures forall k :: k in old(session.vars) && k !in {ApiKey, ChunkSize, ChunkOverlap, Messages} ==>
              session.vars[k] == old(session.vars)[k]
    ensures r.Returned? ==> r.settings.apiKey == input.apiKeyText
    ensures var saved := if input.saveClicked then SavedState(old(session.vars), input) else old(session.vars);
            if input.clearClicked && ChatStarted(saved) then
              && r == Reran
              && session.vars ==
                   saved[Messages := Msgs([ClearedMessage(NameText(Get(saved, UploadedFileName, Str("the current document"))))])]
            else
              && session.vars == saved
              && r.Returned?
              && r.settings == ReturnedSettings(old(session.vars), input)
              && (r.download.Some? <==> ChatStarted(saved))
  {
    var apiKey := input.apiKeyText;
    var processingMode := if input.manualToggle then "Manual" else "Automatic";
    var chunkSize := Get(session.vars, ChunkSize, Int(1000)).i;
    var chunkOverlap := Get(session.vars, ChunkOverlap, Int(200)).i;
    if input.manualToggle {
      chunkSize := input.sliderSize;
      chunkOverlap := input.sliderOverlap;
    }
    if input.saveClicked {
      session.Set(ApiKey, Str(apiKey));
      session.Set(ChunkSize, Int(chunkSize));
      session.Set(ChunkOverlap, Int(chunkOverlap));
    }
    var actions := ShowActions(session, input.clearClicked, input.date);
    if actions == ClearedAndReran {
      return Reran;
    }
    r := Returned(Settings(apiKey, processingMode, chunkSize, chunkOverlap), actions.download);
  }
}
