/** The edit dispatcher of the main window: Delete, Copy, Paste and Cut act
    on the working buffer and the clipboard according to the waveform
    view's selection, taking an undo snapshot before every change to the
    working buffer; New resets the document and Undo pops a snapshot.

    The selection endpoints are held as frame indices: the conversion from
    the view's time positions to frames is not part of this model. */
module EditEngine {
  import opened SampleBuffer
  import opened SampleBufferProperties
  import opened EditHistory

  /** The waveform view's selection: nothing, a single marker, or a region
      between two endpoints. */
  datatype SelectionState = Deselected | Marker | Region

  datatype Action = Delete | Copy | Cut | Paste

  /** The application state together with the view's selection. */
  datatype EditorState = EditorState(app: AppState, selection: SelectionState, selectionA: int, selectionB: int)

  /** The selection's lower and upper endpoint. */
  function SelectStart(st: EditorState): (r: int)
    ensures r <= st.selectionA && r <= st.selectionB
    ensures r == st.selectionA || r == st.selectionB
  {
    Min(st.selectionA, st.selectionB)
  }

  function SelectEnd(st: EditorState): (r: int)
    ensures st.selectionA <= r && st.selectionB <= r
    ensures r == st.selectionA || r == st.selectionB
    ensures SelectStart(st) <= r
  {
    Max(st.selectionA, st.selectionB)
  }

  /** What the dispatcher needs of its caller: initialised buffers, and for a
      paste at a marker or over a region, an insertion point that is not
      before the first frame. */
  predicate CanPerform(st: EditorState, action: Action) {
    Wellformed(st.app) && (action == Paste && st.selection != Deselected ==> 0 <= SelectStart(st))
  }

  /** The action changes the working buffer and so takes a snapshot first. */
  predicate Mutates(st: EditorState, action: Action) {
    match action
    case Delete => st.selection == Region
    case Cut => st.selection == Region
    case Paste => st.selection != Deselected
    case Copy => false
  }

  /** The clipboard after `copy_region` of the selection: it is replaced only
      when the clamped region holds a frame. */
  function ClipboardAfterCopy(b: BufferState, clipboard: BufferState, start: int, end: int): (r: BufferState)
    requires Consistent(b) && start <= end
    ensures RegionNonEmpty(b, start, end) ==> r == Copied(b, start, end)
    ensures !RegionNonEmpty(b, start, end) ==> r == clipboard
  {
    if RegionNonEmpty(b, start, end) then Copied(b, start, end) else clipboard
  }

  /** `perform_action` on a value. */
  function Performed(st: EditorState, action: Action): (r: EditorState)
    requires CanPerform(st, action)
    ensures Wellformed(r.app)
  {
    var app := st.app;
    var start := SelectStart(st);
    var end := SelectEnd(st);
    match action
    case Delete =>
      if st.selection != Region then st
      else st.(app := Saved(app).(buffer := Deleted(app.buffer, start, end), unsavedChanges := true),
               selection := Deselected)
    case Copy =>
      if st.selection != Region then st
      else st.(app := app.(clipboard := ClipboardAfterCopy(app.buffer, app.clipboard, start, end)))
    case Paste =>
      if st.selection == Marker then
        st.(app := Saved(app).(buffer := Pasted(app.buffer, start, app.clipboard.samples), unsavedChanges := true))
      else if st.selection == Region then
        st.(app := Saved(app).(buffer := Pasted(Deleted(app.buffer, start, end), start, app.clipboard.samples),
                               unsavedChanges := true),
            selection := Deselected)
      else st
    case Cut =>
      if st.selection != Region then st
      else st.(app := Saved(app).(buffer := Deleted(app.buffer, start, end),
                                  clipboard := ClipboardAfterCopy(app.buffer, app.clipboard, start, end),
                                  unsavedChanges := true),
               selection := Deselected)
  }

  /** `on_actionNew_triggered` on a value: empty stereo 44.1 kHz buffer, no
      path, no unsaved changes; the undo stack and the clipboard are kept. */
  function NewDocument(st: EditorState): (r: EditorState)
    ensures r.app.buffer == StartBuffer && r.app.filePath == "" && !r.app.unsavedChanges
    ensures r.app.history == st.app.history && r.app.clipboard == st.app.clipboard
    ensures r.selection == st.selection
  {
    st.(app := st.app.(buffer := StartBuffer, filePath := "", unsavedChanges := false))
  }

  class MainWindow {
    const app: App
    /** The waveform view's selection state and endpoints. */
    var selection: SelectionState
    var selectionA: int
    var selectionB: int

    function State(): EditorState
      reads this, app, app.buffer, app.clipboard
    {
      EditorState(app.State(), selection, selectionA, selectionB)
    }

    predicate Valid()
      reads this, app, app.buffer, app.clipboard
    {
      app.Valid()
    }

    constructor (app: App)
      requires app.Valid()
      ensures Valid() && this.app == app
      ensures State() == EditorState(app.State(), Deselected, 0, 0)
    {
      this.app := app;
      selection, selectionA, selectionB := Deselected, 0, 0;
    }

    method PerformAction(action: Action)
      requires Valid() && CanPerform(State(), action)
      modifies this, app, app.buffer, app.clipboard
      ensures Valid() && State() == Performed(old(State()), action)
    {
      var start := Min(selectionA, selectionB);
      var end := Max(selectionA, selectionB);
      match action {
        case Delete =>
          if selection != Region {
            return;
          }
          app.SaveState();
          var _ := app.buffer.DeleteRegion(start, end);
          selection := Deselected;
          app.unsavedChanges := true;
        case Copy =>
          if selection != Region {
            return;
          }
          var _ := app.buffer.CopyRegion(start, end, app.clipboard);
        case Paste =>
          if selection == Marker {
            app.SaveState();
            var _ := app.buffer.PasteFrom(start, app.clipboard);
            app.unsavedChanges := true;
          } else if selection == Region {
            PasteOverSelection(start, end);
          }
        case Cut =>
          if selection != Region {
            return;
          }
          selection := Deselected;
          app.SaveState();
          var _ := app.buffer.CutRegion(start, end, app.clipboard);
          app.unsavedChanges := true;
      }
    }

    /** The region branch of the paste action: the selection is deleted, the
        clipboard pasted at its start, and the selection dropped. */
    method PasteOverSelection(start: int, end: int)
      requires Valid() && 0 <= start <= end
      modifies this, app, app.buffer
      ensures Valid() && selection == Deselected
      ensures selectionA == old(selectionA) && selectionB == old(selectionB)
      ensures app.State() == Saved(old(app.State())).(buffer := Pasted(Deleted(old(app.buffer.State()), start, end), start,
                                                                      old(app.clipboard.samples)),
                                                      unsavedChanges := true)
    {
      app.SaveState();
      var _ := app.buffer.DeleteRegion(start, end);
      var _ := app.buffer.PasteFrom(start, app.clipboard);
      app.unsavedChanges := true;
      selection := Deselected;
    }

    method OnActionNew()
      requires Valid()
      modifies app, app.buffer
      ensures Valid() && State() == NewDocument(old(State()))
    {
      app.buffer.Init(2, 44100);
      app.filePath := "";
      app.unsavedChanges := false;
    }

    method OnActionUndo()
      requires Valid()
      modifies app, app.buffer
      ensures Valid() && State() == old(State()).(app := Undone(old(State()).app))
    {
      app.UndoState();
    }
  }

  // ---------------------------------------------------------------------
  // Properties of the dispatcher

  /** Delete, Copy and Cut do nothing without a region; Paste does nothing
      without a marker or a region. */
  lemma SelectionGuards(st: EditorState, action: Action)
    requires CanPerform(st, action) && !Mutates(st, action) && (action != Copy || st.selection != Region)
    ensures Performed(st, action) == st
  {
  }

  /** An action that changes the working buffer pushes exactly one snapshot,
      of the buffer as it was, and marks the document changed; any other
      action leaves the buffer, the stack and the flag alone. */
  lemma SnapshotDiscipline(st: EditorState, action: Action)
    requires CanPerform(st, action)
    ensures Mutates(st, action) ==>
              Performed(st, action).app.history == st.app.history + [st.app.buffer]
              && Performed(st, action).app.unsavedChanges
    ensures !Mutates(st, action) ==>
              Performed(st, action).app.history == st.app.history
              && Performed(st, action).app.buffer == st.app.buffer
              && Performed(st, action).app.unsavedChanges == st.app.unsavedChanges
  {
  }

  /** Every action that changes the working buffer clears the selection,
      except a paste at a marker, which keeps the marker; the other actions
      keep the selection. */
  lemma SelectionAfterAction(st: EditorState, action: Action)
    requires CanPerform(st, action)
    ensures Performed(st, action).selection
            == if Mutates(st, action) && !(action == Paste && st.selection == Marker) then Deselected
               else st.selection
  {
  }

  /** Copy changes the clipboard only, and only when the selection is a
      region that holds a frame once clamped. */
  lemma CopyTouchesOnlyClipboard(st: EditorState)
    requires CanPerform(st, Copy)
    ensures Performed(st, Copy).app.buffer == st.app.buffer
    ensures Performed(st, Copy).selection == st.selection
    ensures Performed(st, Copy).app.clipboard
            == if st.selection == Region && RegionNonEmpty(st.app.buffer, SelectStart(st), SelectEnd(st))
               then Copied(st.app.buffer, SelectStart(st), SelectEnd(st))
               else st.app.clipboard
  {
  }

  /** Undo right after an action that changed the working buffer brings the
      buffer and the undo stack back; the clipboard a cut filled and the
      unsaved-changes flag stay as the action left them. */
  lemma UndoRevertsAction(st: EditorState, action: Action)
    requires CanPerform(st, action) && Mutates(st, action)
    ensures Undone(Performed(st, action).app)
            == st.app.(clipboard := Performed(st, action).app.clipboard, unsavedChanges := true)
  {
  }

  /** Cutting a non-empty region, placing a marker at its start and pasting
      gives back the original working buffer. */
  lemma CutThenPasteRestores(st: EditorState)
    requires CanPerform(st, Cut) && st.selection == Region && 0 <= SelectStart(st)
    requires RegionNonEmpty(st.app.buffer, SelectStart(st), SelectEnd(st))
    ensures var cut := Performed(st, Cut);
            var marked := cut.(selection := Marker, selectionA := SelectStart(st), selectionB := SelectStart(st));
            CanPerform(marked, Paste) && Performed(marked, Paste).app.buffer == st.app.buffer
  {
    CutPasteRoundTrip(st.app.buffer, SelectStart(st), SelectEnd(st));
  }

  /** Pasting over a region that starts inside the buffer replaces it: the
      region's frames go and the clipboard's samples take their place. */
  lemma PasteOverRegion(st: EditorState)
    requires CanPerform(st, Paste) && st.selection == Region
    requires SelectStart(st) <= st.app.buffer.numFrames
    ensures 0 <= SelectStart(st) * st.app.buffer.numChannels
               <= Clamp(st.app.buffer, SelectEnd(st)) * st.app.buffer.numChannels
               <= |st.app.buffer.samples|
    ensures Performed(st, Paste).app.buffer.samples
            == st.app.buffer.samples[..SelectStart(st) * st.app.buffer.numChannels]
               + st.app.clipboard.samples
               + st.app.buffer.samples[Clamp(st.app.buffer, SelectEnd(st)) * st.app.buffer.numChannels..]
    ensures |Performed(st, Paste).app.buffer.samples|
            == |st.app.buffer.samples|
               - (Clamp(st.app.buffer, SelectEnd(st)) - SelectStart(st)) * st.app.buffer.numChannels
               + |st.app.clipboard.samples|
  {
    var b := st.app.buffer;
    var ch := b.numChannels;
    var s := Clamp(b, SelectStart(st));
    var e := Clamp(b, SelectEnd(st));
    assert s == SelectStart(st);
    var d := Deleted(b, SelectStart(st), SelectEnd(st));
    DeleteRegionEffect(b, SelectStart(st), SelectEnd(st));
    RegionOffsets(|b.samples|, ch, s, e);
    assert s <= d.numFrames;
    PasteFromEffect(d, s, st.app.clipboard.samples);
    assert d.samples[..s * ch] == b.samples[..s * ch];
    assert d.samples[s * ch..] == b.samples[e * ch..];
  }

  /** New takes no snapshot: an undo right after it brings back the newest
      snapshot taken before, not the discarded document, and with an empty
      stack the new empty buffer stays. */
  lemma UndoAfterNew(st: EditorState)
    ensures |st.app.history| > 0 ==>
              Undone(NewDocument(st).app).buffer == st.app.history[|st.app.history| - 1]
    ensures |st.app.history| == 0 ==> Undone(NewDocument(st).app).buffer == StartBuffer
  {
  }
}
