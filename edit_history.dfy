/** The application object: the working buffer, the clipboard, the stack of
    undo snapshots and the document flags, with `save_state` and
    `undo_state`.  A snapshot is a full copy of the working buffer, so the
    history is a sequence of BufferState values. */
module EditHistory {
  import opened SampleBuffer

  /** The value of every modelled field of the application object. */
  datatype AppState = AppState(
    buffer: BufferState,
    clipboard: BufferState,
    history: seq<BufferState>,
    filePath: string,
    unsavedChanges: bool)

  /** Every snapshot was taken of an initialised buffer. */
  predicate SnapshotsConsistent(history: seq<BufferState>) {
    forall k :: 0 <= k < |history| ==> Consistent(history[k])
  }

  /** The working buffer and every snapshot are initialised buffers. */
  predicate Wellformed(st: AppState) {
    Consistent(st.buffer) && SnapshotsConsistent(st.history)
  }

  /** The working buffer `run_app` starts with: empty stereo at 44.1 kHz. */
  const StartBuffer := BufferState([], 0, 44100, 2)

  /** `save_state` on a value: push a copy of the working buffer. */
  function Saved(st: AppState): (r: AppState)
    ensures Wellformed(st) ==> Wellformed(r)
    ensures |r.history| == |st.history| + 1 && r.history[..|st.history|] == st.history
    ensures r.history[|st.history|] == st.buffer
    ensures r.buffer == st.buffer && r.clipboard == st.clipboard
    ensures r.filePath == st.filePath && r.unsavedChanges == st.unsavedChanges
  {
    st.(history := st.history + [st.buffer])
  }

  /** `undo_state` on a value: with no snapshot nothing happens; otherwise
      the last snapshot becomes the working buffer and is popped. */
  function Undone(st: AppState): (r: AppState)
    ensures Wellformed(st) ==> Wellformed(r)
  {
    if |st.history| == 0 then st
    else st.(buffer := st.history[|st.history| - 1], history := st.history[..|st.history| - 1])
  }

  class App {
    const buffer: AudioBuffer
    const clipboard: AudioBuffer
    var history: seq<BufferState>
    var filePath: string
    var unsavedChanges: bool

    function State(): AppState
      reads this, buffer, clipboard
    {
      AppState(buffer.State(), clipboard.State(), history, filePath, unsavedChanges)
    }

    predicate Valid()
      reads this, buffer, clipboard
    {
      buffer != clipboard && Wellformed(State())
    }

    /** The set-up `run_app` performs before the window opens. */
    constructor RunApp()
      ensures Valid() && fresh(buffer) && fresh(clipboard)
      ensures State() == AppState(StartBuffer, DefaultState, [], "", false)
    {
      var b := new AudioBuffer();
      b.Init(2, 44100);
      var c := new AudioBuffer();
      buffer, clipboard := b, c;
      history, filePath, unsavedChanges := [], "", false;
    }

    method SaveState()
      modifies this
      ensures State() == Saved(old(State()))
    {
      history := history + [buffer.State()];
    }

    method UndoState()
      requires Valid()
      modifies this, buffer
      ensures Valid() && State() == Undone(old(State()))
    {
      if |history| == 0 {
        return;
      }
      buffer.Assign(history[|history| - 1]);
      history := history[..|history| - 1];
    }
  }

  // ---------------------------------------------------------------------
  // Properties of the snapshot stack

  /** Undo right after a save gives back the state before the save. */
  lemma SaveThenUndo(st: AppState)
    ensures Undone(Saved(st)) == st
  {
  }

  /** An edit: save a snapshot, then replace the working buffer. */
  function Edited(st: AppState, next: BufferState): (r: AppState)
    ensures r.history == st.history + [st.buffer] && r.buffer == next
    ensures r.clipboard == st.clipboard && r.filePath == st.filePath && r.unsavedChanges == st.unsavedChanges
  {
    Saved(st).(buffer := next)
  }

  /** Undo after an edit restores the working buffer and the stack, whatever
      the edit did to the buffer. */
  lemma UndoAfterEdit(st: AppState, next: BufferState)
    ensures Undone(Edited(st, next)) == st
  {
  }

  /** With an empty stack, undo changes nothing; with a non-empty stack it
      brings back exactly the newest snapshot and shortens the stack by one. */
  lemma UndoEffect(st: AppState)
    ensures |st.history| == 0 ==> Undone(st) == st
    ensures |st.history| > 0 ==>
              Undone(st).buffer == st.history[|st.history| - 1]
              && Undone(st).history == st.history[..|st.history| - 1]
              && Undone(st).clipboard == st.clipboard
              && Undone(st).unsavedChanges == st.unsavedChanges
  {
  }

  /** A run of edits, one per buffer in `nexts`, applied in order. */
  function EditAll(st: AppState, nexts: seq<BufferState>): (r: AppState)
    decreases |nexts|
  {
    if |nexts| == 0 then st else EditAll(Edited(st, nexts[0]), nexts[1..])
  }

  /** `n` undos in a row. */
  function UndoTimes(st: AppState, n: nat): AppState {
    if n == 0 then st else Undone(UndoTimes(st, n - 1))
  }

  /** After k edits the stack has grown by k snapshots: the buffer before the
      first edit and the results of all edits but the last. */
  lemma {:induction false} EditAllHistory(st: AppState, nexts: seq<BufferState>)
    requires |nexts| > 0
    ensures EditAll(st, nexts).history == st.history + [st.buffer] + nexts[..|nexts| - 1]
    ensures EditAll(st, nexts).buffer == nexts[|nexts| - 1]
    decreases |nexts|
  {
    if |nexts| > 1 {
      var st1 := Edited(st, nexts[0]);
      EditAllHistory(st1, nexts[1..]);
      assert nexts[1..][..|nexts| - 2] == nexts[1..|nexts| - 1];
      assert [nexts[0]] + nexts[1..|nexts| - 1] == nexts[..|nexts| - 1];
    }
  }

  /** k edits followed by k undos give back the state before the edits. */
  lemma {:induction false} UndoAllEdits(st: AppState, nexts: seq<BufferState>)
    ensures UndoTimes(EditAll(st, nexts), |nexts|) == st
    decreases |nexts|
  {
    if |nexts| > 0 {
      var st1 := Edited(st, nexts[0]);
      UndoAllEdits(st1, nexts[1..]);
      var top := EditAll(st, nexts);
      assert top == EditAll(st1, nexts[1..]);
      UndoTimesLast(top, |nexts|);
      UndoAfterEdit(st, nexts[0]);
    }
  }

  lemma UndoTimesLast(st: AppState, n: nat)
    requires n > 0
    ensures UndoTimes(st, n) == Undone(UndoTimes(st, n - 1))
  {
  }

  /** One undo beyond the edits made from an empty stack changes nothing. */
  lemma {:induction false} ExtraUndoIsNoop(st: AppState, nexts: seq<BufferState>)
    requires |st.history| == 0
    ensures UndoTimes(EditAll(st, nexts), |nexts| + 1) == st
  {
    UndoAllEdits(st, nexts);
  }

  /** A 100-frame mono buffer at 8 kHz loses frames
      [10, 20) on a delete, the stack holds the old buffer, and undo brings
      the 100 frames back and empties the stack. */
  lemma DeleteThenUndoExample(samples: seq<Sample>)
    requires |samples| == 100
    ensures var st := AppState(BufferState(samples, 100, 8000, 1), DefaultState, [], "", false);
            Edited(st, Deleted(st.buffer, 10, 20)).buffer.numFrames == 90
            && |Edited(st, Deleted(st.buffer, 10, 20)).history| == 1
            && Undone(Edited(st, Deleted(st.buffer, 10, 20))).buffer.numFrames == 100
            && Undone(Edited(st, Deleted(st.buffer, 10, 20))).history == []
  {
  }
}
