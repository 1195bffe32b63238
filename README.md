# AudioEditor core, modelled in Dafny

AudioEditor is a small Qt audio editor. Its logic is in four pieces, and this
project models all four:

- **`AudioBuffer`** (module `SampleBuffer`, properties in `SampleBufferProperties`).
  - It keeps interleaved multi-channel samples in one flat store, plus a cached frame count (`size / channels`), a sample rate and a channel count.
  - Every region edit clamps frame indices into `[0, num_frames]` (`limit_bounds`), multiplies them by the channel count and then erases, inserts, slices or scales the store.
  - The class `SampleBuffer.AudioBuffer` has the source's fields. Each method is proved against a function on `BufferState`, the value of all the fields. The lemmas say what those functions mean.
- **The undo history** (module `EditHistory`).
  - The application object holds the working buffer, the clipboard, a stack of full buffer snapshots, the file path and the unsaved-changes flag.
  - `save_state` pushes a copy of the buffer; `undo_state` pops the newest copy back into the buffer.
- **The edit dispatcher of the main window** (module `EditEngine`).
  - Delete, Copy, Paste and Cut act according to the waveform view's selection (deselected, a marker, or a region).
  - A snapshot is taken before every change to the buffer. New resets the document; Undo pops a snapshot.
- **The playback transport** (module `PlaybackTransport`).
  - It has an idle/playing state and a frame cursor.
  - The stream callback copies `min(requested, frames left)` frames into the device's output block, advances the cursor, and reports completion once the frames left fit in the block.

Samples are modelled as `real`. Frame indices, cursors and sizes are unbounded integers. The selection endpoints are frame indices.

## Model

| member | source | states |
|---|---|---|
| SampleBuffer.LimitBounds | src/audiobuffer.cpp:232-234 | the clamped position lies in [0, num_frames]; a position already in range is unchanged; one below 0 becomes 0 and one past the end becomes num_frames |
| SampleBufferProperties.LimitBoundsIdempotent | src/audiobuffer.cpp:232-234 | clamping an already clamped position changes nothing, so `cut_region` re-clamping inside `copy_region`/`delete_region` sees the same region |
| SampleBufferProperties.LimitBoundsMonotone | src/audiobuffer.cpp:232-234 | clamping keeps `start <= end` |
| SampleBuffer.Reframed | src/audiobuffer.cpp:227-230 | after `on_length_changed` the frame count is the store size divided by the channel count; rate and channels are kept |
| SampleBuffer.AudioBuffer.OnLengthChanged | src/audiobuffer.cpp:227-230 | only the frame count changes, to size / channels |
| SampleBuffer.AudioBuffer.constructor | src/audiobuffer.h:46-51 | a default buffer has an empty store, 0 frames, sample rate -1 and channel count -1 |
| SampleBuffer.AudioBuffer.FromSamples | src/audiobuffer.cpp:12-16 | the vector constructor takes channels, rate and samples and computes the frame count |
| SampleBuffer.AudioBuffer.Init | src/audiobuffer.cpp:18-23 | `init` sets channels and rate, empties the store and leaves 0 frames |
| SampleBuffer.AudioBuffer.Assign | src/app.cpp:31 | the buffer copy assignment: every field takes the snapshot's value |
| SampleBuffer.AudioBuffer.GetNumFrames | src/audiobuffer.h:27 | on an initialised buffer, the cached frame count equals size / channels and is non-negative |
| SampleBuffer.AudioBuffer.GetNumChannels | src/audiobuffer.h:28 | a plain read of the channel count |
| SampleBuffer.AudioBuffer.GetSampleRate | src/audiobuffer.h:29 | a plain read of the sample rate |
| SampleBuffer.AudioBuffer.IsStereo | src/audiobuffer.h:33 | true exactly when the channel count is 2 |
| SampleBuffer.AudioBuffer.GetRawPointer | src/audiobuffer.h:35-37 | null exactly when the store is empty, otherwise the address of element 0 |
| SampleBuffer.AudioBuffer.GetSamples | src/audiobuffer.h:39-41 | the store itself |
| SampleBufferProperties.InterleavedLayout | src/audiobuffer.h:47 | raw index `frame * ch + channel` belongs to exactly that frame and that channel |
| SampleBuffer.Deleted | src/audiobuffer.cpp:124-137 | `delete_region` on a value: channels and rate kept, the frame count drops by the clamped region's width |
| SampleBuffer.AudioBuffer.DeleteRegion | src/audiobuffer.cpp:124-137 | returns true exactly when the clamped region holds a frame; the new fields are `Deleted` of the old |
| SampleBufferProperties.DeleteRegionEffect | src/audiobuffer.cpp:124-137 | an empty clamped region changes nothing; otherwise the store becomes `old[..s*ch] + old[e*ch..]` and the frame count drops by e - s |
| SampleBufferProperties.DeletePastEndIsNoop | src/audiobuffer.cpp:126-129 | a region starting at or past the end (`num_frames`) is empty once clamped, and deleting it (once or twice) is a no-op |
| SampleBuffer.Copied | src/audiobuffer.cpp:187-201 | the copy has the source's channels and rate and as many frames as the clamped region |
| SampleBuffer.AudioBuffer.CopyRegion | src/audiobuffer.cpp:187-201 | the source buffer is not modified; on an empty clamped region it returns false and `to` is untouched, otherwise `to` becomes `Copied` |
| SampleBufferProperties.CopiedFrames | src/audiobuffer.cpp:194-198 | the clip holds (e - s) * ch samples, and its frame i, channel c is the source's frame s + i, channel c |
| SampleBufferProperties.CopiedSlice | src/audiobuffer.cpp:194-198 | the clip's store is the raw slice `[s * ch, e * ch)` of the source store, with both offsets inside it |
| SampleBufferProperties.CopyStereoExample | src/audiobuffer.cpp:187-201 | copying frames [1, 3) of a four-frame stereo buffer yields the two middle frames as a two-frame stereo buffer |
| SampleBuffer.AudioBuffer.CutRegion | src/audiobuffer.cpp:203-213 | copy then delete on the same clamped region: `to` gets the removed slice, the buffer loses it, and the result says whether the region held a frame |
| SampleBuffer.Padded | src/audiobuffer.cpp:139-145 | `insert_silence` appends `num_frames * ch` zeros at the end (its `where` is ignored); a non-positive count changes nothing |
| SampleBuffer.AudioBuffer.InsertSilence | src/audiobuffer.cpp:139-145 | the push_back loop leaves the buffer equal to `Padded` of the old one |
| SampleBuffer.Pasted | src/audiobuffer.cpp:215-225 | the new length is old length + padding `max(0, where - num_frames) * ch` + clip length, and the clip sits whole at raw offset `where * ch` |
| SampleBuffer.AudioBuffer.PasteFrom | src/audiobuffer.cpp:215-225 | always returns true; the new fields are `Pasted` of the old with the other buffer's samples |
| SampleBufferProperties.PasteFromEffect | src/audiobuffer.cpp:215-225 | inside the buffer the clip is spliced in at `where * ch`; at or past the end (store of whole frames) the result is old store + zero padding + clip |
| SampleBufferProperties.PasteMismatchedClip | src/audiobuffer.cpp:220-223 | nothing checks the clip's channel count: a clip that is not a whole number of frames leaves a partial frame in the store |
| SampleBufferProperties.CutPasteRoundTrip | src/audiobuffer.cpp:203-225 | cutting a non-empty region and pasting the clip back at its start restores the buffer exactly |
| SampleBufferProperties.CopyPasteKeepsRegion | src/audiobuffer.cpp:187-225 | copying a region and pasting it at its start leaves the region's samples at their old raw offsets |
| SampleBuffer.Amplified | src/audiobuffer.cpp:171-185 | `amplify_region` on a value: the length, frame count, rate and channels are unchanged |
| SampleBuffer.AudioBuffer.AmplifyRegion | src/audiobuffer.cpp:171-185 | the in-place loop leaves the buffer equal to `Amplified` of the old one |
| SampleBuffer.ScaledRange | src/audiobuffer.cpp:176-184 | the amplify loop over frames [lo, hi), written turn by turn, keeps the store length; `ScaledRangeAt` gives its closed form |
| SampleBuffer.ScaledRangeAt | src/audiobuffer.cpp:176-184 | after the loop over frames [lo, hi), a raw index is multiplied by the gain exactly when it is `channel` of one of those frames; every other sample keeps its value |
| SampleBufferProperties.AmplifiedEffect | src/audiobuffer.cpp:176-184 | every sample `i*ch + channel` of a clamped-region frame that lies in the store is multiplied by the gain |
| SampleBufferProperties.AmplifiedElsewhere | src/audiobuffer.cpp:176-184 | every other sample keeps its value |
| SampleBuffer.Amplitude | src/audiobuffer.cpp:105-121 | the scan starts from (max, min) = (-2, 2), so max is never below -2 and min never above 2 |
| SampleBuffer.AmplitudeBounds | src/audiobuffer.cpp:108-121 | every scanned sample of the channel lies between the returned min and max |
| SampleBuffer.AmplitudeAttained | src/audiobuffer.cpp:108-121 | each of max and min is its initial value or one of the scanned samples |
| SampleBuffer.ScanEnd | src/audiobuffer.cpp:105-106 | a non-empty range is scanned to its end, an empty one as the single frame `start` (end `start + 1`), so `start <= end` always scans at least one frame; a reversed range scans nothing |
| SampleBuffer.AudioBuffer.SampleAmplitude | src/audiobuffer.cpp:100-122 | for any start and end the loop returns `Amplitude` over `[start, ScanEnd(start, end))`: an empty range is scanned as one frame, and a reversed one yields (-2, 2) |
| SampleBufferProperties.AmplitudeOfNothing | src/audiobuffer.cpp:108-121 | with no scanned index inside the store, the result is (-2, 2) |
| SampleBuffer.NormalizeGain | src/audiobuffer.cpp:160-164 | the gain is positive, at most 1 / 0.0001, and scales both extrema into [-1, 1] |
| SampleBuffer.RegionGain | src/audiobuffer.cpp:154-164 | the gain for the region, derived from channel 0's extrema, is positive and at most 1 / 0.0001 |
| SampleBuffer.ScaledChannels | src/audiobuffer.cpp:166-168 | scaling channel 0, and channel 1 when stereo, keeps length, frames, rate and channels |
| SampleBuffer.Normalized | src/audiobuffer.cpp:147-169 | `normalize_region` on a value: length, frames, rate and channels unchanged |
| SampleBuffer.AudioBuffer.NormalizeRegion | src/audiobuffer.cpp:147-169 | the buffer becomes `Normalized` of the old one |
| SampleBufferProperties.NormalizeEmptyIsNoop | src/audiobuffer.cpp:148-152 | an empty clamped region is left alone |
| SampleBufferProperties.NormalizedPeak | src/audiobuffer.cpp:154-166 | after normalising, no channel-0 sample of the region has magnitude above 1 |
| SampleBufferProperties.NormalizedOneGain | src/audiobuffer.cpp:147-169 | normalising multiplies channel 0, and channel 1 of a stereo buffer, of every clamped-region frame by the one gain derived from channel 0 |
| SampleBufferProperties.NormalizedOutside | src/audiobuffer.cpp:147-169 | normalising leaves every sample outside the clamped region's raw range unchanged |
| SampleBufferProperties.ScaledPeak | src/audiobuffer.cpp:160-168 | any positive gain that maps both channel-0 extrema into [-1, 1] maps every channel-0 sample of the region into [-1, 1] |
| SampleBufferProperties.ScaledChannelsAt | src/audiobuffer.cpp:166-168 | channel 0 of each region frame is multiplied by the one gain, whether or not channel 1 is scaled too |
| SampleBufferProperties.ScaledChannelsSecond | src/audiobuffer.cpp:166-168 | channel 1 of each frame of a stereo region is multiplied by the same gain as channel 0 |
| SampleBufferProperties.ScaledChannelsOneGain | src/audiobuffer.cpp:166-168 | channel 0, and channel 1 when stereo, of every region frame are multiplied by the one gain |
| SampleBufferProperties.ScaledChannelsOutside | src/audiobuffer.cpp:171-185 | every sample outside the raw range `[s * ch, e * ch)` keeps its value |
| SampleBufferProperties.OutsideChannelRegion | src/audiobuffer.cpp:176-177 | a raw index outside `[lo * ch, hi * ch)` belongs to no frame of [lo, hi) on any channel below ch |
| SampleBufferProperties.OtherChannelUntouched | src/audiobuffer.cpp:167-168 | scaling channel 1 of a stereo store never touches a channel-0 sample |
| EditHistory.Saved | src/app.cpp:23-25 | `save_state` on a value: the old stack stays as the prefix and the buffer is pushed on top; buffer, clipboard, path and flag are unchanged |
| EditHistory.App.SaveState | src/app.cpp:23-25 | the application state becomes `Saved` of the old |
| EditHistory.Undone | src/app.cpp:27-33 | `undo_state` on a value keeps every snapshot an initialised buffer |
| EditHistory.App.UndoState | src/app.cpp:27-33 | the application state becomes `Undone` of the old, through the buffer's copy assignment |
| EditHistory.UndoEffect | src/app.cpp:27-33 | with an empty stack undo changes nothing; otherwise the buffer becomes the newest snapshot and exactly that snapshot is popped |
| EditHistory.SaveThenUndo | src/app.cpp:23-33 | save followed by undo restores buffer and stack |
| EditHistory.Edited | src/app.cpp:23-25 | an edit pushes the old buffer and then replaces the buffer, keeping clipboard, path and flag |
| EditHistory.UndoAfterEdit | src/app.cpp:23-33 | undo right after any edit restores the state before it |
| EditHistory.EditAllHistory | src/app.cpp:23-25 | after k edits, the stack is the old stack + the buffer before the first edit + the results of all edits but the last |
| EditHistory.UndoAllEdits | src/app.cpp:23-33 | k edits followed by k undos restore the state before the edits |
| EditHistory.UndoTimesLast | src/app.cpp:27-33 | n undos are n - 1 undos followed by one more |
| EditHistory.ExtraUndoIsNoop | src/app.cpp:27-29 | from an empty stack, one undo beyond the edits made changes nothing |
| EditHistory.DeleteThenUndoExample | src/app.cpp:23-33 | a 100-frame mono buffer loses frames [10, 20), the stack holds one snapshot, and undo brings back 100 frames and an empty stack |
| EditHistory.App.RunApp | src/app.cpp:14-15 | the application starts with an empty stereo 44100 Hz buffer, a default clipboard, no snapshots, no path and no unsaved changes |
| EditEngine.Performed | src/gui/mainwindow.cpp:111-159 | `perform_action` on a value keeps every buffer in the state initialised |
| EditEngine.SelectStart | src/gui/mainwindow.cpp:112 | the selection start is the smaller endpoint: at most both, and equal to one of them |
| EditEngine.SelectEnd | src/gui/mainwindow.cpp:113 | the selection end is the larger endpoint: at least both, equal to one of them, and never below the start |
| EditEngine.MainWindow.PerformAction | src/gui/mainwindow.cpp:111-159 | the dispatcher's calls into the buffer and the history leave the state equal to `Performed` of the old |
| EditEngine.MainWindow.PasteOverSelection | src/gui/mainwindow.cpp:137-142 | the region branch of Paste pushes a snapshot, leaves the old buffer with the region deleted and the clipboard pasted at its start, sets the dirty flag, drops the selection and keeps both endpoints |
| EditEngine.MainWindow.constructor | src/gui/audiowidget.h:57-59 | the window starts with no selection and both endpoints at 0 |
| EditEngine.SelectionGuards | src/gui/mainwindow.cpp:119-152 | Delete, Copy and Cut do nothing without a region, and Paste does nothing without a marker or a region |
| EditEngine.SnapshotDiscipline | src/gui/mainwindow.cpp:119-152 | an action that changes the buffer pushes exactly one snapshot of the old buffer and sets the dirty flag, even when the clamped region turns out empty; other actions leave buffer, stack and flag alone |
| EditEngine.SelectionAfterAction | src/gui/mainwindow.cpp:124-148 | every buffer-changing action clears the selection, except a paste at a marker, which keeps the marker |
| EditEngine.CopyTouchesOnlyClipboard | src/gui/mainwindow.cpp:127-131 | Copy leaves the buffer and the selection, and replaces the clipboard only for a region that holds a frame |
| EditEngine.UndoRevertsAction | src/gui/mainwindow.cpp:119-166 | undo right after a buffer-changing action restores the buffer and the stack; the clipboard and the dirty flag stay as the action left them |
| EditEngine.CutThenPasteRestores | src/gui/mainwindow.cpp:133-151 | cutting a non-empty region, placing a marker at its start and pasting gives back the original buffer |
| EditEngine.PasteOverRegion | src/gui/mainwindow.cpp:137-142 | pasting over a region that starts inside the buffer yields old store up to `start * ch`, then the clipboard's samples, then old store from the clamped `end * ch`; the two offsets lie inside the store and the length follows |
| EditEngine.NewDocument | src/gui/mainwindow.cpp:36-39 | New sets an empty stereo 44100 Hz buffer, an empty path and a clear flag, and keeps the stack, the clipboard and the selection |
| EditEngine.MainWindow.OnActionNew | src/gui/mainwindow.cpp:36-43 | the state becomes `NewDocument` of the old |
| EditEngine.MainWindow.OnActionUndo | src/gui/mainwindow.cpp:161-166 | Undo is `undo_state` on the application state; the selection is kept |
| EditEngine.UndoAfterNew | src/gui/mainwindow.cpp:36-39 | New takes no snapshot, so undo after it brings back the newest earlier snapshot, or keeps the new empty buffer when there is none |
| PlaybackTransport.AudioInterface.constructor | src/audiointerface.h:23-24 | the transport starts idle with the cursor at frame 0 |
| PlaybackTransport.AudioInterface.SetPos | src/audiointerface.cpp:47-52 | the cursor moves only while idle; the state never changes |
| PlaybackTransport.AudioInterface.Play | src/audiointerface.cpp:54-94 | playing starts only from idle with the cursor before the end; otherwise nothing changes; the cursor is kept |
| PlaybackTransport.AudioInterface.Stop | src/audiointerface.cpp:100-108 | a stop is requested exactly when not idle, and the state is left as it was |
| PlaybackTransport.AudioInterface.StreamFinished | src/audiointerface.cpp:40-45 | the end of the stream returns the transport to idle and keeps the cursor |
| PlaybackTransport.CallbackFrames | src/audiointerface.cpp:16-18 | the frames copied are at most the frames asked for and never run past the end; fewer only when the end is reached |
| PlaybackTransport.CallbackOutcome | src/audiointerface.cpp:36-37 | the callback reports completion exactly when it leaves the cursor at the end, `num_frames` |
| PlaybackTransport.AudioInterface.PlaybackCallback | src/audiointerface.cpp:9-38 | output sample k is store sample `pos * width + k` for every k below frames copied * width, every later output entry is untouched, the buffer is not written, the cursor advances by the frames copied, and the result is Complete exactly when the frames left fit in the block |
| PlaybackTransport.CopyBounds | src/audiointerface.cpp:19-32 | the samples the callback reads lie inside the store |
| PlaybackTransport.CursorAfter | src/audiointerface.cpp:36 | repeated callbacks never move the cursor backwards or past the end |
| PlaybackTransport.CursorClosedForm | src/audiointerface.cpp:16-36 | after n callbacks of `requested` frames the cursor is `min(num_frames, pos + n * requested)` |
| PlaybackTransport.CompletesOnLastBlock | src/audiointerface.cpp:16-37 | with a positive block size, callback j completes the stream exactly when `pos + (j + 1) * requested >= num_frames`, so only the block that reaches the end does |

## Left out

- File I/O: `load_from_file` and `save_to_file` are libsndfile calls and error dialogs.
- `init_from_samples` is declared in `src/audiobuffer.h` but defined nowhere in the source, so it is not modelled.
- Floating point: samples and the gain are `real`, so 32-bit float rounding is not modelled.
- Duration and time conversion are double arithmetic: `m_total_duration`, `get_duration`, `get_frame` and `get_time` are not modelled.
- The selection's conversion from view time to frames is not modelled either.
  - The dispatcher calls `get_sample_index`, which `src/audiobuffer.h` does not declare; the nearest getter is `get_frame`.
  - The selection endpoints are modelled directly as frame indices.
- Integer widths: the `int64_t`/`uint64_t` indices and the `size_t` comparisons are unbounded integers.
  - Region edits clamp their frame indices first, so their raw offsets stay within the store size and cannot wrap.
  - `sample_amplitude` computes `i * m_num_channels + channel` from an unclamped `start`; for a `start` near the `int64_t` limits that product overflows in the source, which the model does not capture.
- The PortAudio stream set-up in `play`, and the device and audio thread, are not modelled. `Play` records only the state change; `Stop` reports whether a stop request is sent.
- Concurrency: the callback reads the working buffer while the user can edit it. The model assumes no edit runs during a callback.
- User interface: repaint, title and status-bar updates, file dialogs, widget painting and mouse handling.
- Redo only asserts, and TRIM has no handler, so neither is modelled. `record()` is an empty stub.
- `last_dir`, the interface object and the main-window pointer are not part of `AppState`.
- In `normalize_region`, channel 1's `sample_amplitude` call is dead: its results are never used, so the model does not make it.
  - `sample_amplitude` hands back (max, min) into variables named (left_min, left_max).
  - The gain depends only on the absolute values, so the swap is harmless and the model keeps it as written.
- The `Q_ASSERT`s are debug-only checks.
  - Several region methods assert `start < end`; they are given the weaker `requires start <= end`: SampleBuffer.AudioBuffer.DeleteRegion, SampleBuffer.AudioBuffer.CopyRegion, SampleBuffer.AudioBuffer.CutRegion and SampleBuffer.AudioBuffer.AmplifyRegion.
  - The dispatcher's min and max guarantee `start <= end`. On an empty clamped region each method returns early.
  - The `sample_rate > 0` asserts are not required.
  - `sample_amplitude`'s `end >= start` assert is not required either. The waveform view can pass a reversed range, and the scan then returns (-2, 2).
- SampleBuffer.AudioBuffer.FromSamples: requires a positive channel count, because the frame count divides by it.
- SampleBuffer.Pasted: requires `where >= 0`, because a negative insertion offset is undefined in the source.
- EditEngine.MainWindow.PerformAction: for a paste at a marker or over a region it requires a non-negative selection start, for the same reason.
- SampleBufferProperties.PasteFromEffect: the case past the end is stated only for a store of whole frames.
  - After a mismatched paste leaves a partial frame of r samples, the padding is counted in whole frames from the truncated frame count.
  - The clip then lands r samples before the end of the padded store: before the last r padding zeros, or, when `where == num_frames`, before the partial frame's own samples. `Pasted` still models that case exactly.
- PlaybackTransport.AudioInterface.PlaybackCallback: requires the cursor to be at or before the end (`num_frames`), since `frames_left` is unsigned and would wrap.
  - This holds whenever playback was started by `Play` and the buffer was not shortened meanwhile.
  - It also requires that the output block has room for `requested` frames of the copied width.
- The callback copies a buffer with more than two channels one sample per frame, exactly as the source does. Loading such a file is ruled out only by a debug assertion.
