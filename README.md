# Loop recorder of the live-reload game boilerplate, in Dafny

The dev client runs a hosted game module that can be reloaded while it runs. To edit
code against one stretch of play, it has a loop recorder (`LoopContext`,
`dev-client/src/loop_context.rs`). Alt+L starts a recording: it snapshots the hosted
state and then logs, slot by slot, the input events of every frame. A second Alt+L
starts playback. Playback substitutes the recorded slots for live input, in order, and
when the log runs out it reloads the snapshot and starts again, endlessly. A third Alt+L
ends playback and enqueues `ClearInputs`, so that no key stays held.

This project models that recorder, the frame orchestrator of `dev-client/src/main.rs`,
and the input handling of the hosted module (`dev-client-lib/src/state.rs`). It proves
that the recorder keeps its invariant, that the loop replays exactly what was recorded,
and what the hosted module's key state is at every frame of a recording and of its
playback.

Modules, one per file:

- `Wrappers` (`wrappers.dfy`): `Option`.
- `HostApi` (`host_api.dfy`): the `Key` and `Event` datatypes of the host interface.
  Also the orchestrator's event queue (`EVENTS` with `poll_events`), as a class over a
  sequence.
- `KeyState` (`key_state.dfy`): the four key flags of the hosted `State`.
  - `Dispatch` is the pure event dispatcher.
  - `Drain` is the left fold of the drain loop.
  - `HeldAfter` is an independent reference definition: the last event about a key decides
    whether it is held.
  - The class `State` is proved against these.
- `LiveReload` (`live_reload.dfy`): the `Reloadable` handle as the orchestrator uses it.
  It offers `save_state`, `load_state` and `update`. The snapshot type is the hosted key
  flags.
- `LoopModel` (`loop_model.dfy`): the recorder's five fields as a value (`LoopState`).
  - It has one transition function per method of `LoopContext` and the invariant `Inv`,
    which includes mode exclusivity.
  - Session lemmas cover looping and replay fidelity when the methods are called
    directly.
- `LoopRecorder` (`loop_context.dfy`): the class `LoopContext` with the same fields.
  - Every method is proved to move `Model()` exactly as its `LoopModel` transition does.
  - Each method also states what it does to the hosted state through the `Reloadable`.
- `DevClient` (`dev_client.dfy`): the orchestrator.
  - `SdlEvent` is reduced to key code, repeat bit and Alt state.
  - `dispatch_event` has its mode cycle and arrow mapping.
  - The per-frame block (poll, `begin_frame`, mirror or substitute) and the hosted
    `update` are both modelled.
  - `World` is the whole state as a value. The methods over the real objects are proved to
    equal the functions over `World`.
- `Replay` (`replay.dfy`): what the hosted key state goes through across the frames of
  main.rs, from the frame that starts a recording, through its playback, to the frame
  that ends it.

How the source is read:

- **Panics become preconditions.** The `assert!`s, the `unwrap`s and the slot indexing are
  the `requires` of the corresponding members. `Inv` shows that the orchestrator never
  violates them.
- **Mode exclusivity holds for every call sequence.** It is not limited to the Alt+L
  sequence of main.rs. `begin_recording` called during playback does not turn recording
  on beside playback. Its own `begin_frame` wraps the new one-slot log, which calls
  `begin_playback`, which ends the recording. The recorder is then playing back a log of
  one empty slot (`LoopModel.BeginRecording`). main.rs never makes this call, because
  Alt+L during playback ends playback.
- **Slot 0 of a recording made by main.rs is always empty.** The toggle's
  `begin_recording` opens slot 0, and the same frame's `begin_frame` opens slot 1 for that
  frame's input. Likewise, the `begin_frame` of the frame that starts playback moves the
  cursor straight to slot 1. So each pass of the loop after the first begins with a reload
  of the snapshot and one frame of no input (slot 0); this is `Replay.PlaybackContinues`
  on wrap-around. For the key flags that frame changes nothing. The hosted module's
  position integration, which is not modelled, runs one extra frame per loop.

## Model

| member | source | states |
|---|---|---|
| `HostApi.EventQueue.constructor` | dev-client/src/main.rs:58-59 | the orchestrator's event queue starts empty |
| `HostApi.EventQueue.PollEvents` | dev-client/src/main.rs:70-72 | an empty queue yields nothing and stays empty; otherwise the front event is removed and returned, the rest kept in order |
| `HostApi.EventQueue.PushBack` | dev-client/src/main.rs:144 | the event is appended at the back and nothing else changes |
| `HostApi.EventQueue.Clear` | dev-client/src/main.rs:142 | the queue is emptied |
| `KeyState.FlagsByKey` | dev-client-lib/src/state.rs:73-76 | two key states that agree on every key are equal (the four flags are the whole state); `KeyState.DispatchDetermined` rests on it |
| `KeyState.Dispatch` | dev-client-lib/src/state.rs:129-146 | `ClearInputs` releases every key; a press (release) of `k` sets (clears) exactly `k`'s flag and keeps the other three |
| `KeyState.DispatchDetermined` | dev-client-lib/src/state.rs:129-146 | any flags meeting the per-key clauses of `KeyState.Dispatch` are the flags it computes, so those clauses specify dispatch completely |
| `KeyState.DispatchIdempotent` | dev-client-lib/src/state.rs:129-146 | dispatching the same event twice has the effect of dispatching it once |
| `KeyState.Drain` | dev-client-lib/src/state.rs:106-108 | draining an empty queue changes nothing; otherwise the last event drained is honoured: after a final `ClearInputs` every key is released, after a final press (release) of `k` the key `k` is held (released) |
| `KeyState.DrainAppend` | dev-client-lib/src/state.rs:106-108 | draining `a + b` is draining `a` and then `b` |
| `KeyState.DrainHeldAfter` | dev-client-lib/src/state.rs:106-108 | after a drain, a key is held exactly when the reference definition says so: the last press, release or clear that concerns it decides, and with none the initial flag stands |
| `KeyState.DrainAfterClear` | dev-client-lib/src/state.rs:131-136 | everything before a `ClearInputs` is forgotten: the result is the drain of the events after it from all-released |
| `KeyState.State.constructor` | dev-client-lib/src/state.rs:84-97 | a new hosted state has all four keys released |
| `KeyState.State.DispatchEvent` | dev-client-lib/src/state.rs:129-146 | the update in place has exactly the effect of `KeyState.Dispatch` |
| `KeyState.State.UpdateAndRender` | dev-client-lib/src/state.rs:104-108 | the drain loop empties the queue and leaves the flags equal to the fold of `Dispatch` over the queue's events in order |
| `LiveReload.Reloadable.constructor` | dev-client-lib/src/lib.rs:34-37 | the hosted module starts from a freshly made `State` with every key released |
| `LiveReload.Reloadable.SaveState` | dev-client/src/loop_context.rs:60 | the snapshot is the hosted state, unchanged |
| `LiveReload.Reloadable.LoadState` | dev-client/src/loop_context.rs:92 | afterwards the hosted state is the snapshot |
| `LiveReload.Reloadable.Update` | dev-client-lib/src/lib.rs:39-43 | `update` drains the whole queue into the hosted state and never asks to quit |
| `LoopModel.New` | dev-client/src/loop_context.rs:30-38 | a new recorder is idle, with no snapshot, an empty log and cursor 0, and satisfies the invariant |
| `LoopModel.BeginRecordingNewFrame` | dev-client/src/loop_context.rs:67-70 | one empty slot is appended after the unchanged existing slots; nothing else changes |
| `LoopModel.EndRecording` | dev-client/src/loop_context.rs:72-74 | recording is off, everything else is unchanged, and the invariant is kept |
| `LoopModel.EndPlayback` | dev-client/src/loop_context.rs:95-97 | playback is off, everything else is unchanged, and the invariant is kept |
| `LoopModel.EndRecordingIdempotent` | dev-client/src/loop_context.rs:72-74 | ending a recording twice is ending it once |
| `LoopModel.EndPlaybackIdempotent` | dev-client/src/loop_context.rs:95-97 | ending playback twice is ending it once |
| `LoopModel.BeginPlayback` | dev-client/src/loop_context.rs:83-93 | playback is on and recording off (entering playback ends recording first), the cursor is 0, log and snapshot are kept, and the invariant holds whenever a snapshot comes with a non-empty log |
| `LoopModel.BeginPlaybackNewFrame` | dev-client/src/loop_context.rs:101-107 | playback stays on over the unchanged log and snapshot; the cursor moves to `frameIndex + 1`, or, exactly when that reaches the end of the log, wraps to 0 with recording off; the invariant is kept |
| `LoopModel.PlaybackEvents` | dev-client/src/loop_context.rs:109-112 | the slot returned is one of the recorded slots; which one, `k` frames into playback, is stated by `LoopModel.PlaybackLoops` |
| `LoopModel.BeginFrame` | dev-client/src/loop_context.rs:49-56 | idle: no change; recording: one empty slot appended; playing back: the cursor moves on by one slot cyclically over the unchanged log, landing on 0 exactly when the snapshot is reloaded; the invariant is kept |
| `LoopModel.BeginRecording` | dev-client/src/loop_context.rs:58-65 | the snapshot is the hosted state and the log is one empty slot at cursor 0; recording is on exactly when playback was off, and playback is unchanged; the invariant holds afterwards from any state |
| `LoopModel.PushEvent` | dev-client/src/loop_context.rs:76-81 | the event is appended to the last slot; every other slot, the snapshot, the cursor and the modes are unchanged |
| `LoopModel.PushAll` | dev-client/src/main.rs:137-140 | mirroring a queue keeps the number of slots, the snapshot, the cursor, the modes and the invariant |
| `LoopModel.PushAllLog` | dev-client/src/main.rs:137-140 | mirroring a queue appends all its events, in order, to the current slot, and leaves the earlier slots as they were |
| `LoopModel.Frames` | dev-client/src/loop_context.rs:49-56 | any number of `begin_frame` calls keeps the invariant |
| `LoopModel.Cyclic` | dev-client/src/loop_context.rs:101-107 | the wrapped cursor is below the log length and equals the raw position before the first wrap |
| `LoopModel.CyclicSucc` | dev-client/src/loop_context.rs:101-107 | one more step moves the wrapped position on by one, or back to 0 from the last slot |
| `LoopModel.PlaybackLoops` | dev-client/src/loop_context.rs:99-112 | `k` frames into playback the cursor has moved `k` slots on, cyclically, over the unchanged log and snapshot, and the slot played is that slot; the snapshot is reloaded exactly when the next step completes a cycle |
| `LoopModel.Record` | dev-client/src/loop_context.rs:49-81 | a recording continued over several frames stays in recording, keeps its snapshot and gains one slot per frame |
| `LoopModel.RecordLog` | dev-client/src/loop_context.rs:49-81 | the slots gained are exactly the frames' events, in order |
| `LoopModel.OpenSlotAndFill` | dev-client/src/loop_context.rs:49-81 | one recorded frame adds exactly one slot, holding that frame's events |
| `LoopModel.FillOnlySlot` | dev-client/src/loop_context.rs:76-81 | pushing into a log of one empty slot makes that slot exactly the pushed events |
| `LoopModel.FirstFrame` | dev-client/src/loop_context.rs:58-65 | the frame that `begin_recording` opens holds exactly the events pushed in it |
| `LoopModel.Session` | dev-client/src/loop_context.rs:58-93 | recording a session and then calling `end_recording` and `begin_playback` leaves playback on at slot 0, with the recorded snapshot and the invariant |
| `LoopModel.SessionLog` | dev-client/src/loop_context.rs:58-93 | a session's log is its recorded frames, in order |
| `LoopModel.PlaybackFromStart` | dev-client/src/loop_context.rs:86-112 | from slot 0, the slot played `k` frames later is log slot `k` mod the length, and the snapshot is reloaded when `k + 1` completes a cycle |
| `LoopModel.ReplayFidelity` | dev-client/src/loop_context.rs:58-112 | replay fidelity and looping: after a session, frame `k` of playback plays the `k`-th recorded frame (cyclically), event for event, and the snapshot taken at `begin_recording` is reloaded exactly on wrap-around |
| `LoopRecorder.LoopContext.constructor` | dev-client/src/loop_context.rs:30-38 | the fields are those of `LoopModel.New`, so the invariant holds |
| `LoopRecorder.LoopContext.BeginFrame` | dev-client/src/loop_context.rs:49-56 | the fields move as `LoopModel.BeginFrame` says; the hosted state becomes the snapshot exactly when playback wraps, and is untouched otherwise |
| `LoopRecorder.LoopContext.BeginRecording` | dev-client/src/loop_context.rs:58-65 | the fields move as `LoopModel.BeginRecording` with the hosted state saved; the hosted state is the same afterwards |
| `LoopRecorder.LoopContext.BeginRecordingNewFrame` | dev-client/src/loop_context.rs:67-70 | the fields move as `LoopModel.BeginRecordingNewFrame` |
| `LoopRecorder.LoopContext.EndRecording` | dev-client/src/loop_context.rs:72-74 | the fields move as `LoopModel.EndRecording` |
| `LoopRecorder.LoopContext.PushEvent` | dev-client/src/loop_context.rs:76-81 | the fields move as `LoopModel.PushEvent` |
| `LoopRecorder.LoopContext.BeginPlayback` | dev-client/src/loop_context.rs:83-93 | the fields move as `LoopModel.BeginPlayback`, and the hosted state is the snapshot |
| `LoopRecorder.LoopContext.EndPlayback` | dev-client/src/loop_context.rs:95-97 | the fields move as `LoopModel.EndPlayback` |
| `LoopRecorder.LoopContext.BeginPlaybackNewFrame` | dev-client/src/loop_context.rs:99-107 | the cursor advances, restarting playback at the end of the log; the snapshot is reloaded exactly then |
| `LoopRecorder.LoopContext.PlaybackEvents` | dev-client/src/loop_context.rs:109-112 | the events returned are the slot under the cursor |
| `DevClient.KeycodeOf` | dev-client/src/main.rs:224-266 | no domain key is bound to L or to an unmapped code |
| `DevClient.KeyEvent` | dev-client/src/main.rs:224-266 | only a first press or release of an arrow key is forwarded, as a press (for a key-down) or release (for a key-up) of the key whose code it has, never as `ClearInputs`; every first press or release of an arrow key is forwarded |
| `DevClient.ArrowKey` | dev-client/src/main.rs:224-266 | exactly the four arrow codes map to a key, and each maps back to its own code |
| `DevClient.KeyEventExactly` | dev-client/src/main.rs:197-269 | an SDL event is forwarded as a press (release) of `k` exactly when it is a first press (release) of `k`'s arrow key; nothing is forwarded as `ClearInputs`, and the mode toggle forwards nothing |
| `DevClient.CycleMode` | dev-client/src/main.rs:208-221 | recording goes to playback at slot 0 with the snapshot loaded; playback goes to idle with `ClearInputs` enqueued; idle goes to recording with the hosted state as snapshot and a one-slot log; the invariant is kept |
| `DevClient.ModeCycleOrder` | dev-client/src/main.rs:208-221 | from idle, three presses of Alt+L lead to recording, then to playback from the unchanged hosted state, then to idle with `ClearInputs` queued |
| `DevClient.Dispatch` | dev-client/src/main.rs:184-270 | `Quit` sets the quit flag only; Alt+L cycles the mode; every other event appends its forwarded domain event, if any, to the queue; the invariant is kept |
| `DevClient.PollAll` | dev-client/src/main.rs:133-135 | dispatching a frame's SDL events keeps the recorder invariant |
| `DevClient.MirrorOrReplay` | dev-client/src/main.rs:136-146 | recording: the queue becomes the new slot, and queue and hosted state are untouched; playing back: the cursor moves on and the queue becomes the slot under it, with the hosted state reloaded on wrap; idle: no change |
| `DevClient.Update` | dev-client/src/main.rs:152-154 | the hosted module consumes the whole queue; the recorder and quit flag are untouched |
| `DevClient.Frame` | dev-client/src/main.rs:131-154 | one pass of the main loop keeps the recorder invariant |
| `DevClient.Run` | dev-client/src/main.rs:129-176 | along any run of the main loop the recorder keeps its invariant `LoopModel.Inv`, which includes that recording and playback are never on together |
| `DevClient.DispatchEvent` | dev-client/src/main.rs:184-270 | the objects change exactly as `DevClient.Dispatch` says, and the recorder's invariant is kept |
| `DevClient.DispatchAll` | dev-client/src/main.rs:133-135 | the objects change exactly as `DevClient.PollAll` says |
| `DevClient.BeginFrameAndMirror` | dev-client/src/main.rs:136-146 | the objects change exactly as `DevClient.MirrorOrReplay` says |
| `DevClient.RunFrame` | dev-client/src/main.rs:131-154 | the objects change exactly as `DevClient.Frame` says, and the loop stops exactly when quit was requested |
| `Replay.PollPassive` | dev-client/src/main.rs:133-135 | input that neither quits nor toggles only appends its forwarded events to the queue |
| `Replay.PollAllAppend` | dev-client/src/main.rs:133-135 | polling two batches in turn is polling their concatenation |
| `Replay.PollToggle` | dev-client/src/main.rs:133-135 | in a frame with one Alt+L, the events before it are queued, the mode cycles, then the events after it are queued |
| `Replay.RecordingBegins` | dev-client/src/main.rs:136-140 | in the frame recording starts, the queue becomes slot 1 after the empty slot 0, and the hosted state is the snapshot with that slot applied |
| `Replay.RecordingContinues` | dev-client/src/main.rs:136-140 | each later recording frame appends its queue as a slot and keeps the hosted state equal to the snapshot with every recorded event applied |
| `Replay.NextSlot` | dev-client/src/loop_context.rs:101-107 | consuming the next slot, or reloading and consuming the empty slot 0 on wrap, leaves the snapshot with the log up to the new cursor applied |
| `Replay.PlaybackContinues` | dev-client/src/main.rs:141-146 | each playback frame moves the cursor on cyclically and keeps the hosted state equal to the snapshot with the log up to the cursor applied |
| `Replay.StartRecording` | dev-client/src/main.rs:218-221 | the frame in which Alt+L starts a recording snapshots the hosted state and records that frame's input as slot 1 |
| `Replay.RecordFrame` | dev-client/src/main.rs:136-140 | a frame of recording adds one slot holding exactly that frame's forwarded input, and the hosted state follows the log |
| `Replay.StartPlayback` | dev-client/src/main.rs:210-212 | the frame in which Alt+L starts playback reloads the snapshot and plays slot 1, and what follows is a replay of the recorded log |
| `Replay.PlaybackIgnoresLiveInput` | dev-client/src/main.rs:141-146 | during playback the frame's live arrow input has no effect at all |
| `Replay.ReplayFrame` | dev-client/src/main.rs:141-146 | a frame of playback moves the cursor on cyclically and keeps the hosted state in step with the log |
| `Replay.ReplayMatchesRecording` | dev-client/src/main.rs:136-146 | at each cursor position, playback leaves exactly the hosted state the recording had after the same slots |
| `Replay.EndPlaybackReleasesKeys` | dev-client/src/main.rs:213-217 | the frame in which Alt+L ends playback leaves the recorder idle with log and snapshot kept, and every key released except those pressed after the toggle |

## Left out

- Rendering, the gfx pipeline, the window, the camera, the viewport and all floating-point state are not modelled. This includes the hosted module's position and its `render`. The hosted state is its four key flags only, and the snapshot is those flags.
- SDL initialisation and the event pump are left out. The frame's SDL events are a parameter (`seq<SdlEvent>`). An absent key code and every unmapped code are merged into `CodeOther`. The Alt test is a boolean.
- `Reloadable::reload` and the dynamic loading of the library are left out, because they never change in-memory state. Of `Reloadable::new`, only the loading of the library is left out; the hosted `init` it runs is modelled by `LiveReload.Reloadable.constructor`. The `SaveState` byte layout is left out too.
- The `lazy_static` globals and their `Mutex` are not modelled. The queue is a plain object, because everything runs on one thread.
- `set_host`, the `HostApi` function-pointer table, `println` messages and the logging macros (`dev-client-lib/src/macros.rs`) are left out. They are unsafe pointer plumbing and I/O.
- `LoopRecorder.LoopContext.Recording` and `LoopRecorder.LoopContext.PlayingBack` are plain getters and carry no contract.
- `frame_index` is a `nat`, so the `usize` overflow of `frame_index += 1` is not modelled. It cannot happen, because the cursor stays below the log length.
- `LiveReload.Reloadable.Update`: `ShouldQuit::Yes` is never produced, because the hosted `update` always returns `No`. The model states that.
- `DevClient.Run`: the step-by-step replay across many frames is not stated as one induction over `Run`. `Replay.ReplayFrame` and `Replay.PlaybackContinues` state one frame, and `LoopModel.PlaybackLoops` states any number of frames on the recorder alone.
