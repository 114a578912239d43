/** `LoopContext` of dev-client/src/loop_context.rs: the loop recorder as an object whose
    methods update its fields in place. Every method is proved to have exactly the effect of
    its transition function in `LoopModel` (on the recorder) and to touch the hosted module
    only through `save_state` and `load_state` of the `Reloadable` handle. */
module LoopRecorder {
  import opened Wrappers
  import opened HostApi
  import opened LiveReload
  import LoopModel
  import KeyState

  class LoopContext {
    var state: Option<Snapshot>
    var events: seq<seq<Event>>
    var frameIndex: nat
    var recording: bool
    var playingBack: bool

    /** The fields as a value. */
    function Model(): LoopModel.LoopState
      reads this
    {
      LoopModel.LoopState(state, events, frameIndex, recording, playingBack)
    }

    /** The invariant every public method keeps. */
    ghost predicate Valid()
      reads this
    {
      LoopModel.Inv(Model())
    }

    /** `LoopContext::new`. */
    constructor ()
      ensures Model() == LoopModel.New() && Valid()
    {
      state := None;
      events := [];
      frameIndex := 0;
      recording := false;
      playingBack := false;
    }

    /** `recording()`. */
    function Recording(): bool
      reads this
    {
      recording
    }

    /** `playing_back()`. */
    function PlayingBack(): bool
      reads this
    {
      playingBack
    }

    /** `begin_frame`. The snapshot is reloaded into the hosted module exactly when the
        playback cursor wraps. */
    method BeginFrame(r: Reloadable)
      requires playingBack ==> state.Some?
      modifies this, r.hosted
      ensures Model() == LoopModel.BeginFrame(old(Model()))
      ensures r.hosted.Keys() == if LoopModel.Reloads(old(Model())) then old(state).value else old(r.hosted.Keys())
    {
      if Recording() {
        BeginRecordingNewFrame();
      }
      if PlayingBack() {
        BeginPlaybackNewFrame(r);
      }
    }

    /** `begin_recording`. The hosted state is the same value afterwards: if playback was on,
        the snapshot reloaded into it is the one just taken from it. */
    method BeginRecording(r: Reloadable)
      modifies this, r.hosted
      ensures Model() == LoopModel.BeginRecording(old(Model()), old(r.hosted.Keys()))
      ensures r.hosted.Keys() == old(r.hosted.Keys())
    {
      var s := r.SaveState();
      state := Some(s);
      events := [];
      frameIndex := 0;
      recording := true;
      BeginFrame(r);
    }

    /** `begin_recording_new_frame`; its `assert!` is the precondition. */
    method BeginRecordingNewFrame()
      requires recording
      modifies this
      ensures Model() == LoopModel.BeginRecordingNewFrame(old(Model()))
    {
      events := events + [[]];
    }

    /** `end_recording`. */
    method EndRecording()
      modifies this
      ensures Model() == LoopModel.EndRecording(old(Model()))
    {
      recording := false;
    }

    /** `push_event`; its `assert!` and the `unwrap` of the last slot are the precondition. */
    method PushEvent(e: Event)
      requires recording && |events| > 0
      modifies this
      ensures Model() == LoopModel.PushEvent(old(Model()), e)
    {
      var last := |events| - 1;
      events := events[last := events[last] + [e]];
    }

    /** `begin_playback`; the `unwrap` of the snapshot is the precondition. Afterwards the
        hosted state is the snapshot. */
    method BeginPlayback(r: Reloadable)
      requires state.Some?
      modifies this, r.hosted
      ensures Model() == LoopModel.BeginPlayback(old(Model()))
      ensures r.hosted.Keys() == old(state).value
    {
      if Recording() {
        EndRecording();
      }
      frameIndex := 0;
      playingBack := true;
      r.LoadState(state.value);
    }

    /** `end_playback`. */
    method EndPlayback()
      modifies this
      ensures Model() == LoopModel.EndPlayback(old(Model()))
    {
      playingBack := false;
    }

    /** `begin_playback_new_frame`; its `assert!` and the `unwrap` inside `begin_playback`
        are the precondition. */
    method BeginPlaybackNewFrame(r: Reloadable)
      requires playingBack && state.Some?
      modifies this, r.hosted
      ensures Model() == LoopModel.BeginPlaybackNewFrame(old(Model()))
      ensures r.hosted.Keys() == if old(frameIndex) + 1 >= |old(events)| then old(state).value else old(r.hosted.Keys())
    {
      frameIndex := frameIndex + 1;
      if frameIndex >= |events| {
        BeginPlayback(r);
      }
    }

    /** `playback_events`: the slot under the cursor; its `assert!` and the index bound are
        the precondition. */
    method PlaybackEvents() returns (slot: seq<Event>)
      requires playingBack && frameIndex < |events|
      ensures slot == LoopModel.PlaybackEvents(Model())
    {
      slot := events[frameIndex];
    }
  }
}
