/** Deterministic replay through the whole orchestrator: what the hosted key state goes
    through while a loop is recorded, and that playing the loop back puts it through the same
    key states, slot for slot, whatever live input arrives meanwhile. */
module Replay {
  import opened Wrappers
  import opened HostApi
  import opened LiveReload
  import KeyState
  import LoopModel
  import opened DevClient

  /** A frame's SDL input that neither quits nor toggles the loop mode. */
  predicate Passive(es: seq<SdlEvent>)
    decreases |es|
  {
    es == [] || (!es[|es| - 1].Quit? && !IsModeToggle(es[|es| - 1]) && Passive(es[..|es| - 1]))
  }

  /** The domain events a frame's SDL input enqueues, in order. */
  function Forwarded(es: seq<SdlEvent>): seq<Event>
    decreases |es|
  {
    if es == [] then [] else Forwarded(es[..|es| - 1]) + Enqueued(es[|es| - 1])
  }

  /** Passive input only appends its forwarded events to the live queue. */
  lemma {:induction false} PollPassive(w: World, es: seq<SdlEvent>)
    requires LoopModel.Inv(w.recorder) && Passive(es)
    ensures PollAll(w, es) == w.(queue := w.queue + Forwarded(es))
    decreases |es|
  {
    if es == [] {
      assert w.queue + [] == w.queue;
    } else {
      var front, e := es[..|es| - 1], es[|es| - 1];
      PollPassive(w, front);
      assert w.queue + Forwarded(front) + Enqueued(e) == w.queue + Forwarded(es);
    }
  }

  /** Polling two batches one after the other is polling their concatenation. */
  lemma {:induction false} PollAllAppend(w: World, a: seq<SdlEvent>, b: seq<SdlEvent>)
    requires LoopModel.Inv(w.recorder)
    ensures PollAll(w, a + b) == PollAll(PollAll(w, a), b)
    decreases |b|
  {
    if b == [] {
      assert a + b == a;
    } else {
      var front, e := b[..|b| - 1], b[|b| - 1];
      assert (a + b)[..|a + b| - 1] == a + front;
      assert (a + b)[|a + b| - 1] == e;
      PollAllAppend(w, a, front);
    }
  }

  /** The world after polling a frame in which the mode toggle is pressed once between the
      passive input `pre` and `post`. */
  function AfterToggle(w: World, pre: seq<SdlEvent>, post: seq<SdlEvent>): World
    requires LoopModel.Inv(w.recorder)
  {
    var cycled := CycleMode(w.(queue := w.queue + Forwarded(pre)));
    cycled.(queue := cycled.queue + Forwarded(post))
  }

  /** Polling such a frame: the input before the toggle is queued, the mode cycles, the
      input after it is queued. */
  lemma PollToggle(w: World, pre: seq<SdlEvent>, toggle: SdlEvent, post: seq<SdlEvent>)
    requires LoopModel.Inv(w.recorder)
    requires Passive(pre) && IsModeToggle(toggle) && Passive(post)
    ensures LoopModel.Inv(AfterToggle(w, pre, post).recorder)
    ensures PollAll(w, pre + [toggle] + post) == AfterToggle(w, pre, post)
  {
    var cycled := CycleMode(w.(queue := w.queue + Forwarded(pre)));
    assert PollAll(w, pre + [toggle] + post) == PollAll(cycled, post) by {
      PollAllAppend(w, pre + [toggle], post);
      PollAllAppend(w, pre, [toggle]);
      PollPassive(w, pre);
      assert [toggle][..0] == [];
    }
    PollPassive(cycled, post);
  }

  /** A frame is its polling followed by the rest of the main loop's body. */
  lemma FrameAfterPoll(w: World, es: seq<SdlEvent>, polled: World)
    requires LoopModel.Inv(w.recorder) && PollAll(w, es) == polled && !polled.quit
    ensures Frame(w, es) == Update(MirrorOrReplay(polled))
  {
  }

  /** The events of a sequence of slots, slot after slot. */
  function Flatten(slots: seq<seq<Event>>): seq<Event>
    decreases |slots|
  {
    if slots == [] then [] else Flatten(slots[..|slots| - 1]) + slots[|slots| - 1]
  }

  /** Flattening one more slot of a log. */
  lemma FlattenPrefix(log: seq<seq<Event>>, c: nat)
    requires c < |log|
    ensures Flatten(log[..c + 1]) == Flatten(log[..c]) + log[c]
  {
    assert log[..c + 1][..c] == log[..c];
  }

  /** Between frames of a recording: the hosted state is the snapshot with every event of
      the log applied in order, and slot 0 is empty (`begin_recording` opens it and the
      `begin_frame` of the same frame opens slot 1 before anything is mirrored). */
  predicate Recorded(w: World, snap: Snapshot)
  {
    && LoopModel.Inv(w.recorder)
    && w.recorder.recording
    && w.recorder.state == Some(snap)
    && w.recorder.events[0] == []
    && w.queue == [] && !w.quit
    && w.hosted == KeyState.Drain(snap, Flatten(w.recorder.events))
  }

  /** Between frames of a playback of `log`: the hosted state is the snapshot with the
      events of slots 0 to the cursor applied, which is the state it had when recording
      reached that slot. */
  predicate Replaying(w: World, snap: Snapshot, log: seq<seq<Event>>)
  {
    && LoopModel.Inv(w.recorder)
    && w.recorder.playingBack
    && w.recorder.state == Some(snap)
    && w.recorder.events == log
    && log[0] == []
    && w.queue == [] && !w.quit
    && w.hosted == KeyState.Drain(snap, Flatten(log[..w.recorder.frameIndex + 1]))
  }

  /** The rest of the frame in which recording has just begun: `begin_frame` opens slot 1,
      the queued events are mirrored into it and consumed by the hosted module. */
  lemma RecordingBegins(v: World)
    requires LoopModel.Inv(v.recorder) && v.recorder.recording && !v.quit
    requires v.recorder.events == [[]] && v.recorder.state == Some(v.hosted)
    ensures Recorded(Update(MirrorOrReplay(v)), v.hosted)
    ensures Update(MirrorOrReplay(v)).recorder.events == [[], v.queue]
  {
    var empty: seq<seq<Event>> := [[]];
    assert [[], v.queue][..1] == empty;
    assert empty[..0] == [];
    assert Flatten([[], v.queue]) == v.queue;
  }

  /** The rest of a frame of recording: the queued events become a new slot and are
      consumed by the hosted module. */
  lemma RecordingContinues(v: World, snap: Snapshot)
    requires Recorded(v.(queue := []), snap)
    ensures Recorded(Update(MirrorOrReplay(v)), snap)
    ensures Update(MirrorOrReplay(v)).recorder.events == v.recorder.events + [v.queue]
  {
    var log := v.recorder.events;
    KeyState.DrainAppend(snap, Flatten(log), v.queue);
    assert (log + [v.queue])[..|log|] == log;
  }

  /** Consuming the next slot of the log, or on wrapping the empty slot 0 after a reload of
      the snapshot, keeps the hosted state equal to the snapshot with the slots up to the
      cursor applied. */
  lemma NextSlot(snap: Snapshot, log: seq<seq<Event>>, c: nat, next: nat)
    requires c < |log| && log[0] == []
    requires next == LoopModel.Cyclic(c + 1, |log|)
    ensures KeyState.Drain(if next == 0 then snap else KeyState.Drain(snap, Flatten(log[..c + 1])), log[next])
      == KeyState.Drain(snap, Flatten(log[..next + 1]))
  {
    LoopModel.CyclicSucc(c, |log|);
    FlattenPrefix(log, next);
    if next == 0 {
      assert log[..0] == [];
    } else {
      KeyState.DrainAppend(snap, Flatten(log[..c + 1]), log[next]);
    }
  }

  /** The rest of a frame of playback: the cursor moves on by one slot, cyclically, the live
      queue is replaced by that slot and consumed; on wrapping the snapshot is reloaded and
      the empty slot 0 played. */
  lemma PlaybackContinues(v: World, snap: Snapshot, log: seq<seq<Event>>)
    requires Replaying(v.(queue := []), snap, log)
    ensures Replaying(Update(MirrorOrReplay(v)), snap, log)
    ensures Update(MirrorOrReplay(v)).recorder.frameIndex == LoopModel.Cyclic(v.recorder.frameIndex + 1, |log|)
  {
    var ready := MirrorOrReplay(v);
    NextSlot(snap, log, v.recorder.frameIndex, ready.recorder.frameIndex);
  }

  /** The frame in which Alt+L starts a recording from idle: the snapshot is the hosted
      state at the start of the frame and the log is an empty slot 0 followed by the
      frame's forwarded events. */
  lemma StartRecording(w: World, pre: seq<SdlEvent>, toggle: SdlEvent, post: seq<SdlEvent>)
    requires LoopModel.Inv(w.recorder) && !w.recorder.recording && !w.recorder.playingBack && !w.quit
    requires Passive(pre) && IsModeToggle(toggle) && Passive(post)
    ensures Recorded(Frame(w, pre + [toggle] + post), w.hosted)
    ensures Frame(w, pre + [toggle] + post).recorder.events == [[], w.queue + Forwarded(pre) + Forwarded(post)]
  {
    PollToggle(w, pre, toggle, post);
    var v := AfterToggle(w, pre, post);
    assert v.queue == w.queue + Forwarded(pre) + Forwarded(post) && v.hosted == w.hosted;
    FrameAfterPoll(w, pre + [toggle] + post, v);
    RecordingBegins(v);
  }

  /** A passive frame while recording adds one slot holding exactly the events the hosted
      module consumed in that frame, and keeps the recording invariant. */
  lemma RecordFrame(w: World, snap: Snapshot, es: seq<SdlEvent>)
    requires Recorded(w, snap) && Passive(es)
    ensures Recorded(Frame(w, es), snap)
    ensures Frame(w, es).recorder.events == w.recorder.events + [Forwarded(es)]
  {
    PollPassive(w, es);
    var v := w.(queue := Forwarded(es));
    assert [] + Forwarded(es) == Forwarded(es);
    FrameAfterPoll(w, es, v);
    assert v.(queue := []) == w;
    RecordingContinues(v, snap);
  }

  /** The frame in which Alt+L ends a recording and starts its playback: the hosted state
      ends the frame as it ended the first recorded frame. */
  lemma StartPlayback(w: World, snap: Snapshot, pre: seq<SdlEvent>, toggle: SdlEvent, post: seq<SdlEvent>)
    requires Recorded(w, snap)
    requires Passive(pre) && IsModeToggle(toggle) && Passive(post)
    ensures Replaying(Frame(w, pre + [toggle] + post), snap, w.recorder.events)
    ensures Frame(w, pre + [toggle] + post).recorder.frameIndex == LoopModel.Cyclic(1, |w.recorder.events|)
  {
    var log := w.recorder.events;
    PollToggle(w, pre, toggle, post);
    var v := AfterToggle(w, pre, post);
    assert v.recorder.playingBack && v.recorder.frameIndex == 0 && v.recorder.events == log;
    assert v.hosted == snap && v.recorder.state == Some(snap);
    assert Replaying(v.(queue := []), snap, log) by {
      FlattenPrefix(log, 0);
      assert log[..0] == [];
    }
    FrameAfterPoll(w, pre + [toggle] + post, v);
    PlaybackContinues(v, snap, log);
  }

  /** During playback the frame's live arrow input is discarded: the frame does exactly what
      it does with no input at all. */
  lemma PlaybackIgnoresLiveInput(w: World, es: seq<SdlEvent>)
    requires LoopModel.Inv(w.recorder) && w.recorder.playingBack && Passive(es)
    ensures Frame(w, es) == Frame(w, [])
  {
    PollPassive(w, es);
  }

  /** A passive frame of playback moves the cursor on by one slot, cyclically, and keeps
      the playback invariant. */
  lemma ReplayFrame(w: World, snap: Snapshot, log: seq<seq<Event>>, es: seq<SdlEvent>)
    requires Replaying(w, snap, log) && Passive(es)
    ensures Replaying(Frame(w, es), snap, log)
    ensures Frame(w, es).recorder.frameIndex == LoopModel.Cyclic(w.recorder.frameIndex + 1, |log|)
  {
    PollPassive(w, es);
    var v := w.(queue := Forwarded(es));
    assert [] + Forwarded(es) == Forwarded(es);
    FrameAfterPoll(w, es, v);
    assert v.(queue := []) == w;
    PlaybackContinues(v, snap, log);
  }

  /** The hosted state a playback frame leaves is the one the recording left after the same
      slot. */
  lemma ReplayMatchesRecording(recorded: World, replayed: World, snap: Snapshot, log: seq<seq<Event>>)
    requires Recorded(recorded, snap) && Replaying(replayed, snap, log)
    requires recorded.recorder.events == log[..replayed.recorder.frameIndex + 1]
    ensures replayed.hosted == recorded.hosted
  {
  }

  /** The frame in which Alt+L ends playback: the recorder is idle with its log and snapshot
      kept, and thanks to the `ClearInputs` it enqueues no key is left held except by arrow
      input after the toggle, whatever was held or queued before. */
  lemma EndPlaybackReleasesKeys(w: World, pre: seq<SdlEvent>, toggle: SdlEvent, post: seq<SdlEvent>)
    requires LoopModel.Inv(w.recorder) && w.recorder.playingBack && !w.quit
    requires Passive(pre) && IsModeToggle(toggle) && Passive(post)
    ensures !Frame(w, pre + [toggle] + post).recorder.recording
    ensures !Frame(w, pre + [toggle] + post).recorder.playingBack
    ensures Frame(w, pre + [toggle] + post).recorder.events == w.recorder.events
    ensures Frame(w, pre + [toggle] + post).recorder.state == w.recorder.state
    ensures Frame(w, pre + [toggle] + post).hosted == KeyState.Drain(KeyState.Released, Forwarded(post))
  {
    PollToggle(w, pre, toggle, post);
    var v := AfterToggle(w, pre, post);
    var held := w.queue + Forwarded(pre);
    assert v.queue == held + [ClearInputs] + Forwarded(post) && v.hosted == w.hosted;
    assert !v.recorder.recording && !v.recorder.playingBack;
    FrameAfterPoll(w, pre + [toggle] + post, v);
    assert KeyState.Drain(w.hosted, v.queue) == KeyState.Drain(KeyState.Released, Forwarded(post)) by {
      KeyState.DrainAfterClear(w.hosted, held, Forwarded(post));
    }
  }
}
