/** The loop recorder of dev-client/src/loop_context.rs as a value: every public and
    private operation of `LoopContext` as a transition function on `LoopState`, the
    invariant they keep, and the replay and looping properties of recording then playing
    back. The imperative `LoopContext` class is proved against these functions. */
module LoopModel {
  import opened Wrappers
  import opened HostApi
  import opened LiveReload

  /** The fields of `LoopContext`. */
  datatype LoopState = LoopState(
    state: Option<Snapshot>,
    events: seq<seq<Event>>,
    frameIndex: nat,
    recording: bool,
    playingBack: bool)

  /** Recording and playing back are never both on. */
  predicate ModesExclusive(m: LoopState)
  {
    !(m.recording && m.playingBack)
  }

  /** What every public operation keeps: a snapshot comes with at least one log slot,
      recording and playback have a snapshot, the playback cursor is a valid slot index,
      and the two modes exclude each other. */
  predicate Inv(m: LoopState)
  {
    && (m.state.Some? ==> |m.events| >= 1)
    && (m.recording ==> m.state.Some?)
    && (m.playingBack ==> m.state.Some? && m.frameIndex < |m.events|)
    && ModesExclusive(m)
  }

  /** `LoopContext::new`. */
  function New(): (m: LoopState)
    ensures Inv(m)
    ensures !m.recording && !m.playingBack
    ensures m.state == None && m.events == [] && m.frameIndex == 0
  {
    LoopState(None, [], 0, false, false)
  }

  /** `begin_recording_new_frame`: opens one empty slot after the existing ones. */
  function BeginRecordingNewFrame(m: LoopState): (r: LoopState)
    requires m.recording
    ensures |r.events| == |m.events| + 1
    ensures r.events[..|m.events|] == m.events && r.events[|m.events|] == []
    ensures r.state == m.state && r.frameIndex == m.frameIndex
    ensures r.recording == m.recording && r.playingBack == m.playingBack
  {
    m.(events := m.events + [[]])
  }

  /** `end_recording`: clears the recording flag and nothing else. */
  function EndRecording(m: LoopState): (r: LoopState)
    ensures Inv(m) ==> Inv(r)
    ensures !r.recording && r.playingBack == m.playingBack
    ensures r.state == m.state && r.events == m.events && r.frameIndex == m.frameIndex
  {
    m.(recording := false)
  }

  /** `end_playback`: clears the playback flag and nothing else. */
  function EndPlayback(m: LoopState): (r: LoopState)
    ensures Inv(m) ==> Inv(r)
    ensures !r.playingBack && r.recording == m.recording
    ensures r.state == m.state && r.events == m.events && r.frameIndex == m.frameIndex
  {
    m.(playingBack := false)
  }

  /** `begin_playback` on the recorder's own fields; the snapshot reload it performs is
      stated by the class method. The `unwrap` of the snapshot is its precondition. */
  function BeginPlayback(m: LoopState): (r: LoopState)
    requires m.state.Some?
    ensures (m.state.Some? ==> |m.events| >= 1) ==> Inv(r)
    ensures !r.recording && r.playingBack && r.frameIndex == 0
    ensures r.state == m.state && r.events == m.events
  {
    var ended := if m.recording then EndRecording(m) else m;
    ended.(frameIndex := 0, playingBack := true)
  }

  /** `begin_playback_new_frame`: advances the cursor, restarting playback on reaching the
      end of the log. */
  function BeginPlaybackNewFrame(m: LoopState): (r: LoopState)
    requires m.playingBack && m.state.Some?
    ensures Inv(m) ==> Inv(r)
    ensures r.playingBack && r.events == m.events && r.state == m.state
    ensures m.frameIndex + 1 >= |m.events| ==> r.frameIndex == 0 && !r.recording
    ensures m.frameIndex + 1 < |m.events| ==> r.frameIndex == m.frameIndex + 1 && r.recording == m.recording
  {
    var advanced := m.(frameIndex := m.frameIndex + 1);
    if advanced.frameIndex >= |advanced.events| then BeginPlayback(advanced) else advanced
  }

  /** Whether `begin_frame` on `m` restarts playback, and so reloads the snapshot into the
      hosted module. */
  predicate Reloads(m: LoopState)
  {
    var slots := if m.recording then |m.events| + 1 else |m.events|;
    m.playingBack && m.frameIndex + 1 >= slots
  }

  /** `begin_frame`: while recording a new slot is opened; while playing back the cursor
      moves on by one slot, cyclically; when idle nothing happens. */
  function BeginFrame(m: LoopState): (r: LoopState)
    requires m.playingBack ==> m.state.Some?
    ensures Inv(m) ==> Inv(r)
    ensures !m.recording && !m.playingBack ==> r == m
    ensures m.recording && !m.playingBack ==>
      && r.recording && !r.playingBack
      && r.events == m.events + [[]]
      && r.state == m.state && r.frameIndex == m.frameIndex
    ensures m.playingBack && !m.recording && m.frameIndex < |m.events| ==>
      && r.playingBack && !r.recording
      && r.events == m.events && r.state == m.state
      && r.frameIndex == Cyclic(m.frameIndex + 1, |m.events|)
      && (Reloads(m) <==> r.frameIndex == 0)
  {
    var grown := if m.recording then BeginRecordingNewFrame(m) else m;
    if grown.playingBack then BeginPlaybackNewFrame(grown) else grown
  }

  /** `begin_recording`: snapshots the hosted state, empties the log, resets the cursor,
      turns recording on and runs `begin_frame`. Called during playback, that `begin_frame`
      wraps the one-slot log, restarts playback and so turns recording off again. */
  function BeginRecording(m: LoopState, hosted: Snapshot): (r: LoopState)
    ensures Inv(r)
    ensures r.state == Some(hosted) && r.events == [[]] && r.frameIndex == 0
    ensures r.recording == !m.playingBack && r.playingBack == m.playingBack
  {
    BeginFrame(m.(state := Some(hosted), events := [], frameIndex := 0, recording := true))
  }

  /** `push_event`: appends the event to the current (last) slot; the `assert!` and the
      `unwrap` of the last slot are its precondition. */
  function PushEvent(m: LoopState, e: Event): (r: LoopState)
    requires m.recording && |m.events| > 0
    ensures Inv(m) ==> Inv(r)
    ensures |r.events| == |m.events|
    ensures r.events[|r.events| - 1] == m.events[|m.events| - 1] + [e]
    ensures forall i :: 0 <= i < |m.events| - 1 ==> r.events[i] == m.events[i]
    ensures r.state == m.state && r.frameIndex == m.frameIndex
    ensures r.recording && r.playingBack == m.playingBack
  {
    var last := |m.events| - 1;
    m.(events := m.events[last := m.events[last] + [e]])
  }

  /** `push_event` once per event of `es`, in order. */
  function PushAll(m: LoopState, es: seq<Event>): (r: LoopState)
    requires m.recording && |m.events| > 0
    ensures Inv(m) ==> Inv(r)
    ensures |r.events| == |m.events|
    ensures r.state == m.state && r.frameIndex == m.frameIndex
    ensures r.recording && r.playingBack == m.playingBack
    decreases |es|
  {
    if es == [] then m
    else PushEvent(PushAll(m, es[..|es| - 1]), es[|es| - 1])
  }

  /** Pushing the events of `es` one by one appends all of them, in order, to the current
      slot and leaves every earlier slot as it was. */
  lemma {:induction false} PushAllLog(m: LoopState, es: seq<Event>)
    requires m.recording && |m.events| > 0
    ensures PushAll(m, es).events == m.events[..|m.events| - 1] + [m.events[|m.events| - 1] + es]
    decreases |es|
  {
    var n := |m.events|;
    if es == [] {
      assert m.events[n - 1] + es == m.events[n - 1];
      assert m.events == m.events[..n - 1] + [m.events[n - 1]];
    } else {
      var front, e := es[..|es| - 1], es[|es| - 1];
      var before := PushAll(m, front);
      assert before.events == m.events[..n - 1] + [m.events[n - 1] + front] by {
        PushAllLog(m, front);
      }
      var after := PushEvent(before, e);
      assert after.events[..n - 1] == before.events[..n - 1];
      assert after.events[n - 1] == m.events[n - 1] + front + [e];
      assert es == front + [e];
      assert m.events[n - 1] + es == m.events[n - 1] + front + [e];
      assert after.events == after.events[..n - 1] + [after.events[n - 1]];
    }
  }

  /** `playback_events`: the slot under the cursor. The `assert!` and the index bound are
      its precondition. */
  function PlaybackEvents(m: LoopState): (slot: seq<Event>)
    requires m.playingBack && m.frameIndex < |m.events|
    ensures slot in m.events
  {
    m.events[m.frameIndex]
  }

  /** `end_recording` is idempotent. */
  lemma EndRecordingIdempotent(m: LoopState)
    ensures EndRecording(EndRecording(m)) == EndRecording(m)
  {
  }

  /** `end_playback` is idempotent. */
  lemma EndPlaybackIdempotent(m: LoopState)
    ensures EndPlayback(EndPlayback(m)) == EndPlayback(m)
  {
  }

  /** The recorder after `k` calls of `begin_frame`. */
  function Frames(m: LoopState, k: nat): (r: LoopState)
    requires Inv(m)
    ensures Inv(r)
    decreases k
  {
    if k == 0 then m else BeginFrame(Frames(m, k - 1))
  }

  /** `x` reduced modulo `n`: the position reached by walking `x` steps round a cycle of
      `n` slots from slot 0. */
  function Cyclic(x: nat, n: nat): (r: nat)
    requires n > 0
    ensures r < n
    ensures x < n ==> r == x
    decreases x
  {
    if x < n then x else Cyclic(x - n, n)
  }

  /** One more step round the cycle moves on by one slot, or back to slot 0 from the last. */
  lemma {:induction false} CyclicSucc(x: nat, n: nat)
    requires n > 0
    ensures Cyclic(x + 1, n) == if Cyclic(x, n) + 1 == n then 0 else Cyclic(x, n) + 1
    decreases x
  {
    if x >= n {
      CyclicSucc(x - n, n);
    }
  }

  /** Looping playback: `k` frames after a playback position the cursor has moved `k` slots
      on, cyclically, over an unchanged log and snapshot; each `begin_frame` reloads the
      snapshot exactly when the cursor comes back to slot 0. */
  lemma {:induction false} PlaybackLoops(m: LoopState, k: nat)
    requires Inv(m) && m.playingBack
    ensures Frames(m, k).playingBack && !Frames(m, k).recording
    ensures Frames(m, k).events == m.events && Frames(m, k).state == m.state
    ensures Frames(m, k).frameIndex == Cyclic(m.frameIndex + k, |m.events|)
    ensures PlaybackEvents(Frames(m, k)) == m.events[Cyclic(m.frameIndex + k, |m.events|)]
    ensures Reloads(Frames(m, k)) <==> Cyclic(m.frameIndex + k + 1, |m.events|) == 0
    decreases k
  {
    var n := |m.events|;
    if k > 0 {
      PlaybackLoops(m, k - 1);
      CyclicSucc(m.frameIndex + k - 1, n);
    }
    CyclicSucc(m.frameIndex + k, n);
  }

  /** A recording session after the first frame: each further frame opens a slot with
      `begin_frame` and pushes that frame's events into it. */
  function Record(m: LoopState, frames: seq<seq<Event>>): (r: LoopState)
    requires m.recording && !m.playingBack && |m.events| > 0
    ensures r.recording && !r.playingBack
    ensures r.state == m.state && |r.events| == |m.events| + |frames|
    ensures Inv(m) ==> Inv(r)
    decreases |frames|
  {
    if frames == [] then m
    else PushAll(BeginFrame(Record(m, frames[..|frames| - 1])), frames[|frames| - 1])
  }

  /** Recording appends one slot per frame holding exactly that frame's events. */
  lemma {:induction false} RecordLog(m: LoopState, frames: seq<seq<Event>>)
    requires m.recording && !m.playingBack && |m.events| > 0
    ensures Record(m, frames).events == m.events + frames
    decreases |frames|
  {
    if frames == [] {
      assert m.events + frames == m.events;
    } else {
      var front, last := frames[..|frames| - 1], frames[|frames| - 1];
      var before := Record(m, front);
      assert before.events == m.events + front by {
        RecordLog(m, front);
      }
      assert PushAll(BeginFrame(before), last).events == before.events + [last] by {
        OpenSlotAndFill(before, last);
      }
      assert frames == front + [last];
    }
  }

  /** One recorded frame: `begin_frame` then pushing `es` adds exactly the slot `es`. */
  lemma OpenSlotAndFill(m: LoopState, es: seq<Event>)
    requires m.recording && !m.playingBack && |m.events| > 0
    ensures PushAll(BeginFrame(m), es).events == m.events + [es]
  {
    var grown := BeginFrame(m);
    PushAllLog(grown, es);
    assert grown.events[..|m.events|] == m.events;
    assert grown.events[|m.events|] + es == es;
  }

  /** A whole session started from `m`: `begin_recording` with the hosted state `hosted`,
      the events `first` pushed in the frame it opens, the frames `rest` recorded after it,
      then `end_recording` and `begin_playback`. */
  function Session(m: LoopState, hosted: Snapshot, first: seq<Event>, rest: seq<seq<Event>>): (r: LoopState)
    requires !m.playingBack
    ensures Inv(r) && r.playingBack && !r.recording && r.frameIndex == 0
    ensures r.state == Some(hosted)
  {
    var start := PushAll(BeginRecording(m, hosted), first);
    BeginPlayback(EndRecording(Record(start, rest)))
  }

  /** Pushing into a log of one empty slot fills that slot. */
  lemma FillOnlySlot(m: LoopState, es: seq<Event>)
    requires m.recording && m.events == [[]]
    ensures PushAll(m, es).events == [es]
  {
    PushAllLog(m, es);
    assert m.events[..0] == [];
    assert m.events[0] + es == es;
  }

  /** The frame `begin_recording` opens holds exactly the events pushed in it. */
  lemma FirstFrame(m: LoopState, hosted: Snapshot, first: seq<Event>)
    requires !m.playingBack
    ensures PushAll(BeginRecording(m, hosted), first).events == [first]
  {
    FillOnlySlot(BeginRecording(m, hosted), first);
  }

  /** A session's log is its recorded frames, in order. */
  lemma SessionLog(m: LoopState, hosted: Snapshot, first: seq<Event>, rest: seq<seq<Event>>)
    requires !m.playingBack
    ensures Session(m, hosted, first, rest).events == [first] + rest
  {
    var start := PushAll(BeginRecording(m, hosted), first);
    FirstFrame(m, hosted, first);
    RecordLog(start, rest);
  }

  /** Playback begun at slot 0 of `log`: `k` frames later the slot played is slot `k` of
      the log, cyclically, and the snapshot is reloaded when `k + 1` completes a cycle. */
  lemma PlaybackFromStart(m: LoopState, log: seq<seq<Event>>, k: nat)
    requires Inv(m) && m.playingBack && m.frameIndex == 0 && m.events == log
    ensures Frames(m, k).playingBack
    ensures PlaybackEvents(Frames(m, k)) == log[Cyclic(k, |log|)]
    ensures Reloads(Frames(m, k)) <==> Cyclic(k + 1, |log|) == 0
  {
    PlaybackLoops(m, k);
  }

  /** Replay fidelity: after a session the log is the recorded frames, in order; the slot
      played `k` frames into playback is the `k`-th recorded frame, cyclically; and the
      snapshot, the hosted state at `begin_recording`, is reloaded exactly when the cycle
      restarts. */
  lemma ReplayFidelity(m: LoopState, hosted: Snapshot, first: seq<Event>, rest: seq<seq<Event>>, k: nat)
    requires !m.playingBack
    ensures Session(m, hosted, first, rest).events == [first] + rest
    ensures Frames(Session(m, hosted, first, rest), k).playingBack
    ensures PlaybackEvents(Frames(Session(m, hosted, first, rest), k)) == ([first] + rest)[Cyclic(k, 1 + |rest|)]
    ensures Reloads(Frames(Session(m, hosted, first, rest), k)) <==> Cyclic(k + 1, 1 + |rest|) == 0
  {
    SessionLog(m, hosted, first, rest);
    PlaybackFromStart(Session(m, hosted, first, rest), [first] + rest, k);
  }
}
