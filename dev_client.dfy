/** The frame orchestrator of dev-client/src/main.rs: the translation of SDL input into
    domain events and mode-cycle commands (`dispatch_event`), the per-frame block that
    mirrors the live queue into the loop recorder or replaces it with the recorded slot,
    and the hosted module's update draining that queue. `World` is the orchestrator's whole
    state as a value; the methods over the real objects are proved to have exactly the
    effect of the functions over `World`. */
module DevClient {
  import opened Wrappers
  import opened HostApi
  import opened LiveReload
  import KeyState
  import LoopModel
  import opened LoopRecorder

  /** The SDL key codes the dispatcher distinguishes; any other code, or none, is `CodeOther`. */
  datatype Keycode = CodeL | CodeUp | CodeDown | CodeLeft | CodeRight | CodeOther

  /** An SDL event, reduced to what `dispatch_event` looks at: the key code, the auto-repeat
      bit and, for key presses, whether either Alt modifier is held. */
  datatype SdlEvent =
    | Quit
    | KeyDown(keycode: Keycode, repeat: bool, alt: bool)
    | KeyUp(keycode: Keycode, repeat: bool)
    | Other

  /** The Alt+L chord that cycles the loop mode: a first (non-repeat) press of L with Alt held. */
  predicate IsModeToggle(e: SdlEvent)
  {
    e.KeyDown? && e.keycode == CodeL && !e.repeat && e.alt
  }

  /** The SDL key code of each domain key. */
  function KeycodeOf(k: Key): (c: Keycode)
    ensures c != CodeL && c != CodeOther
  {
    match k
    case Up => CodeUp
    case Down => CodeDown
    case Left => CodeLeft
    case Right => CodeRight
  }

  /** The domain key of an arrow key code. */
  function ArrowKey(c: Keycode): (k: Option<Key>)
    ensures k.Some? <==> c in {CodeUp, CodeDown, CodeLeft, CodeRight}
    ensures k.Some? ==> KeycodeOf(k.value) == c
  {
    match c
    case CodeUp => Some(Up)
    case CodeDown => Some(Down)
    case CodeLeft => Some(Left)
    case CodeRight => Some(Right)
    case _ => None
  }

  /** The domain event an SDL event is forwarded as, if any: first presses and releases of
      the arrow keys, whatever the modifiers. */
  function KeyEvent(e: SdlEvent): (r: Option<Event>)
    ensures r.Some? ==>
      && !r.value.ClearInputs? && (e.KeyDown? || e.KeyUp?) && !e.repeat
      && e.keycode == KeycodeOf(r.value.key)
      && (r.value.KeyPressed? <==> e.KeyDown?)
    ensures (e.KeyDown? || e.KeyUp?) && !e.repeat && e.keycode != CodeL && e.keycode != CodeOther ==> r.Some?
  {
    match e
    case KeyDown(c, repeat, _) =>
      if repeat || ArrowKey(c).None? then None else Some(KeyPressed(ArrowKey(c).value))
    case KeyUp(c, repeat) =>
      if repeat || ArrowKey(c).None? then None else Some(KeyReleased(ArrowKey(c).value))
    case _ => None
  }

  /** The arrow mapping is one to one: an SDL event is forwarded as a press (release) of `k`
      exactly when it is a first press (release) of `k`'s key, and nothing is ever forwarded
      as `ClearInputs` or for a mode toggle. */
  lemma KeyEventExactly(e: SdlEvent, k: Key)
    ensures KeyEvent(e) == Some(KeyPressed(k)) <==> e.KeyDown? && e.keycode == KeycodeOf(k) && !e.repeat
    ensures KeyEvent(e) == Some(KeyReleased(k)) <==> e.KeyUp? && e.keycode == KeycodeOf(k) && !e.repeat
    ensures KeyEvent(e) != Some(ClearInputs)
    ensures IsModeToggle(e) ==> KeyEvent(e) == None
  {
  }

  /** The events an SDL event enqueues when it is neither `Quit` nor the mode toggle. */
  function Enqueued(e: SdlEvent): seq<Event>
  {
    match KeyEvent(e)
    case Some(x) => [x]
    case None => []
  }

  /** The orchestrator's state: the loop recorder, the hosted module's state, the live
      event queue and the quit flag. */
  datatype World = World(recorder: LoopModel.LoopState, hosted: Snapshot, queue: seq<Event>, quit: bool)

  /** The Alt+L mode cycle: recording -> playback, playback -> idle (with `ClearInputs`
      enqueued so that no key stays held), idle -> recording. */
  function CycleMode(w: World): (r: World)
    requires LoopModel.Inv(w.recorder)
    ensures LoopModel.Inv(r.recorder) && r.quit == w.quit
    ensures r.recorder.events == (if w.recorder.recording || w.recorder.playingBack then w.recorder.events else [[]])
    ensures w.recorder.recording ==>
      && r.recorder.playingBack && !r.recorder.recording && r.recorder.frameIndex == 0
      && r.recorder.state == w.recorder.state && r.hosted == w.recorder.state.value
      && r.queue == w.queue
    ensures !w.recorder.recording && w.recorder.playingBack ==>
      && !r.recorder.playingBack && !r.recorder.recording
      && r.recorder.state == w.recorder.state && r.hosted == w.hosted
      && r.queue == w.queue + [ClearInputs]
    ensures !w.recorder.recording && !w.recorder.playingBack ==>
      && r.recorder.recording && !r.recorder.playingBack
      && r.recorder.state == Some(w.hosted) && r.hosted == w.hosted
      && r.queue == w.queue
  {
    if w.recorder.recording then
      w.(recorder := LoopModel.BeginPlayback(w.recorder), hosted := w.recorder.state.value)
    else if w.recorder.playingBack then
      w.(recorder := LoopModel.EndPlayback(w.recorder), queue := w.queue + [ClearInputs])
    else
      w.(recorder := LoopModel.BeginRecording(w.recorder, w.hosted))
  }

  /** From idle, Alt+L presses go round recording, playback and idle again, in that order:
      the snapshot is the hosted state of the first press, playback starts from it, and
      leaving playback enqueues `ClearInputs`. */
  lemma ModeCycleOrder(w: World)
    requires LoopModel.Inv(w.recorder) && !w.recorder.recording && !w.recorder.playingBack
    ensures CycleMode(w).recorder.recording && !CycleMode(w).recorder.playingBack
    ensures CycleMode(CycleMode(w)).recorder.playingBack && !CycleMode(CycleMode(w)).recorder.recording
    ensures CycleMode(CycleMode(w)).hosted == w.hosted
    ensures
      var idle := CycleMode(CycleMode(CycleMode(w)));
      && !idle.recorder.recording && !idle.recorder.playingBack
      && idle.recorder.state == Some(w.hosted)
      && idle.queue == w.queue + [ClearInputs]
  {
  }

  /** `dispatch_event` on the orchestrator's state. */
  function Dispatch(w: World, e: SdlEvent): (r: World)
    requires LoopModel.Inv(w.recorder)
    ensures LoopModel.Inv(r.recorder)
    ensures e.Quit? ==> r == w.(quit := true)
    ensures IsModeToggle(e) ==> r == CycleMode(w)
    ensures !e.Quit? && !IsModeToggle(e) ==> r == w.(queue := w.queue + Enqueued(e))
  {
    if e.Quit? then w.(quit := true)
    else if IsModeToggle(e) then CycleMode(w)
    else w.(queue := w.queue + Enqueued(e))
  }

  /** The `poll_iter` loop: every SDL event of the frame dispatched in turn. */
  function PollAll(w: World, es: seq<SdlEvent>): (r: World)
    requires LoopModel.Inv(w.recorder)
    ensures LoopModel.Inv(r.recorder)
    decreases |es|
  {
    if es == [] then w else Dispatch(PollAll(w, es[..|es| - 1]), es[|es| - 1])
  }

  /** `begin_frame` followed by the record/substitute block of the frame. */
  function MirrorOrReplay(w: World): (r: World)
    requires LoopModel.Inv(w.recorder)
    ensures LoopModel.Inv(r.recorder) && r.quit == w.quit
    ensures w.recorder.recording ==>
      && r.recorder.recording && r.recorder.state == w.recorder.state
      && r.recorder.events == w.recorder.events + [w.queue]
      && r.queue == w.queue && r.hosted == w.hosted
    ensures w.recorder.playingBack ==>
      && r.recorder == LoopModel.BeginFrame(w.recorder)
      && r.queue == r.recorder.events[r.recorder.frameIndex]
      && r.hosted == if LoopModel.Reloads(w.recorder) then w.recorder.state.value else w.hosted
    ensures !w.recorder.recording && !w.recorder.playingBack ==> r == w
  {
    var begun := LoopModel.BeginFrame(w.recorder);
    var hosted := if LoopModel.Reloads(w.recorder) then w.recorder.state.value else w.hosted;
    if begun.recording then
      LoopModel.PushAllLog(begun, w.queue);
      assert begun.events[..|w.recorder.events|] == w.recorder.events;
      assert begun.events[|w.recorder.events|] + w.queue == w.queue;
      w.(recorder := LoopModel.PushAll(begun, w.queue), hosted := hosted)
    else if begun.playingBack then
      w.(recorder := begun, hosted := hosted, queue := LoopModel.PlaybackEvents(begun))
    else
      w.(recorder := begun, hosted := hosted)
  }

  /** The hosted module's `update`: its drain loop consumes the whole queue. */
  function Update(w: World): (r: World)
    ensures r.queue == [] && r.hosted == KeyState.Drain(w.hosted, w.queue)
    ensures r.recorder == w.recorder && r.quit == w.quit
  {
    w.(hosted := KeyState.Drain(w.hosted, w.queue), queue := [])
  }

  /** One pass of the main loop: poll and dispatch, begin the frame, record or substitute,
      then (unless quitting) update the hosted module. */
  function Frame(w: World, es: seq<SdlEvent>): (r: World)
    requires LoopModel.Inv(w.recorder)
    ensures LoopModel.Inv(r.recorder)
  {
    var ready := MirrorOrReplay(PollAll(w, es));
    if ready.quit then ready else Update(ready)
  }

  /** The main loop over a sequence of frames, stopping after the frame that sets `quit`. */
  function Run(w: World, frames: seq<seq<SdlEvent>>): (r: World)
    requires LoopModel.Inv(w.recorder)
    ensures LoopModel.Inv(r.recorder)
    decreases |frames|
  {
    if frames == [] then w
    else
      var next := Frame(w, frames[0]);
      if next.quit then next else Run(next, frames[1..])
  }

  /** The orchestrator's objects as a `World`. */
  function WorldOf(events: EventQueue, loopContext: LoopContext, reloadable: Reloadable, quit: bool): World
    reads events, loopContext, reloadable.hosted
  {
    World(loopContext.Model(), reloadable.hosted.Keys(), events.items, quit)
  }

  /** `dispatch_event`, arm by arm. */
  method DispatchEvent(events: EventQueue, loopContext: LoopContext, reloadable: Reloadable, quit: bool, sdlEvent: SdlEvent)
    returns (quitAfter: bool)
    requires loopContext.Valid()
    modifies events, loopContext, reloadable.hosted
    ensures loopContext.Valid()
    ensures WorldOf(events, loopContext, reloadable, quitAfter) == Dispatch(old(WorldOf(events, loopContext, reloadable, quit)), sdlEvent)
  {
    quitAfter := quit;
    match sdlEvent
    case Quit =>
      quitAfter := true;
    case KeyDown(CodeL, false, true) =>
      if loopContext.Recording() {
        loopContext.BeginPlayback(reloadable);
      } else if loopContext.PlayingBack() {
        loopContext.EndPlayback();
        events.PushBack(ClearInputs);
      } else {
        loopContext.BeginRecording(reloadable);
      }
    case KeyDown(CodeUp, false, _) => events.PushBack(KeyPressed(Up));
    case KeyUp(CodeUp, false) => events.PushBack(KeyReleased(Up));
    case KeyDown(CodeDown, false, _) => events.PushBack(KeyPressed(Down));
    case KeyUp(CodeDown, false) => events.PushBack(KeyReleased(Down));
    case KeyDown(CodeLeft, false, _) => events.PushBack(KeyPressed(Left));
    case KeyUp(CodeLeft, false) => events.PushBack(KeyReleased(Left));
    case KeyDown(CodeRight, false, _) => events.PushBack(KeyPressed(Right));
    case KeyUp(CodeRight, false) => events.PushBack(KeyReleased(Right));
    case _ =>
  }

  /** The `poll_iter` loop: dispatches the frame's SDL events in order. */
  method DispatchAll(events: EventQueue, loopContext: LoopContext, reloadable: Reloadable, quit: bool, sdlEvents: seq<SdlEvent>)
    returns (quitAfter: bool)
    requires loopContext.Valid()
    modifies events, loopContext, reloadable.hosted
    ensures loopContext.Valid()
    ensures WorldOf(events, loopContext, reloadable, quitAfter) == PollAll(old(WorldOf(events, loopContext, reloadable, quit)), sdlEvents)
  {
    ghost var start := WorldOf(events, loopContext, reloadable, quit);
    quitAfter := quit;
    for i := 0 to |sdlEvents|
      invariant loopContext.Valid()
      invariant WorldOf(events, loopContext, reloadable, quitAfter) == PollAll(start, sdlEvents[..i])
    {
      quitAfter := DispatchEvent(events, loopContext, reloadable, quitAfter, sdlEvents[i]);
      assert sdlEvents[..i + 1][..i] == sdlEvents[..i];
    }
    assert sdlEvents[..|sdlEvents|] == sdlEvents;
  }

  /** `begin_frame`, then the live queue mirrored into the current slot while recording, or
      replaced by the slot under the cursor while playing back. */
  method BeginFrameAndMirror(events: EventQueue, loopContext: LoopContext, reloadable: Reloadable, quit: bool)
    requires loopContext.Valid()
    modifies events, loopContext, reloadable.hosted
    ensures loopContext.Valid()
    ensures WorldOf(events, loopContext, reloadable, quit) == MirrorOrReplay(old(WorldOf(events, loopContext, reloadable, quit)))
  {
    loopContext.BeginFrame(reloadable);
    if loopContext.Recording() {
      ghost var begun := loopContext.Model();
      var queued := events.items;
      for i := 0 to |queued|
        modifies loopContext
        invariant loopContext.Model() == LoopModel.PushAll(begun, queued[..i])
      {
        loopContext.PushEvent(queued[i]);
        assert queued[..i + 1][..i] == queued[..i];
      }
      assert queued[..|queued|] == queued;
    } else if loopContext.PlayingBack() {
      events.Clear();
      var slot := loopContext.PlaybackEvents();
      for i := 0 to |slot|
        modifies events
        invariant events.items == slot[..i]
      {
        events.PushBack(slot[i]);
      }
      assert slot[..|slot|] == slot;
    }
  }

  /** One pass of the main loop (the body of `'main_loop`). Returns the new quit flag and
      whether the loop breaks. */
  method RunFrame(events: EventQueue, loopContext: LoopContext, reloadable: Reloadable, quit: bool, sdlEvents: seq<SdlEvent>)
    returns (quitAfter: bool, stop: bool)
    requires loopContext.Valid()
    modifies events, loopContext, reloadable.hosted
    ensures loopContext.Valid()
    ensures WorldOf(events, loopContext, reloadable, quitAfter) == Frame(old(WorldOf(events, loopContext, reloadable, quit)), sdlEvents)
    ensures stop == quitAfter
  {
    quitAfter := DispatchAll(events, loopContext, reloadable, quit, sdlEvents);
    BeginFrameAndMirror(events, loopContext, reloadable, quitAfter);
    if quitAfter {
      stop := true;
      return;
    }
    var shouldQuit := reloadable.Update(events);
    stop := shouldQuit == Yes;
  }
}
