/** The key-flag state machine of the hosted module (dev-client-lib/src/state.rs):
    the four pressed flags of `State`, how `dispatch_event` updates them and how the
    drain loop of `update_and_render` folds dispatch over the pending queue. */
module KeyState {
  import opened Wrappers
  import opened HostApi

  /** The four pressed flags of the hosted `State`. */
  datatype Flags = Flags(up: bool, down: bool, left: bool, right: bool)

  /** Every key released: what `State::new` starts with and `ClearInputs` restores. */
  const Released: Flags := Flags(false, false, false, false)

  /** Whether the flag of `k` is set in `f`. */
  function Pressed(f: Flags, k: Key): bool
  {
    match k
    case Up => f.up
    case Down => f.down
    case Left => f.left
    case Right => f.right
  }

  /** Two flag records that agree on every key are equal. */
  lemma {:induction false} FlagsByKey(a: Flags, b: Flags)
    requires forall k :: Pressed(a, k) == Pressed(b, k)
    ensures a == b
  {
    assert Pressed(a, Up) == Pressed(b, Up);
    assert Pressed(a, Down) == Pressed(b, Down);
    assert Pressed(a, Left) == Pressed(b, Left);
    assert Pressed(a, Right) == Pressed(b, Right);
  }

  /** `State::dispatch_event` on the flags. */
  function Dispatch(f: Flags, e: Event): (r: Flags)
    ensures e.ClearInputs? ==> forall k :: !Pressed(r, k)
    ensures e.KeyPressed? ==>
      && Pressed(r, e.key)
      && forall k :: k != e.key ==> Pressed(r, k) == Pressed(f, k)
    ensures e.KeyReleased? ==>
      && !Pressed(r, e.key)
      && forall k :: k != e.key ==> Pressed(r, k) == Pressed(f, k)
  {
    match e
    case ClearInputs => Released
    case KeyPressed(Up) => f.(up := true)
    case KeyReleased(Up) => f.(up := false)
    case KeyPressed(Down) => f.(down := true)
    case KeyReleased(Down) => f.(down := false)
    case KeyPressed(Left) => f.(left := true)
    case KeyReleased(Left) => f.(left := false)
    case KeyPressed(Right) => f.(right := true)
    case KeyReleased(Right) => f.(right := false)
  }

  /** The per-key clauses of `Dispatch`'s contract are a complete specification: any flags
      that meet them are the flags `Dispatch` computes. */
  lemma DispatchDetermined(f: Flags, e: Event, r: Flags)
    requires e.ClearInputs? ==> forall k :: !Pressed(r, k)
    requires e.KeyPressed? ==>
      && Pressed(r, e.key)
      && forall k :: k != e.key ==> Pressed(r, k) == Pressed(f, k)
    requires e.KeyReleased? ==>
      && !Pressed(r, e.key)
      && forall k :: k != e.key ==> Pressed(r, k) == Pressed(f, k)
    ensures r == Dispatch(f, e)
  {
    var d := Dispatch(f, e);
    forall k: Key
      ensures Pressed(r, k) == Pressed(d, k)
    {
      if !e.ClearInputs? && k != e.key {
        assert Pressed(r, k) == Pressed(f, k);
      }
    }
    FlagsByKey(r, d);
  }

  /** Dispatching the same event twice gives the flags dispatching it once gives. */
  lemma DispatchIdempotent(f: Flags, e: Event)
    ensures Dispatch(Dispatch(f, e), e) == Dispatch(f, e)
  {
  }

  /** The flags after the drain loop has consumed `es`, front first. An empty queue changes
      nothing; otherwise the last event drained is honoured whatever came before it. */
  function Drain(f: Flags, es: seq<Event>): (r: Flags)
    ensures es == [] ==> r == f
    ensures es != [] && es[|es| - 1].ClearInputs? ==> r == Released
    ensures es != [] && es[|es| - 1].KeyPressed? ==> Pressed(r, es[|es| - 1].key)
    ensures es != [] && es[|es| - 1].KeyReleased? ==> !Pressed(r, es[|es| - 1].key)
    decreases |es|
  {
    if es == [] then f else Drain(Dispatch(f, es[0]), es[1..])
  }

  /** Draining two queues one after the other is draining their concatenation. */
  lemma {:induction false} DrainAppend(f: Flags, a: seq<Event>, b: seq<Event>)
    ensures Drain(f, a + b) == Drain(Drain(f, a), b)
    decreases |a|
  {
    if a == [] {
      assert a + b == b;
    } else {
      assert (a + b)[0] == a[0];
      assert (a + b)[1..] == a[1..] + b;
      DrainAppend(Dispatch(f, a[0]), a[1..], b);
    }
  }

  /** Reference definition of a key's flag after a sequence of events: the last event in
      `es` that concerns `k` decides it; when none does, the flag keeps `initial`. */
  function HeldAfter(initial: bool, es: seq<Event>, k: Key): bool
    decreases |es|
  {
    if es == [] then initial
    else
      var e := es[|es| - 1];
      if e == ClearInputs || e == KeyReleased(k) then false
      else if e == KeyPressed(k) then true
      else HeldAfter(initial, es[..|es| - 1], k)
  }

  /** The drain loop agrees with the reference definition, key by key. */
  lemma {:induction false} DrainHeldAfter(f: Flags, es: seq<Event>, k: Key)
    ensures Pressed(Drain(f, es), k) == HeldAfter(Pressed(f, k), es, k)
    decreases |es|
  {
    if es != [] {
      var front, e := es[..|es| - 1], es[|es| - 1];
      assert es == front + [e];
      DrainAppend(f, front, [e]);
      DrainHeldAfter(f, front, k);
      assert Drain(Drain(f, front), [e]) == Dispatch(Drain(f, front), e);
    }
  }

  /** A `ClearInputs` makes the outcome independent of everything drained before it:
      no key stays held across it. */
  lemma {:induction false} DrainAfterClear(f: Flags, before: seq<Event>, after: seq<Event>)
    ensures Drain(f, before + [ClearInputs] + after) == Drain(Released, after)
  {
    DrainAppend(f, before + [ClearInputs], after);
    DrainAppend(f, before, [ClearInputs]);
    assert Drain(Drain(f, before), [ClearInputs]) == Released;
  }

  /** The hosted module's state, reduced to its four pressed flags. */
  class State {
    var upPressed: bool
    var downPressed: bool
    var leftPressed: bool
    var rightPressed: bool

    /** The current flags as a value. */
    function Keys(): Flags
      reads this
    {
      Flags(upPressed, downPressed, leftPressed, rightPressed)
    }

    /** `State::new`: every key starts released. */
    constructor ()
      ensures Keys() == Released
    {
      upPressed := false;
      downPressed := false;
      leftPressed := false;
      rightPressed := false;
    }

    /** `State::dispatch_event`. */
    method DispatchEvent(e: Event)
      modifies this
      ensures Keys() == Dispatch(old(Keys()), e)
    {
      match e
      case ClearInputs =>
        upPressed := false;
        downPressed := false;
        leftPressed := false;
        rightPressed := false;
      case KeyPressed(Up) => upPressed := true;
      case KeyReleased(Up) => upPressed := false;
      case KeyPressed(Down) => downPressed := true;
      case KeyReleased(Down) => downPressed := false;
      case KeyPressed(Left) => leftPressed := true;
      case KeyReleased(Left) => leftPressed := false;
      case KeyPressed(Right) => rightPressed := true;
      case KeyReleased(Right) => rightPressed := false;
    }

    /** The event-drain loop of `update_and_render`: polls the host queue until it is empty,
        dispatching every event in FIFO order. */
    method UpdateAndRender(q: EventQueue)
      modifies this, q
      ensures q.items == []
      ensures Keys() == Drain(old(Keys()), old(q.items))
    {
      while true
        invariant Drain(Keys(), q.items) == Drain(old(Keys()), old(q.items))
        decreases |q.items|
      {
        var e := q.PollEvents();
        if e == None {
          break;
        }
        DispatchEvent(e.value);
      }
    }
  }
}
