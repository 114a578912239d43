/** The state-continuity provider: the `Reloadable` handle through which the host saves,
    restores and updates the hosted module. Only its contract is modelled; the hosted
    module it runs is the key-flag `State` of dev-client-lib. */
module LiveReload {
  import opened HostApi
  import KeyState

  /** A self-contained copy of the hosted module's whole mutable state, as `save_state`
      produces it. The loop recorder never looks inside one. */
  type Snapshot = KeyState.Flags

  /** What the hosted module's `update` answers. */
  datatype ShouldQuit = Yes | No

  class Reloadable {
    /** The hosted module's state, which the host owns across code swaps. */
    const hosted: KeyState.State

    /** Loading the module runs its `init`, which sets its state to `State::new`. */
    constructor ()
      ensures fresh(hosted) && hosted.Keys() == KeyState.Released
    {
      hosted := new KeyState.State();
    }

    /** `save_state`: a deep copy of the hosted state. */
    method SaveState() returns (s: Snapshot)
      ensures s == hosted.Keys()
    {
      s := hosted.Keys();
    }

    /** `load_state`: overwrites the hosted state with the snapshot, replacing it entirely. */
    method LoadState(s: Snapshot)
      modifies hosted
      ensures hosted.Keys() == s
    {
      hosted.upPressed := s.up;
      hosted.downPressed := s.down;
      hosted.leftPressed := s.left;
      hosted.rightPressed := s.right;
    }

    /** `update`: runs the module's `update`, which drains the host queue into its state
        and never asks to quit. */
    method Update(q: EventQueue) returns (sq: ShouldQuit)
      modifies hosted, q
      ensures q.items == []
      ensures hosted.Keys() == KeyState.Drain(old(hosted.Keys()), old(q.items))
      ensures sq == No
    {
      hosted.UpdateAndRender(q);
      sq := No;
    }
  }
}
