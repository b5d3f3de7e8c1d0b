/** The half-duplex guard: muted while a guarded playback runs and for a tail after it. */
module Duplex {
  const TAIL_GUARD_SECS := 0.45

  datatype GuardState = GuardState(speaking: bool, mutedUntil: real)

  const QUIET := GuardState(false, 0.0)

  predicate IsMuted(g: GuardState, now: real) {
    g.speaking || now < g.mutedUntil
  }

  function Started(g: GuardState): GuardState {
    g.(speaking := true)
  }

  function Stopped(g: GuardState, now: real): GuardState {
    GuardState(false, now + TAIL_GUARD_SECS)
  }

  class DuplexGuard {
    var speaking: bool
    var mutedUntil: real

    function State(): GuardState
      reads this
    {
      GuardState(speaking, mutedUntil)
    }

    constructor ()
      ensures State() == QUIET
    {
      speaking, mutedUntil := false, 0.0;
    }

    method Start()
      modifies this
      ensures State() == Started(old(State()))
      ensures speaking && mutedUntil == old(mutedUntil)
    {
      speaking := true;
    }

    method Stop(now: real)
      modifies this
      ensures State() == Stopped(old(State()), now)
      ensures !speaking && mutedUntil == now + 0.45
    {
      speaking := false;
      mutedUntil := now + TAIL_GUARD_SECS;
    }
  }
}
