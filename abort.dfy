/** `AbortController` and its signal, with the moment of the user's stop
    given as part of the scenario. Every `signal.aborted` read in the engine
    is a poll; the polls of one run are numbered 0, 1, 2, ... in the order a
    sequential execution makes them, and `stopAt` says from which poll on a
    stop (or a newer run) has aborted the controller from outside. */
module Abort {
  import opened Types

  class AbortController {
    /** `signal.aborted`, as last observed or set by `abort()`. */
    var aborted: bool
    /** How many times the signal has been polled. */
    var polls: nat
    /** The first poll that observes an abort coming from outside the run
        (`None`: no such abort happens). */
    const stopAt: Option<nat>

    constructor (stopAt: Option<nat>)
      ensures !aborted && polls == 0 && this.stopAt == stopAt
    {
      aborted := false;
      polls := 0;
      this.stopAt := stopAt;
    }

    /** Whether the poll numbered `k` comes after the outside abort. */
    predicate StopLanded(k: nat) {
      stopAt.Some? && stopAt.value <= k
    }

    /** Whether one of the polls numbered `from` up to, not including, `to`
        observes the outside abort; since a landed abort stays landed, the
        last of them does exactly then. */
    predicate StopSeen(from: nat, to: nat) {
      from < to && StopLanded(to - 1)
    }

    /** What the polls made since the signal read `a0` after `p0` polls can
        have done: more polls, and the signal aborted exactly when it was
        already or one of those polls observed the outside abort. Nothing
        else aborts it. */
    predicate PolledFrom(a0: bool, p0: nat)
      reads this
    {
      p0 <= polls && aborted == (a0 || StopSeen(p0, polls))
    }

    /** How many of `n` consecutive polls, the first of them numbered
        `from`, pass before one of them observes the abort. */
    function PassingPolls(from: nat, n: nat): (k: nat)
      reads this
      ensures k <= n
      ensures k > 0 ==> !aborted
      ensures forall p :: from <= p < from + k ==> !StopLanded(p)
      ensures k < n ==> aborted || StopLanded(from + k)
    {
      if aborted then 0
      else match stopAt
        case None => n
        case Some(s) => if s <= from then 0 else if s - from < n then s - from else n
    }

    /** `controller.abort()`: the signal is aborted from now on. */
    method Abort()
      modifies this`aborted
      ensures aborted
    {
      aborted := true;
    }

    /** A read of `signal.aborted`. */
    method IsAborted() returns (b: bool)
      modifies this
      ensures polls == old(polls) + 1
      ensures b == (old(aborted) || StopLanded(old(polls)))
      ensures aborted == b
      ensures PolledFrom(old(aborted), old(polls))
    {
      b := aborted || StopLanded(polls);
      aborted := b;
      polls := polls + 1;
    }
  }

  /** Polls accounted for in two stretches are accounted for as one: the
      accounting of a run is that of its steps, one after another. */
  lemma PolledFromCompose(c: AbortController, a0: bool, p0: nat, a1: bool, p1: nat)
    requires p0 <= p1 && a1 == (a0 || c.StopSeen(p0, p1))
    requires c.PolledFrom(a1, p1)
    ensures c.PolledFrom(a0, p0)
  {
    if c.StopSeen(p0, p1) && p1 < c.polls {
      assert c.stopAt.value <= p1 - 1 < c.polls - 1;
    }
  }

  /** A check made after further polls sees the signal set exactly when it
      was set before those polls or the outside abort has landed by the
      check: an abort seen by the polls in between has landed by then too. */
  lemma CheckAfterPolls(c: AbortController, a0: bool, p0: nat, a1: bool, p1: nat)
    requires p0 <= p1 && a1 == (a0 || c.StopSeen(p0, p1))
    ensures (a1 || c.StopLanded(p1)) == (a0 || c.StopLanded(p1))
  {
  }
}
