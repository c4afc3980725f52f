/**
 The world a process runs in. Every Redis command, every timer and every step of another process
 is one action of the protocol; the world keeps the run so far, so a method that acts on it is
 checked, call by call, to take only steps the protocol allows.
 */
module World {
  import opened Platform
  import opened Wire
  import opened Protocol
  import opened Invariants
  import opened Preservation
  import opened History

  /** How a Redis call ends: carried out, carried out with the answer lost, or not carried out. */
  datatype Fate = Done | Lost | Failed

  /**
   What the world decides and no process can: how a Redis call made at step n ends, what running a
   decoded job comes to at step n, and whether at step n a heartbeat timer fires or a worker is asked
   to stop.
   */
  datatype Oracle = Oracle(fate: nat -> Fate, run: (nat, Decoded) -> Outcome, tick: nat -> bool, stop: nat -> bool)

  class System {
    const oracle: Oracle
    var s: State
    var step: nat
    ghost var states: seq<State>
    ghost var acts: seq<Action>

    ghost predicate Valid()
      reads this
    {
      Behaviour(states, acts) && states[|acts|] == s && step == |acts|
    }

    /** Some Redis call made since step from would not end well. */
    ghost predicate Disturbed(from: nat)
      reads this
    {
      exists n: nat :: from <= n <= step && oracle.fate(n) != Done
    }

    /** Some worker was asked to stop since step from. */
    ghost predicate Asked(from: nat)
      reads this
    {
      exists n: nat :: from <= n <= step && oracle.stop(n)
    }

    /** Running this job at some step since from came to o. */
    ghost predicate CameTo(from: nat, input: Decoded, o: Outcome)
      reads this
    {
      exists n: nat :: from <= n <= step && oracle.run(n, input) == o
    }

    constructor (initial: State, oracle: Oracle)
      requires Init(initial)
      ensures Valid() && s == initial && acts == [] && this.oracle == oracle
    {
      this.oracle := oracle;
      s, step := initial, 0;
      states, acts := [initial], [];
    }

    /** How a Redis call made now ends. */
    method Fate() returns (fate: Fate)
      ensures fate == oracle.fate(step) && (fate != Done ==> Disturbed(step))
    {
      fate := oracle.fate(step);
    }

    /** One action of some process. */
    method Do(a: Action)
      requires Valid() && Enabled(s, a)
      modifies this
      ensures Valid() && s == Apply(old(s), a)
      ensures states == old(states) + [s] && acts == old(acts) + [a] && step == old(step) + 1
    {
      s, step := Apply(s, a), step + 1;
      ExtendRun(states, acts, a, s);
      states, acts := states + [s], acts + [a];
    }

    /** Any number of steps of any processes. */
    method Pass()
      requires Valid()
      modifies this
      ensures Valid() && old(states) <= states && old(acts) <= acts && old(step) <= step
    {
      var turns: nat := *;
      while turns > 0
        invariant Valid() && old(states) <= states && old(acts) <= acts
      {
        var a: Action := *;
        if Enabled(s, a) {
          Do(a);
        }
        turns := turns - 1;
      }
    }

    lemma Safe()
      requires Valid()
      ensures Inv(s)
    {
      RunInv(states, acts, |acts|);
    }
  }
}
