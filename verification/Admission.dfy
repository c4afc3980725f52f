/** Theorems about inFlight: what a heartbeat can report, what admission rests on, and how a worker winds down. */
module Admission {
  import opened Platform
  import opened Registry
  import opened Calls
  import opened Protocol
  import opened Invariants
  import opened Preservation
  import opened Recovery

  // ---- every heartbeat tells what was so when it was stamped ----

  /** w stamped heartbeat b at step k. */
  ghost predicate StampedAt(states: seq<State>, acts: seq<Action>, k: nat, w: WorkerId, b: Beat)
    requires Behaviour(states, acts)
  {
    k < |acts| && acts[k] == Work(w, SampleBeat) && b == BeatOf(states[k].fleet[w], states[k].now)
  }

  ghost predicate Seen(states: seq<State>, acts: seq<Action>, i: nat, w: WorkerId, b: Beat)
    requires Behaviour(states, acts)
  {
    exists k: nat :: k < i && StampedAt(states, acts, k, w, b)
  }

  lemma SeenLater(states: seq<State>, acts: seq<Action>, i: nat, j: nat, w: WorkerId, b: Beat)
    requires Behaviour(states, acts) && i <= j && Seen(states, acts, i, w, b)
    ensures Seen(states, acts, j, w, b)
  {
    var k: nat :| k < i && StampedAt(states, acts, k, w, b);
    assert k < j;
  }

  ghost predicate BeatsSeen(states: seq<State>, acts: seq<Action>, i: nat, w: WorkerId)
    requires Behaviour(states, acts) && i < |states|
  {
    && (w in states[i].fleet ==>
          forall n | 0 <= n < |states[i].fleet[w].outbox| :: Seen(states, acts, i, w, states[i].fleet[w].outbox[n]))
    && (w in states[i].registry ==> Seen(states, acts, i, w, states[i].registry[w]))
  }

  /** Where a step's heartbeats come from. */
  lemma BeatsMove(s: State, a: Action, w: WorkerId)
    requires Enabled(s, a)
    ensures var t := Apply(s, a);
            && (w in t.fleet ==> forall n | 0 <= n < |t.fleet[w].outbox| ::
                  || (w in s.fleet && t.fleet[w].outbox[n] in s.fleet[w].outbox)
                  || (a == Work(w, SampleBeat) && t.fleet[w].outbox[n] == BeatOf(s.fleet[w], s.now)))
            && (w in t.registry ==>
                  || (w in s.registry && t.registry[w] == s.registry[w])
                  || (w in s.fleet && t.registry[w] in s.fleet[w].outbox))
  {
    if a.Work? && a.w == w {
      OwnBeatsMove(s, w, a.act);
    } else if a.Work? {
      OthersBeats(s, a.w, a.act, w);
    }
  }

  lemma OwnBeatsMove(s: State, w: WorkerId, act: WorkerAct)
    requires Enabled(s, Work(w, act))
    ensures forall b | b in WorkerAfter(s, w, act).outbox ::
              w in s.fleet && (b in s.fleet[w].outbox || (act.SampleBeat? && b == BeatOf(s.fleet[w], s.now)))
    ensures w in RegistryAfter(s, w, act) ==>
              || (w in s.registry && RegistryAfter(s, w, act)[w] == s.registry[w])
              || (w in s.fleet && RegistryAfter(s, w, act)[w] in s.fleet[w].outbox)
  {
  }

  lemma BeatsSeenOn(states: seq<State>, acts: seq<Action>, i: nat, w: WorkerId, b: Beat)
    requires Behaviour(states, acts) && i < |acts| && BeatsSeen(states, acts, i, w)
    requires || (w in states[i].fleet && b in states[i].fleet[w].outbox)
             || (acts[i] == Work(w, SampleBeat) && b == BeatOf(states[i].fleet[w], states[i].now))
             || (w in states[i].registry && b == states[i].registry[w])
    ensures Seen(states, acts, i + 1, w, b)
  {
    if acts[i] == Work(w, SampleBeat) && b == BeatOf(states[i].fleet[w], states[i].now) {
      assert StampedAt(states, acts, i, w, b);
    } else {
      SeenLater(states, acts, i, i + 1, w, b);
    }
  }

  lemma BeatsSeenNext(states: seq<State>, acts: seq<Action>, i: nat, w: WorkerId)
    requires Behaviour(states, acts) && 0 < i < |states| && BeatsSeen(states, acts, i - 1, w)
    ensures BeatsSeen(states, acts, i, w)
  {
    var t := states[i];
    BeatsMove(states[i - 1], acts[i - 1], w);
    if w in t.fleet {
      forall n | 0 <= n < |t.fleet[w].outbox|
        ensures Seen(states, acts, i, w, t.fleet[w].outbox[n])
      {
        BeatsSeenOn(states, acts, i - 1, w, t.fleet[w].outbox[n]);
      }
    }
    if w in t.registry {
      BeatsSeenOn(states, acts, i - 1, w, t.registry[w]);
    }
  }

  /** Every heartbeat on its way or in the registry was stamped by its worker at some earlier step. */
  lemma {:induction false} RunBeatsSeen(states: seq<State>, acts: seq<Action>, i: nat, w: WorkerId)
    requires Behaviour(states, acts) && i < |states|
    ensures BeatsSeen(states, acts, i, w)
  {
    if i > 0 {
      RunBeatsSeen(states, acts, i - 1, w);
      BeatsSeenNext(states, acts, i, w);
    }
  }

  // ---- admission ----

  /** The registry copy a request decides on is the registry as it was at some earlier state. */
  lemma {:induction false} CapacityCopy(states: seq<State>, acts: seq<Action>, i: nat, c: Corr) returns (k: nat)
    requires Behaviour(states, acts) && i < |states|
    requires c in states[i].api.calls && states[i].api.calls[c].phase.CapacityRead?
    ensures k <= i && states[k].registry == states[i].api.calls[c].phase.hash
    decreases i
  {
    var s, a := states[i - 1], acts[i - 1];
    if a == Serve(c, ReadCapacity) {
      k := i - 1;
    } else {
      CapacityReadStays(s, a, c);
      k := CapacityCopy(states, acts, i - 1, c);
    }
  }

  lemma CapacityReadStays(s: State, a: Action, c: Corr)
    requires Enabled(s, a) && a != Serve(c, ReadCapacity)
    requires c in Apply(s, a).api.calls && Apply(s, a).api.calls[c].phase.CapacityRead?
    ensures c in s.api.calls && s.api.calls[c].phase == Apply(s, a).api.calls[c].phase
  {
    match a
    case Tick(_) =>
    case Work(w, act) =>
    case Serve(d, act) =>
      if d == c && !act.Arrive? {
        PhaseBefore(s.cfg, s.api.calls[c], c in s.api.waiters, act, s.now, s.registry, |s.q.entries|);
      }
  }

  lemma PhaseBefore(cfg: Config, k: Call, waiting: bool, act: CallAct, now: nat, hash: Hash, next: nat)
    requires ActEnabled(k, act, now) && act != ReadCapacity
    requires CallAfter(cfg, k, waiting, act, now, hash, next).phase.CapacityRead?
    ensures CallAfter(cfg, k, waiting, act, now, hash, next).phase == k.phase
  {
  }

  /**
   What request c's admission at state i rests on: in its copy of the registry, a heartbeat that w
   stamped at step k, alive and with inFlight below its capacity, at most 10000 ms ago.
   */
  ghost predicate RestsOn(states: seq<State>, acts: seq<Action>, i: nat, c: Corr, w: WorkerId, k: nat)
    requires Behaviour(states, acts) && i < |states|
    requires c in states[i].api.calls && states[i].api.calls[c].phase.CapacityRead?
  {
    var hash := states[i].api.calls[c].phase.hash;
    && k < i && w in hash && StampedAt(states, acts, k, w, hash[w])
    && states[k].fleet[w].alive && states[k].fleet[w].inFlight < 1
    && states[i].now <= states[k].now + 10000
  }

  /**
   Bounded staleness of admission: a request is let through only if some worker really was alive
   with inFlight below its capacity at an instant of the last 10000 ms.
   */
  lemma AdmissionIsRecent(states: seq<State>, acts: seq<Action>, i: nat, c: Corr)
    requires Behaviour(states, acts) && i < |acts| && acts[i] == Serve(c, Decide)
    requires states[i + 1].api.calls[c].phase.Admitted?
    ensures exists w, k: nat :: RestsOn(states, acts, i, c, w, k)
  {
    var s := states[i];
    var hash := s.api.calls[c].phase.hash;
    assert HasSpareCapacity(hash, s.now);
    var w :| w in hash && Healthy(hash, w, s.now) && Spare(hash[w]);
    var m := CapacityCopy(states, acts, i, c);
    RunBeatsSeen(states, acts, m, w);
    var k: nat :| k < m && StampedAt(states, acts, k, w, hash[w]);
    assert RestsOn(states, acts, i, c, w, k);
  }

  // ---- one job at a time, and a clean end ----

  /** No Redis call of w failed before step i. */
  ghost predicate NoFaults(acts: seq<Action>, i: nat, w: WorkerId)
    requires i <= |acts|
  {
    forall k | 0 <= k < i && acts[k].Work? && acts[k].w == w :: !Fails(acts[k].act)
  }

  lemma {:induction false} NoFaultsNotFaulted(states: seq<State>, acts: seq<Action>, i: nat, w: WorkerId)
    requires Behaviour(states, acts) && i < |states| && NoFaults(acts, i, w) && w in states[i].fleet
    ensures !states[i].fleet[w].faulted
  {
    if i > 0 {
      var s, a := states[i - 1], acts[i - 1];
      if w in s.fleet {
        NoFaultsNotFaulted(states, acts, i - 1, w);
      }
      if a.Work? && a.w == w {
        FaultedByFailure(s, w, a.act);
      } else {
        assert states[i].fleet[w] == s.fleet[w];
      }
    }
  }

  lemma FaultedByFailure(s: State, w: WorkerId, act: WorkerAct)
    requires Enabled(s, Work(w, act)) && !Fails(act)
    ensures WorkerAfter(s, w, act).faulted ==> w in s.fleet && s.fleet[w].faulted
  {
  }

  /** A worker none of whose Redis calls failed owns at most the entry it is handling. */
  lemma OwnsOnlyItsTask(states: seq<State>, acts: seq<Action>, i: nat, w: WorkerId, id: nat)
    requires Behaviour(states, acts) && i < |states| && w in states[i].fleet && NoFaults(acts, i, w)
    requires id in Owned(states[i].q, w)
    ensures Holds(states[i].fleet[w].pc, id)
  {
    RunInv(states, acts, i);
    NoFaultsNotFaulted(states, acts, i, w);
  }

  /** Clean loop boundary: at the loop head such a worker owns nothing and has nothing in flight. */
  lemma CleanLoopHead(states: seq<State>, acts: seq<Action>, i: nat, w: WorkerId)
    requires Behaviour(states, acts) && i < |states| && w in states[i].fleet && NoFaults(acts, i, w)
    requires states[i].fleet[w].pc.LoopHead?
    ensures Owned(states[i].q, w) == {} && states[i].fleet[w].inFlight == 0
  {
    RunFields(states, acts, i, w);
    forall id | id in Owned(states[i].q, w)
      ensures false
    {
      OwnsOnlyItsTask(states, acts, i, w, id);
    }
  }

  /**
   inFlight is 1 exactly while a job executes, faults or not, so no heartbeat ever reports more than
   the capacity, 1.
   */
  lemma InFlightIsOneOrNone(states: seq<State>, acts: seq<Action>, i: nat, w: WorkerId)
    requires Behaviour(states, acts) && i < |states|
    ensures w in states[i].fleet ==> states[i].fleet[w].inFlight == if states[i].fleet[w].pc.Executing? then 1 else 0
    ensures w in states[i].registry ==> states[i].registry[w].inFlight <= states[i].registry[w].capacity == 1
  {
    RunFields(states, acts, i, w);
    if w in states[i].registry {
      RunBeatsSeen(states, acts, i, w);
      var k: nat :| k < i && StampedAt(states, acts, k, w, states[i].registry[w]);
      RunFields(states, acts, k, w);
    }
  }

  /** Graceful drain: such a worker deregisters owning nothing, and is neither listed nor an owner ever after. */
  lemma DrainedBeforeDeregister(states: seq<State>, acts: seq<Action>, i: nat, j: nat, w: WorkerId)
    requires Behaviour(states, acts) && i < |acts| && acts[i] == Work(w, Deregister) && NoFaults(acts, i, w)
    requires i < j < |states|
    ensures Owned(states[i].q, w) == {} && states[i].fleet[w].inFlight == 0
    ensures w !in states[j].registry && Owned(states[j].q, w) == {}
  {
    RunFields(states, acts, i, w);
    forall id | id in Owned(states[i].q, w)
      ensures false
    {
      OwnsOnlyItsTask(states, acts, i, w, id);
    }
    GoneFrom(states, acts, i, j, w);
    RunBeatsInOrder(states, acts, j, w);
    forall id | id in Owned(states[j].q, w)
      ensures false
    {
      OwnsOnlyItsTask(states, acts, j, w, id);
    }
  }

  lemma GoneStep(s: State, a: Action, w: WorkerId)
    requires Enabled(s, a) && BeatsInOrder(s, w) && w in s.fleet && s.fleet[w].pc.Gone?
    requires FieldsOk(s.fleet[w], s.q.group.Some?, s.now)
    ensures w in Apply(s, a).fleet && Apply(s, a).fleet[w].pc.Gone?
    ensures a.Work? && a.w == w ==> !Fails(a.act)
  {
    if a.Work? && a.w == w {
      GoneStays(s, w, a.act);
    }
  }

  lemma {:induction false} GoneFrom(states: seq<State>, acts: seq<Action>, i: nat, j: nat, w: WorkerId)
    requires Behaviour(states, acts) && i < |acts| && acts[i] == Work(w, Deregister) && NoFaults(acts, i, w)
    requires i < j < |states|
    ensures NoFaults(acts, j, w) && w in states[j].fleet && states[j].fleet[w].pc.Gone?
    decreases j
  {
    if j > i + 1 {
      GoneFrom(states, acts, i, j - 1, w);
      RunBeatsInOrder(states, acts, j - 1, w);
      RunFields(states, acts, j - 1, w);
      GoneStep(states[j - 1], acts[j - 1], w);
    }
  }
}
