/**
 When the admission test keeps within the fleet's capacity, which it decides by heartbeats and not
 by the workers themselves.
 */
module Capacity {
  import opened Platform
  import opened InvocationStream
  import opened Calls
  import opened Protocol
  import opened Invariants
  import opened Settlement
  import opened Recovery
  import opened Admission

  // ---- demand and supply ----

  /** Whether a worker at pc has a message in hand. */
  predicate Handles(pc: Pc) {
    pc.Received? || pc.Executing? || pc.Executed? || pc.Published?
  }

  /** The workers that can take on a job: alive, in their loop and not stopping, with no message in hand. */
  ghost function Free(s: State): set<WorkerId> {
    set w | w in s.fleet && s.fleet[w].alive && s.fleet[w].running && !Handles(s.fleet[w].pc)
  }

  /** A live worker has entry id in hand. */
  ghost predicate InHand(fleet: map<WorkerId, Worker>, id: nat) {
    exists w :: w in fleet && fleet[w].alive && Holds(fleet[w].pc, id)
  }

  /**
   The job of a request let through is still to be taken on: not yet in the log, or in it without an
   ack and in no live worker's hands.
   */
  ghost predicate Needs(s: State, k: Call) {
    || k.phase.Admitted? || k.phase.Subscribing? || k.phase.Adding?
    || (k.entry.Some? && k.entry.value < |s.q.tracks| && !s.q.tracks[k.entry.value].acked && !InHand(s.fleet, k.entry.value))
  }

  ghost function Demand(s: State): set<Corr> {
    set c | c in s.api.calls && Needs(s, s.api.calls[c])
  }

  /** No more jobs need a worker than workers are free. */
  ghost predicate Fits(s: State) {
    |Demand(s)| <= |Free(s)|
  }

  // ---- what a worker did ----

  /** A message comes into w's hands: a read, or a claim that is granted, whose answer arrives. */
  ghost predicate Takes(s: State, a: Action, w: WorkerId) {
    && a.Work? && a.w == w && w in s.fleet
    && (a.act == ReadNew(false) || (a.act == Claim(false) && AtRow(s.fleet[w].pc) && Claimable(s, RowAt(s, w).id)))
  }

  /** w is done with a message: it has asked for the ack, or a Redis call about the message threw. */
  ghost predicate LetsGo(s: State, a: Action, w: WorkerId) {
    && a.Work? && a.w == w && w in s.fleet
    && (a.act.Ack? || a.act == WorkerAct.Publish(true) || (a.act.Fault? && Handles(s.fleet[w].pc)))
  }

  /** What a step adds to the messages in w's hands. */
  ghost function Delta(s: State, a: Action, w: WorkerId): int {
    if Takes(s, a, w) then 1 else if LetsGo(s, a, w) then -1 else 0
  }

  /** Messages w took less messages w let go of, in the steps from k up to i. */
  ghost function Taken(states: seq<State>, acts: seq<Action>, k: nat, i: nat, w: WorkerId): int
    requires i <= |acts| <= |states|
    decreases i
  {
    if i <= k then 0 else Taken(states, acts, k, i - 1, w) + Delta(states[i - 1], acts[i - 1], w)
  }

  /** w took this step somewhere from k up to i. */
  ghost predicate Did(acts: seq<Action>, k: nat, i: nat, w: WorkerId, act: WorkerAct)
    requires i <= |acts|
    decreases i
  {
    k < i && (acts[i - 1] == Work(w, act) || Did(acts, k, i - 1, w, act))
  }

  lemma {:induction false} DidIff(acts: seq<Action>, k: nat, i: nat, w: WorkerId, act: WorkerAct)
    requires i <= |acts|
    ensures Did(acts, k, i, w, act) <==> exists m :: k <= m < i && acts[m] == Work(w, act)
    decreases i
  {
    if k < i {
      DidIff(acts, k, i - 1, w, act);
    }
  }

  predicate StartingUp(pc: Pc) {
    pc.Booting? || pc.GroupReady? || pc.FirstBeat?
  }

  function Hand(wk: Worker): int {
    if Handles(wk.pc) then 1 else 0
  }

  lemma HandMoves(s: State, w: WorkerId, act: WorkerAct)
    requires Enabled(s, Work(w, act)) && w in s.fleet
    ensures Hand(WorkerAfter(s, w, act)) == Hand(s.fleet[w]) + Delta(s, Work(w, act), w)
  {
  }

  lemma RunningMoves(s: State, w: WorkerId, act: WorkerAct)
    requires Enabled(s, Work(w, act)) && w in s.fleet
    ensures var wk, m := s.fleet[w], WorkerAfter(s, w, act);
            && (m.alive <==> wk.alive && !act.Crash?)
            && (m.running <==> (wk.running || act.BeginLoop?) && !act.Stop?)
  {
  }

  lemma StartingMoves(s: State, w: WorkerId, act: WorkerAct)
    requires Enabled(s, Work(w, act)) && w in s.fleet && FieldsOk(s.fleet[w], s.q.group.Some?, s.now)
    ensures StartingUp(WorkerAfter(s, w, act).pc) ==> StartingUp(s.fleet[w].pc) && !act.Stop?
    ensures act.BeginLoop? ==> StartingUp(s.fleet[w].pc)
  {
  }

  lemma StepMoves(s: State, a: Action, w: WorkerId)
    requires Enabled(s, a) && w in s.fleet && FieldsOk(s.fleet[w], s.q.group.Some?, s.now)
    ensures w in Apply(s, a).fleet
    ensures Moved(s.fleet[w], Apply(s, a).fleet[w], a == Work(w, Crash), a == Work(w, BeginLoop), a == Work(w, Stop), Delta(s, a, w))
    ensures a == Work(w, BeginLoop) ==> StartingUp(s.fleet[w].pc)
  {
    if a.Work? && a.w == w {
      HandMoves(s, w, a.act);
      RunningMoves(s, w, a.act);
      StartingMoves(s, w, a.act);
    } else if a.Work? {
      OthersBeats(s, a.w, a.act, w);
    }
  }

  /**
   From wk to m a worker crashed, began its loop, was told to stop or not, and took that many
   messages more than it let go of.
   */
  ghost predicate Moved(wk: Worker, m: Worker, crashed: bool, begun: bool, stopped: bool, taken: int) {
    && (m.alive <==> wk.alive && !crashed)
    && (m.running <==> (wk.running || begun) && !stopped)
    && (StartingUp(m.pc) ==> StartingUp(wk.pc) && !stopped)
    && Hand(m) == Hand(wk) + taken
  }

  lemma MovedOn(wk: Worker, m: Worker, n: Worker, crashed: bool, begun: bool, stopped: bool, taken: int,
                crash: bool, begin: bool, stop: bool, delta: int)
    requires Moved(wk, m, crashed, begun, stopped, taken) && Moved(m, n, crash, begin, stop, delta)
    requires begin ==> StartingUp(m.pc)
    ensures Moved(wk, n, crashed || crash, begun || begin, stopped || stop, taken + delta)
  {
  }

  /** w at state i is what it was at state k, reckoned forward by what it did. */
  ghost predicate Reckoned(states: seq<State>, acts: seq<Action>, k: nat, i: nat, w: WorkerId)
    requires k <= i < |states| == |acts| + 1 && w in states[k].fleet
  {
    && w in states[i].fleet
    && Moved(states[k].fleet[w], states[i].fleet[w], Did(acts, k, i, w, Crash), Did(acts, k, i, w, BeginLoop),
             Did(acts, k, i, w, Stop), Taken(states, acts, k, i, w))
  }

  lemma {:induction false} ReckonedNext(states: seq<State>, acts: seq<Action>, k: nat, i: nat, w: WorkerId)
    requires Behaviour(states, acts) && k < i < |states| && w in states[k].fleet
    ensures Reckoned(states, acts, k, i, w)
    decreases i, 0
  {
    var s, a := states[i - 1], acts[i - 1];
    RunReckoned(states, acts, k, i - 1, w);
    RunFields(states, acts, i - 1, w);
    StepMoves(s, a, w);
    MovedOn(states[k].fleet[w], s.fleet[w], states[i].fleet[w],
            Did(acts, k, i - 1, w, Crash), Did(acts, k, i - 1, w, BeginLoop), Did(acts, k, i - 1, w, Stop),
            Taken(states, acts, k, i - 1, w),
            a == Work(w, Crash), a == Work(w, BeginLoop), a == Work(w, Stop), Delta(s, a, w));
  }

  lemma ReckonedSelf(states: seq<State>, acts: seq<Action>, k: nat, i: nat, w: WorkerId)
    requires k == i < |states| == |acts| + 1 && w in states[k].fleet
    ensures Reckoned(states, acts, k, i, w)
  {
  }

  /** Whether a worker is alive, in its loop and busy, reckoned from any earlier state. */
  lemma {:induction false} RunReckoned(states: seq<State>, acts: seq<Action>, k: nat, i: nat, w: WorkerId)
    requires Behaviour(states, acts) && k <= i < |states| && w in states[k].fleet
    ensures Reckoned(states, acts, k, i, w)
    decreases i, 1
  {
    if k < i {
      ReckonedNext(states, acts, k, i, w);
    } else {
      ReckonedSelf(states, acts, k, i, w);
    }
  }

  // ---- who is free, by what they did ----

  /**
   w, as it was at state k, can take on a job at state i: it was in its loop or has begun it since, has
   neither crashed nor been told to stop, and is done with every message it had or took.
   */
  ghost predicate FreeSince(states: seq<State>, acts: seq<Action>, k: nat, i: nat, w: WorkerId)
    requires k <= i < |states| == |acts| + 1 && w in states[k].fleet
  {
    && states[k].fleet[w].alive && (states[k].fleet[w].running || Did(acts, k, i, w, BeginLoop))
    && !Did(acts, k, i, w, Crash) && !Did(acts, k, i, w, Stop)
    && Hand(states[k].fleet[w]) + Taken(states, acts, k, i, w) == 0
  }

  /** A worker is free exactly when it is free by what it did since any state it was in. */
  lemma FreeIff(states: seq<State>, acts: seq<Action>, k: nat, i: nat, w: WorkerId)
    requires Behaviour(states, acts) && k <= i < |states| && w in states[k].fleet
    ensures w in Free(states[i]) <==> FreeSince(states, acts, k, i, w)
  {
    RunReckoned(states, acts, k, i, w);
  }

  /** w was booted at step b. */
  ghost predicate BootedAt(acts: seq<Action>, b: nat, i: nat, w: WorkerId) {
    b < i <= |acts| && acts[b] == Work(w, Boot)
  }

  lemma FleetGrows(s: State, a: Action, w: WorkerId)
    requires Enabled(s, a) && w !in s.fleet && w in Apply(s, a).fleet
    ensures a == Work(w, Boot)
  {
  }

  lemma {:induction false} WasBooted(states: seq<State>, acts: seq<Action>, i: nat, w: WorkerId) returns (b: nat)
    requires Behaviour(states, acts) && i < |states| && w in states[i].fleet
    ensures BootedAt(acts, b, i, w) && w in states[b + 1].fleet
    decreases i
  {
    if w in states[i - 1].fleet {
      b := WasBooted(states, acts, i - 1, w);
    } else {
      FleetGrows(states[i - 1], acts[i - 1], w);
      b := i - 1;
    }
  }

  /** The workers free by all they did since they were booted. */
  ghost function FreeByHistory(states: seq<State>, acts: seq<Action>, i: nat): set<WorkerId>
    requires i < |states| == |acts| + 1
  {
    set w | w in states[i].fleet && exists b: nat ::
      BootedAt(acts, b, i, w) && w in states[b + 1].fleet && FreeSince(states, acts, b + 1, i, w)
  }

  lemma FreeIsByHistory(states: seq<State>, acts: seq<Action>, i: nat)
    requires Behaviour(states, acts) && i < |states|
    ensures Free(states[i]) == FreeByHistory(states, acts, i)
  {
    forall w | w in states[i].fleet
      ensures w in Free(states[i]) <==> w in FreeByHistory(states, acts, i)
    {
      var b := WasBooted(states, acts, i, w);
      FreeIff(states, acts, b + 1, i, w);
      if w in FreeByHistory(states, acts, i) {
        var d: nat :| BootedAt(acts, d, i, w) && w in states[d + 1].fleet && FreeSince(states, acts, d + 1, i, w);
        FreeIff(states, acts, d + 1, i, w);
      }
    }
  }

  lemma StoppedForGood(states: seq<State>, acts: seq<Action>, i: nat, j: nat, w: WorkerId)
    requires Behaviour(states, acts) && i < j < |states| && acts[i] == Work(w, Stop)
    ensures w in states[j].fleet && !states[j].fleet[w].running
  {
    var b := WasBooted(states, acts, i, w);
    RunReckoned(states, acts, b + 1, j, w);
    DidIff(acts, b + 1, j, w, Stop);
  }

  /** A worker that has been told to stop begins no further iteration of its loop. */
  lemma NoIterationAfterStop(states: seq<State>, acts: seq<Action>, i: nat, j: nat, w: WorkerId)
    requires Behaviour(states, acts) && i < j < |acts| && acts[i] == Work(w, Stop)
    ensures acts[j] != Work(w, Enter)
  {
    StoppedForGood(states, acts, i, j, w);
  }

  // ---- admission ----

  /** A request let through joins those whose job needs a worker; nothing else changes. */
  lemma AdmittedNeeds(states: seq<State>, acts: seq<Action>, i: nat, c: Corr)
    requires Behaviour(states, acts) && i < |acts| && acts[i] == Serve(c, Decide)
    requires states[i + 1].api.calls[c].phase.Admitted?
    ensures Demand(states[i + 1]) == Demand(states[i]) + {c} && c !in Demand(states[i])
    ensures Free(states[i + 1]) == Free(states[i])
  {
    CallHolds(states, acts, i, c);
    var s, t := states[i], states[i + 1];
    assert t.q == s.q && t.fleet == s.fleet;
    assert forall d | d in s.api.calls && d != c :: t.api.calls[d] == s.api.calls[d];
  }

  /**
   The worker an admission rests on can take on a job exactly when, since the heartbeat, it has
   neither crashed nor been told to stop, and has ended every message it had or took.
   */
  lemma WitnessIsFreeIff(states: seq<State>, acts: seq<Action>, i: nat, c: Corr, w: WorkerId, k: nat)
    requires Behaviour(states, acts) && i < |states|
    requires c in states[i].api.calls && states[i].api.calls[c].phase.CapacityRead? && RestsOn(states, acts, i, c, w, k)
    ensures w in Free(states[i]) <==> FreeSince(states, acts, k, i, w)
  {
    FreeIff(states, acts, k, i, w);
  }

  /**
   When admission stays within capacity: letting a request through leaves no more jobs needing a
   worker than workers free exactly when fewer needed one than workers were free by what they had
   done. In particular it does if no other job needs one and the worker the admission rests on is
   free by what it did since its heartbeat; and where no other worker is free, only then.
   */
  lemma AdmissionFitsIff(states: seq<State>, acts: seq<Action>, i: nat, c: Corr) returns (w: WorkerId, k: nat)
    requires Behaviour(states, acts) && i < |acts| && acts[i] == Serve(c, Decide)
    requires states[i + 1].api.calls[c].phase.Admitted?
    ensures RestsOn(states, acts, i, c, w, k)
    ensures Fits(states[i + 1]) <==> |Demand(states[i])| < |FreeByHistory(states, acts, i)|
    ensures Demand(states[i]) == {} && FreeSince(states, acts, k, i, w) ==> Fits(states[i + 1])
    ensures FreeByHistory(states, acts, i) <= {w} ==>
              (Fits(states[i + 1]) <==> Demand(states[i]) == {} && FreeSince(states, acts, k, i, w))
  {
    AdmissionIsRecent(states, acts, i, c);
    w, k :| RestsOn(states, acts, i, c, w, k);
    AdmittedNeeds(states, acts, i, c);
    FreeIsByHistory(states, acts, i);
    WitnessIsFreeIff(states, acts, i, c, w, k);
    OneFree(Demand(states[i]), FreeByHistory(states, acts, i), w);
  }

  lemma OneFree(demand: set<Corr>, free: set<WorkerId>, w: WorkerId)
    ensures demand == {} && w in free ==> |demand| < |free|
    ensures free <= {w} ==> (|demand| < |free| <==> demand == {} && w in free)
  {
    if w in free {
      SubsetSize({w}, free);
    }
    if free <= {w} {
      SubsetSize(free, {w});
      assert w !in free ==> free == {};
    }
    assert |demand| == 0 <==> demand == {};
  }

  /** With one worker two requests just let through do not fit. */
  lemma TwoDoNotFit(s: State, c: Corr, d: Corr, w: WorkerId)
    requires c != d && {c, d} <= Demand(s) && Free(s) <= {w}
    ensures !Fits(s)
  {
    SubsetSize({c, d}, Demand(s));
    SubsetSize(Free(s), {w});
  }

  /** A worker that has deregistered, or has a message in hand, is not free, whatever its last heartbeat says. */
  lemma GoneOrBusyIsNotFree(s: State, w: WorkerId)
    requires Inv(s) && w in s.fleet && (s.fleet[w].pc.Gone? || s.fleet[w].pc.LoopLeft? || Handles(s.fleet[w].pc))
    ensures w !in Free(s)
  {
    assert WorkerOk(s.q, s.api.calls, s.cfg.claimIdleMs, s.now, w, s.fleet[w]);
  }
}
