/** Theorems about the failure detector, the sweep that acts on it, and the admission test. */
module Recovery {
  import opened Platform
  import opened InvocationStream
  import opened Registry
  import opened Protocol
  import opened Invariants
  import opened Preservation
  import opened History

  // ---- heartbeats travel in order ----

  ghost predicate BeatsInOrder(s: State, w: WorkerId) {
    w in s.fleet ==>
      var out := s.fleet[w].outbox;
      && (forall m, n | 0 <= m <= n < |out| :: out[m].lastHeartbeatAt <= out[n].lastHeartbeatAt)
      && (forall n | 0 <= n < |out| :: out[n].lastHeartbeatAt <= s.now)
      && (w in s.registry ==> forall n | 0 <= n < |out| :: s.registry[w].lastHeartbeatAt <= out[n].lastHeartbeatAt)
      && (s.fleet[w].pc.Gone? ==> out == [] && w !in s.registry && !s.fleet[w].ticking)
  }

  lemma StepBeatsInOrder(s: State, a: Action, w: WorkerId)
    requires Inv(s) && Enabled(s, a) && BeatsInOrder(s, w)
    ensures BeatsInOrder(Apply(s, a), w)
  {
    if w in s.fleet {
      assert WorkerOk(s.q, s.api.calls, s.cfg.claimIdleMs, s.now, w, s.fleet[w]);
    }
    if a.Work? {
      if a.w == w {
        OwnBeatsInOrder(s, w, a.act);
      } else {
        OthersBeats(s, a.w, a.act, w);
      }
    }
  }

  lemma OthersBeats(s: State, v: WorkerId, act: WorkerAct, w: WorkerId)
    requires Enabled(s, Work(v, act)) && v != w
    ensures var t := Apply(s, Work(v, act));
            && (w in t.fleet <==> w in s.fleet) && (w in s.fleet ==> t.fleet[w] == s.fleet[w])
            && (w in t.registry <==> w in s.registry) && (w in s.registry ==> t.registry[w] == s.registry[w])
            && t.now == s.now
  {
  }

  predicate MovesBeats(act: WorkerAct) {
    act.SampleBeat? || act.LandBeat? || act.LoseBeat? || act.Deregister?
  }

  lemma OwnBeatsInOrder(s: State, w: WorkerId, act: WorkerAct)
    requires Enabled(s, Work(w, act)) && BeatsInOrder(s, w) && RegistryOk(s)
    requires w in s.fleet ==> FieldsOk(s.fleet[w], s.q.group.Some?, s.now)
    ensures BeatsInOrder(Apply(s, Work(w, act)), w)
  {
    if MovesBeats(act) {
      BeatMoves(s, w, act);
    } else {
      BeatsStay(s, w, act);
    }
  }

  lemma BeatMoves(s: State, w: WorkerId, act: WorkerAct)
    requires Enabled(s, Work(w, act)) && BeatsInOrder(s, w) && RegistryOk(s) && MovesBeats(act)
    requires FieldsOk(s.fleet[w], s.q.group.Some?, s.now)
    ensures BeatsInOrder(Apply(s, Work(w, act)), w)
  {
    var out, out' := s.fleet[w].outbox, WorkerAfter(s, w, act).outbox;
    if act.LandBeat? || act.LoseBeat? {
      assert forall n | 0 <= n < |out'| :: out'[n] == out[n + 1];
    }
  }

  lemma BeatsStay(s: State, w: WorkerId, act: WorkerAct)
    requires Enabled(s, Work(w, act)) && BeatsInOrder(s, w) && RegistryOk(s) && !MovesBeats(act)
    requires w in s.fleet ==> FieldsOk(s.fleet[w], s.q.group.Some?, s.now)
    ensures BeatsInOrder(Apply(s, Work(w, act)), w)
  {
    assert RegistryAfter(s, w, act) == s.registry;
    assert WorkerAfter(s, w, act).outbox == if w in s.fleet then s.fleet[w].outbox else [];
  }

  lemma {:induction false} RunBeatsInOrder(states: seq<State>, acts: seq<Action>, i: nat, w: WorkerId)
    requires Behaviour(states, acts) && i < |states|
    ensures BeatsInOrder(states[i], w)
  {
    if i > 0 {
      RunBeatsInOrder(states, acts, i - 1, w);
      RunInv(states, acts, i - 1);
      StepBeatsInOrder(states[i - 1], acts[i - 1], w);
    }
  }

  // ---- who is listed healthy ----

  /** By state i a heartbeat of w no older than since has reached the registry. */
  ghost predicate Landed(states: seq<State>, acts: seq<Action>, i: nat, w: WorkerId, since: int)
    requires Behaviour(states, acts) && i < |states|
  {
    exists m :: 0 <= m < i && acts[m] == Work(w, LandBeat) && since <= states[m].fleet[w].outbox[0].lastHeartbeatAt
  }

  ghost predicate Deregistered(states: seq<State>, acts: seq<Action>, i: nat, w: WorkerId)
    requires Behaviour(states, acts) && i < |states|
  {
    exists m :: 0 <= m < i && acts[m] == Work(w, Deregister)
  }

  /** What the registry holds for w: nothing once deregistered, else the youngest heartbeat that landed. */
  ghost predicate ListsYoungest(states: seq<State>, acts: seq<Action>, i: nat, w: WorkerId)
    requires Behaviour(states, acts) && i < |states|
  {
    var s := states[i];
    && (Deregistered(states, acts, i, w) ==> w in s.fleet && s.fleet[w].pc.Gone?)
    && (w in s.registry ==> !Deregistered(states, acts, i, w) && Landed(states, acts, i, w, s.registry[w].lastHeartbeatAt))
    && (!Deregistered(states, acts, i, w) ==>
          forall m | 0 <= m < i && acts[m] == Work(w, LandBeat) ::
            w in s.registry && states[m].fleet[w].outbox[0].lastHeartbeatAt <= s.registry[w].lastHeartbeatAt)
  }

  lemma LandedMore(states: seq<State>, acts: seq<Action>, i: nat, w: WorkerId, since: int)
    requires Behaviour(states, acts) && i + 1 < |states| && Landed(states, acts, i, w, since)
    ensures Landed(states, acts, i + 1, w, since)
  {
    var m :| 0 <= m < i && acts[m] == Work(w, LandBeat) && since <= states[m].fleet[w].outbox[0].lastHeartbeatAt;
    assert 0 <= m < i + 1;
  }

  lemma DeregisteredMore(states: seq<State>, acts: seq<Action>, i: nat, w: WorkerId)
    requires Behaviour(states, acts) && i + 1 < |states|
    ensures Deregistered(states, acts, i + 1, w) <==> Deregistered(states, acts, i, w) || acts[i] == Work(w, Deregister)
  {
    if Deregistered(states, acts, i, w) {
      var m :| 0 <= m < i && acts[m] == Work(w, Deregister);
      assert 0 <= m < i + 1;
    }
    if acts[i] == Work(w, Deregister) {
      assert 0 <= i < i + 1;
    }
  }

  lemma GoneStays(s: State, w: WorkerId, act: WorkerAct)
    requires Enabled(s, Work(w, act)) && BeatsInOrder(s, w) && w in s.fleet && s.fleet[w].pc.Gone?
    requires FieldsOk(s.fleet[w], s.q.group.Some?, s.now)
    ensures act.Crash?
    ensures WorkerAfter(s, w, act).pc.Gone?
  {
  }

  lemma OthersListYoungest(states: seq<State>, acts: seq<Action>, i: nat, w: WorkerId)
    requires Behaviour(states, acts) && i < |acts| && ListsYoungest(states, acts, i, w)
    requires acts[i].Work? ==> acts[i].w != w
    ensures ListsYoungest(states, acts, i + 1, w)
  {
    var s, a := states[i], acts[i];
    DeregisteredMore(states, acts, i, w);
    if w in s.registry {
      LandedMore(states, acts, i, w, s.registry[w].lastHeartbeatAt);
    }
    if a.Work? {
      OthersBeats(s, a.w, a.act, w);
    }
  }

  lemma StepListsYoungest(states: seq<State>, acts: seq<Action>, i: nat, w: WorkerId)
    requires Behaviour(states, acts) && i < |acts| && ListsYoungest(states, acts, i, w) && BeatsInOrder(states[i], w)
    requires w in states[i].fleet ==> FieldsOk(states[i].fleet[w], states[i].q.group.Some?, states[i].now)
    ensures ListsYoungest(states, acts, i + 1, w)
  {
    if acts[i].Work? && acts[i].w == w {
      OwnListsYoungest(states, acts, i, w);
    } else {
      OthersListYoungest(states, acts, i, w);
    }
  }

  lemma {:induction false} RunListsYoungest(states: seq<State>, acts: seq<Action>, i: nat, w: WorkerId)
    requires Behaviour(states, acts) && i < |states|
    ensures ListsYoungest(states, acts, i, w)
  {
    if i > 0 {
      RunListsYoungest(states, acts, i - 1, w);
      RunBeatsInOrder(states, acts, i - 1, w);
      RunFields(states, acts, i - 1, w);
      StepListsYoungest(states, acts, i - 1, w);
    }
  }

  lemma RunFields(states: seq<State>, acts: seq<Action>, i: nat, w: WorkerId)
    requires Behaviour(states, acts) && i < |states|
    ensures w in states[i].fleet ==> FieldsOk(states[i].fleet[w], states[i].q.group.Some?, states[i].now)
  {
    RunInv(states, acts, i);
    var s := states[i];
    if w in s.fleet {
      assert WorkerOk(s.q, s.api.calls, s.cfg.claimIdleMs, s.now, w, s.fleet[w]);
    }
  }

  lemma OwnListsYoungest(states: seq<State>, acts: seq<Action>, i: nat, w: WorkerId)
    requires Behaviour(states, acts) && i < |acts|
    requires acts[i].Work? && acts[i].w == w && ListsYoungest(states, acts, i, w) && BeatsInOrder(states[i], w)
    requires w in states[i].fleet ==> FieldsOk(states[i].fleet[w], states[i].q.group.Some?, states[i].now)
    ensures ListsYoungest(states, acts, i + 1, w)
  {
    var s, t, act := states[i], states[i + 1], acts[i].act;
    DeregisteredMore(states, acts, i, w);
    if w in s.registry {
      LandedMore(states, acts, i, w, s.registry[w].lastHeartbeatAt);
    }
    if w in s.fleet && s.fleet[w].pc.Gone? {
      GoneStays(s, w, act);
    }
    if act.LandBeat? {
      assert acts[i] == Work(w, LandBeat) && t.registry[w] == s.fleet[w].outbox[0];
      assert Landed(states, acts, i + 1, w, t.registry[w].lastHeartbeatAt);
    }
  }

  /** By step k d has deregistered, or none of the heartbeats that have landed was fresh at the time at. */
  ghost predicate NoFreshBeat(states: seq<State>, acts: seq<Action>, k: nat, d: WorkerId, at: int)
    requires Behaviour(states, acts) && k < |states|
  {
    Deregistered(states, acts, k, d) || !Landed(states, acts, k, d, at - 10000)
  }

  /**
   The failure detector, both ways: whoever judges the registry of state i by the time at finds w
   healthy exactly when w has not deregistered and some heartbeat it stamped in the 10000 ms
   before at has landed.
   */
  lemma HealthyIffFreshBeatLanded(states: seq<State>, acts: seq<Action>, i: nat, w: WorkerId, at: int)
    requires Behaviour(states, acts) && i < |states|
    ensures Healthy(states[i].registry, w, at) <==> !NoFreshBeat(states, acts, i, w, at)
  {
    RunListsYoungest(states, acts, i, w);
    var s := states[i];
    if Landed(states, acts, i, w, at - 10000) && !Deregistered(states, acts, i, w) {
      var m :| 0 <= m < i && acts[m] == Work(w, LandBeat)
               && at - 10000 <= states[m].fleet[w].outbox[0].lastHeartbeatAt;
    }
    if Healthy(s.registry, w, at) {
      var m :| 0 <= m < i && acts[m] == Work(w, LandBeat)
               && s.registry[w].lastHeartbeatAt <= states[m].fleet[w].outbox[0].lastHeartbeatAt;
      assert at - 10000 <= states[m].fleet[w].outbox[0].lastHeartbeatAt;
    }
  }

  /** Past its first heartbeat: onModuleInit got as far as the loop, and deregister has not run. */
  predicate IsUp(wk: Worker) {
    !wk.pc.Booting? && !wk.pc.GroupReady? && !wk.pc.Gone? && (wk.pc.FirstBeat? ==> wk.outbox == [] && wk.alive)
  }

  ghost predicate UpIsListed(s: State, w: WorkerId) {
    && (w in s.fleet && IsUp(s.fleet[w]) ==> w in s.registry)
    && (w in s.fleet && s.fleet[w].pc.FirstBeat? && s.fleet[w].alive ==> |s.fleet[w].outbox| <= 1)
    && (w in s.fleet && s.fleet[w].pc.GroupReady? ==> s.fleet[w].outbox == [])
    && (w in s.fleet && s.fleet[w].pc.Booting? ==> s.fleet[w].outbox == [])
  }

  lemma OwnUpIsListed(s: State, w: WorkerId, act: WorkerAct)
    requires Enabled(s, Work(w, act)) && UpIsListed(s, w)
    requires w in s.fleet ==> FieldsOk(s.fleet[w], s.q.group.Some?, s.now)
    ensures UpIsListed(Apply(s, Work(w, act)), w)
  {
  }

  lemma StepUpIsListed(s: State, a: Action, w: WorkerId)
    requires Enabled(s, a) && UpIsListed(s, w)
    requires w in s.fleet ==> FieldsOk(s.fleet[w], s.q.group.Some?, s.now)
    ensures UpIsListed(Apply(s, a), w)
  {
    if a.Work? && a.w == w {
      OwnUpIsListed(s, w, a.act);
    } else if a.Work? {
      OthersBeats(s, a.w, a.act, w);
    }
  }

  /** A worker is in the registry from the landing of its first heartbeat until it deregisters. */
  lemma {:induction false} RunUpIsListed(states: seq<State>, acts: seq<Action>, i: nat, w: WorkerId)
    requires Behaviour(states, acts) && i < |states|
    ensures UpIsListed(states[i], w)
  {
    if i > 0 {
      RunUpIsListed(states, acts, i - 1, w);
      RunFields(states, acts, i - 1, w);
      StepUpIsListed(states[i - 1], acts[i - 1], w);
    }
  }

  // ---- a dead worker ----

  /** d has crashed and stamped no heartbeat after last. */
  ghost predicate DeadSince(s: State, d: WorkerId, last: nat) {
    && d in s.fleet && !s.fleet[d].alive
    && (d in s.registry ==> s.registry[d].lastHeartbeatAt <= last)
    && forall n | 0 <= n < |s.fleet[d].outbox| :: s.fleet[d].outbox[n].lastHeartbeatAt <= last
  }

  lemma StepDeadSince(s: State, a: Action, d: WorkerId, last: nat)
    requires Enabled(s, a) && DeadSince(s, d, last)
    ensures DeadSince(Apply(s, a), d, last)
  {
    if a.Work? && a.w != d {
      OthersBeats(s, a.w, a.act, d);
    }
  }

  lemma {:induction false} RunDeadSince(states: seq<State>, acts: seq<Action>, i: nat, j: nat, d: WorkerId, last: nat)
    requires Behaviour(states, acts) && i <= j < |states| && DeadSince(states[i], d, last)
    ensures DeadSince(states[j], d, last)
    decreases j
  {
    if i < j {
      RunDeadSince(states, acts, i, j - 1, d, last);
      StepDeadSince(states[j - 1], acts[j - 1], d, last);
    }
  }

  /** Completeness: a crashed worker is listed unhealthy from 10001 ms after its last heartbeat, for ever. */
  lemma CrashedStaysUnhealthy(states: seq<State>, acts: seq<Action>, i: nat, j: nat, d: WorkerId, last: nat, at: nat)
    requires Behaviour(states, acts) && i <= j < |states| && DeadSince(states[i], d, last)
    requires last + 10000 < at
    ensures !Healthy(states[j].registry, d, at)
  {
    RunDeadSince(states, acts, i, j, d, last);
  }

  /** Deliveries between q and r went to others than d. */
  ghost predicate NothingFor(q: Queue, r: Queue, d: WorkerId) {
    forall id, n | 0 <= id < |r.tracks| && 0 <= n < |r.tracks[id].deliveries| ::
      (id < |q.tracks| && n < |q.tracks[id].deliveries|) || r.tracks[id].deliveries[n].worker != d
  }

  /** Deliveries between q and r went to w. */
  ghost predicate DeliveredTo(q: Queue, r: Queue, w: WorkerId) {
    forall id, n | 0 <= id < |r.tracks| && 0 <= n < |r.tracks[id].deliveries| ::
      (id < |q.tracks| && n < |q.tracks[id].deliveries|) || r.tracks[id].deliveries[n].worker == w
  }

  lemma WorkDeliversTo(s: State, w: WorkerId, act: WorkerAct)
    requires QueueOk(s.q, s.cfg.claimIdleMs, s.now) && Enabled(s, Work(w, act))
    ensures DeliveredTo(s.q, QueueAfter(s, w, act), w)
  {
  }

  lemma StepNothingFor(s: State, a: Action, d: WorkerId)
    requires QueueOk(s.q, s.cfg.claimIdleMs, s.now) && Enabled(s, a) && d in s.fleet && !s.fleet[d].alive
    ensures NothingFor(s.q, Apply(s, a).q, d)
  {
    if a.Work? {
      WorkDeliversTo(s, a.w, a.act);
      if a.w == d {
        assert QueueAfter(s, d, a.act) == s.q;
      }
    }
  }

  lemma NothingForSelf(q: Queue, d: WorkerId)
    ensures NothingFor(q, q, d)
  {
  }

  lemma NothingForAt(states: seq<State>, acts: seq<Action>, i: nat, d: WorkerId)
    requires Behaviour(states, acts) && 0 < i < |states| && d in states[i - 1].fleet && !states[i - 1].fleet[d].alive
    ensures NothingFor(states[i - 1].q, states[i].q, d)
  {
    RunQueueOk(states, acts, i - 1);
    StepNothingFor(states[i - 1], acts[i - 1], d);
  }

  lemma NothingForChains(states: seq<State>, acts: seq<Action>, q: Queue, j: nat, d: WorkerId)
    requires Behaviour(states, acts) && 0 < j < |states|
    requires NothingFor(q, states[j - 1].q, d) && NothingFor(states[j - 1].q, states[j].q, d)
    ensures NothingFor(q, states[j].q, d)
  {
    RunLater(states, acts, j - 1, j);
    var r, t := states[j - 1].q, states[j].q;
    forall id, n | 0 <= id < |t.tracks| && 0 <= n < |t.tracks[id].deliveries|
      ensures (id < |q.tracks| && n < |q.tracks[id].deliveries|) || t.tracks[id].deliveries[n].worker != d
    {
      if id < |r.tracks| && n < |r.tracks[id].deliveries| {
        assert TrackLater(r.tracks[id], states[j - 1].now, t.tracks[id]);
        assert t.tracks[id].deliveries[n] == r.tracks[id].deliveries[n];
      }
    }
  }

  lemma NothingForMore(states: seq<State>, acts: seq<Action>, i: nat, j: nat, d: WorkerId)
    requires Behaviour(states, acts) && i < j < |states| && d in states[i].fleet && !states[i].fleet[d].alive
    requires NothingFor(states[i].q, states[j - 1].q, d)
    ensures NothingFor(states[i].q, states[j].q, d)
  {
    DeadStaysDead(states, acts, i, j - 1, d);
    NothingForAt(states, acts, j, d);
    NothingForChains(states, acts, states[i].q, j, d);
  }

  lemma {:induction false} RunNothingFor(states: seq<State>, acts: seq<Action>, i: nat, j: nat, d: WorkerId)
    requires Behaviour(states, acts) && i <= j < |states| && d in states[i].fleet && !states[i].fleet[d].alive
    ensures NothingFor(states[i].q, states[j].q, d)
    decreases j
  {
    if i == j {
      NothingForSelf(states[i].q, d);
    } else {
      RunNothingFor(states, acts, i, j - 1, d);
      NothingForMore(states, acts, i, j, d);
    }
  }

  ghost function Owned(q: Queue, d: WorkerId): set<nat> {
    if q.group.None? then {} else set id | id in q.group.value.pel && q.group.value.pel[id].owner == d
  }

  /** If nothing was delivered to d in between, what d owns later it owned before, under the same delivery. */
  lemma OwnedBefore(q: Queue, gap: nat, now: nat, r: Queue, later: nat, d: WorkerId, id: nat)
    requires QueueOk(q, gap, now) && QueueOk(r, gap, later) && Later(q, now, r) && NothingFor(q, r, d)
    requires id in Owned(r, d)
    ensures id in Owned(q, d) && id < |q.tracks| && id < |r.tracks|
    ensures r.tracks[id].deliveries == q.tracks[id].deliveries && !r.tracks[id].acked
  {
    assert PlacedOk(r.group.value, id, r.tracks[id]);
    var n := |r.tracks[id].deliveries| - 1;
    assert r.tracks[id].deliveries[n].worker == d;
    assert id < |q.tracks| && n < |q.tracks[id].deliveries|;
    assert TrackLater(q.tracks[id], now, r.tracks[id]);
    assert q.group.Some?;
    assert PlacedOk(q.group.value, id, q.tracks[id]);
  }

  /** What a dead worker owns later, it owned all along, and nobody was given it in between. */
  lemma DeadOwnsNoMore(states: seq<State>, acts: seq<Action>, i: nat, j: nat, d: WorkerId, id: nat)
    requires Behaviour(states, acts) && i <= j < |states| && d in states[i].fleet && !states[i].fleet[d].alive
    requires id in Owned(states[j].q, d)
    ensures id in Owned(states[i].q, d)
    ensures id < |states[i].q.tracks| && id < |states[j].q.tracks|
    ensures states[j].q.tracks[id].deliveries == states[i].q.tracks[id].deliveries && !states[j].q.tracks[id].acked
  {
    RunNothingFor(states, acts, i, j, d);
    RunLater(states, acts, i, j);
    RunQueueOk(states, acts, i);
    RunQueueOk(states, acts, j);
    SameIdle(states, acts, i, j);
    OwnedBefore(states[i].q, states[i].cfg.claimIdleMs, states[i].now, states[j].q, states[j].now, d, id);
  }

  lemma SameIdle(states: seq<State>, acts: seq<Action>, i: nat, j: nat)
    requires Behaviour(states, acts) && i <= j < |states|
    ensures states[j].cfg == states[i].cfg
  {
    RunAfter(states, acts, i, j);
  }

  // ---- where a sweep's rows and registry copy come from ----

  /** w's XPENDING at step p gave these rows. */
  ghost predicate ListedAt(states: seq<State>, acts: seq<Action>, p: nat, w: WorkerId, rows: seq<Stale>, at: nat)
    requires Behaviour(states, acts)
  {
    && p < |acts| && acts[p] == Work(w, ReadPending) && states[p].now == at && states[p].q.group.Some?
    && rows == states[p].q.PendingIdle(states[p].cfg.claimIdleMs, at, states[p].q.group.value.start, 10)
  }

  /** w's HGETALL at step k gave this copy. */
  ghost predicate CopiedAt(states: seq<State>, acts: seq<Action>, k: nat, w: WorkerId, hash: Hash)
    requires Behaviour(states, acts)
  {
    k < |acts| && acts[k] == Work(w, ReadRegistry) && states[k].registry == hash
  }

  /** This sweep of w listed its rows at step p and read the registry at step k, both before i. */
  ghost predicate SweepSteps(states: seq<State>, acts: seq<Action>, p: nat, k: nat, i: nat, w: WorkerId, sweep: Sweep)
    requires Behaviour(states, acts)
  {
    && p < k < i && ListedAt(states, acts, p, w, sweep.rows, sweep.at)
    && CopiedAt(states, acts, k, w, sweep.hash) && states[k].now <= sweep.judgedAt
  }

  ghost predicate SweepFrom(states: seq<State>, acts: seq<Action>, i: nat, w: WorkerId, sweep: Sweep)
    requires Behaviour(states, acts)
  {
    exists p: nat, k: nat :: SweepSteps(states, acts, p, k, i, w, sweep)
  }

  ghost predicate PcFrom(states: seq<State>, acts: seq<Action>, i: nat, w: WorkerId, pc: Pc)
    requires Behaviour(states, acts)
  {
    match pc
    case SawPending(rows, at) => exists p: nat :: p < i && ListedAt(states, acts, p, w, rows, at)
    case SawRegistry(rows, at, hash) =>
      exists p: nat, k: nat :: p < k < i && ListedAt(states, acts, p, w, rows, at) && CopiedAt(states, acts, k, w, hash)
    case _ => SweepIn(pc).Some? ==> SweepFrom(states, acts, i, w, SweepIn(pc).value)
  }

  lemma PcFromLater(states: seq<State>, acts: seq<Action>, i: nat, w: WorkerId, pc: Pc)
    requires Behaviour(states, acts) && PcFrom(states, acts, i, w, pc)
    ensures PcFrom(states, acts, i + 1, w, pc)
  {
    if pc.SawPending? {
      var p: nat :| p < i && ListedAt(states, acts, p, w, pc.rows, pc.at);
      assert p < i + 1;
    } else if pc.SawRegistry? {
      var p: nat, k: nat :| p < k < i && ListedAt(states, acts, p, w, pc.rows, pc.at) && CopiedAt(states, acts, k, w, pc.hash);
      assert p < k < i + 1;
    } else if SweepIn(pc).Some? {
      SweepFromLater(states, acts, i, w, SweepIn(pc).value);
    }
  }

  lemma SweepFromLater(states: seq<State>, acts: seq<Action>, i: nat, w: WorkerId, sweep: Sweep)
    requires Behaviour(states, acts) && SweepFrom(states, acts, i, w, sweep)
    ensures SweepFrom(states, acts, i + 1, w, sweep)
  {
    var p: nat, k: nat :| SweepSteps(states, acts, p, k, i, w, sweep);
    assert SweepSteps(states, acts, p, k, i + 1, w, sweep);
  }

  lemma ListingFrom(states: seq<State>, acts: seq<Action>, i: nat, w: WorkerId)
    requires Behaviour(states, acts) && i < |acts| && acts[i] == Work(w, ReadPending)
    ensures PcFrom(states, acts, i + 1, w, states[i + 1].fleet[w].pc)
  {
    var pc := states[i + 1].fleet[w].pc;
    if pc.SawPending? {
      assert ListedAt(states, acts, i, w, pc.rows, pc.at);
    }
  }

  lemma CopyFrom(states: seq<State>, acts: seq<Action>, i: nat, w: WorkerId)
    requires Behaviour(states, acts) && i < |acts| && acts[i] == Work(w, ReadRegistry)
    requires PcFrom(states, acts, i, w, states[i].fleet[w].pc)
    ensures PcFrom(states, acts, i + 1, w, states[i + 1].fleet[w].pc)
  {
    var pc := states[i].fleet[w].pc;
    var p: nat :| p < i && ListedAt(states, acts, p, w, pc.rows, pc.at);
    assert p < i < i + 1 && CopiedAt(states, acts, i, w, states[i + 1].fleet[w].pc.hash);
  }

  lemma JudgedFrom(states: seq<State>, acts: seq<Action>, i: nat, w: WorkerId)
    requires Behaviour(states, acts) && i < |acts| && acts[i] == Work(w, Judge)
    requires PcFrom(states, acts, i, w, states[i].fleet[w].pc)
    ensures PcFrom(states, acts, i + 1, w, states[i + 1].fleet[w].pc)
  {
    var pc := states[i].fleet[w].pc;
    var p: nat, k: nat :| p < k < i && ListedAt(states, acts, p, w, pc.rows, pc.at) && CopiedAt(states, acts, k, w, pc.hash);
    RunAfter(states, acts, k, i);
    assert SweepSteps(states, acts, p, k, i + 1, w, states[i + 1].fleet[w].pc.sweep);
  }

  ghost function SweepIn(pc: Pc): Option<Sweep> {
    match pc
    case Sweeping(sweep, _) => Some(sweep)
    case Received(t) => SweepOf(t)
    case Executing(t) => SweepOf(t)
    case Executed(t, _) => SweepOf(t)
    case Published(t, _) => SweepOf(t)
    case _ => None
  }

  ghost function SweepOf(t: Task): Option<Sweep> {
    match t.back
    case ToHead => None
    case ToSweep(sweep, _) => Some(sweep)
  }

  /** Handling a message starts and ends within one sweep, or within none. */
  lemma HandlingKeepsSweep(s: State, w: WorkerId, act: WorkerAct)
    requires Enabled(s, Work(w, act)) && HandlesMessage(act)
    ensures var pc, pc' := s.fleet[w].pc, WorkerAfter(s, w, act).pc;
            && !pc'.SawPending? && !pc'.SawRegistry?
            && (SweepIn(pc') == SweepIn(pc) || (Fails(act) && pc' == LoopHead))
  {
    match act
    case Start =>
    case Finish(o) => assert WorkerAfter(s, w, act).pc == Executed(s.fleet[w].pc.task, o);
    case Publish(lost) =>
    case Ack(lost) =>
  }

  /** So do the steps of the loop over the rows. */
  lemma RowKeepsSweep(s: State, w: WorkerId, act: WorkerAct)
    requires Enabled(s, Work(w, act)) && (act.Skip? || act.Claim?)
    ensures var pc, pc' := s.fleet[w].pc, WorkerAfter(s, w, act).pc;
            && !pc'.SawPending? && !pc'.SawRegistry?
            && (SweepIn(pc') == SweepIn(pc) || (Fails(act) && pc' == LoopHead))
  {
  }

  predicate KeepsPc(act: WorkerAct) {
    act.LandBeat? || act.LoseBeat? || act.Stop? || act.Crash?
  }

  lemma PcKept(s: State, w: WorkerId, act: WorkerAct)
    requires Enabled(s, Work(w, act)) && KeepsPc(act)
    ensures w in s.fleet && WorkerAfter(s, w, act).pc == s.fleet[w].pc
  {
  }

  /** The rest stay where they are or are in no sweep. */
  lemma RestOutsideSweep(s: State, w: WorkerId, act: WorkerAct)
    requires Enabled(s, Work(w, act)) && !HandlesMessage(act) && !act.Skip? && !act.Claim? && !KeepsPc(act)
    requires w in s.fleet && !act.ReadPending? && !act.ReadRegistry? && !act.Judge?
    ensures var pc, pc' := s.fleet[w].pc, WorkerAfter(s, w, act).pc;
            pc' == pc || (NotSweeping(pc') && (NotSweeping(pc) || !StaysIn(act)))
  {
  }

  /** Any other act leaves the pc's sweep as it was, or, if it ends or fails, leaves the sweep. */
  lemma SweepKept(s: State, w: WorkerId, act: WorkerAct)
    requires Enabled(s, Work(w, act)) && w in s.fleet && !act.ReadPending? && !act.ReadRegistry? && !act.Judge?
    ensures var pc, pc' := s.fleet[w].pc, WorkerAfter(s, w, act).pc;
            || pc' == pc
            || (!pc'.SawPending? && !pc'.SawRegistry? && SweepIn(pc') == SweepIn(pc) && !pc.SawPending? && !pc.SawRegistry?)
            || (NotSweeping(pc') && !StaysIn(act))
  {
    if HandlesMessage(act) {
      HandlingKeepsSweep(s, w, act);
    } else if act.Skip? || act.Claim? {
      RowKeepsSweep(s, w, act);
    } else if KeepsPc(act) {
      PcKept(s, w, act);
    } else {
      RestOutsideSweep(s, w, act);
    }
  }

  lemma OwnPcFrom(states: seq<State>, acts: seq<Action>, i: nat, w: WorkerId)
    requires Behaviour(states, acts) && i < |acts| && acts[i].Work? && acts[i].w == w
    requires w in states[i].fleet ==> PcFrom(states, acts, i, w, states[i].fleet[w].pc)
    ensures PcFrom(states, acts, i + 1, w, states[i + 1].fleet[w].pc)
  {
    var act := acts[i].act;
    if act.ReadPending? {
      ListingFrom(states, acts, i, w);
    } else if act.ReadRegistry? {
      CopyFrom(states, acts, i, w);
    } else if act.Judge? {
      JudgedFrom(states, acts, i, w);
    } else if w in states[i].fleet {
      SweepKept(states[i], w, act);
      PcFromLater(states, acts, i, w, states[i].fleet[w].pc);
    }
  }

  lemma {:induction false} RunPcFrom(states: seq<State>, acts: seq<Action>, i: nat, w: WorkerId)
    requires Behaviour(states, acts) && i < |states| && w in states[i].fleet
    ensures PcFrom(states, acts, i, w, states[i].fleet[w].pc)
  {
    if i > 0 {
      var s, a := states[i - 1], acts[i - 1];
      if w in s.fleet {
        RunPcFrom(states, acts, i - 1, w);
      }
      if a.Work? && a.w == w {
        OwnPcFrom(states, acts, i - 1, w);
      } else {
        assert states[i].fleet[w] == s.fleet[w];
        PcFromLater(states, acts, i - 1, w, s.fleet[w].pc);
      }
    }
  }

  // ---- the sweep ----

  /** An idle entry is still under the delivery its row listed, or the listing is an idle period old. */
  lemma IdleSinceListing(q: Queue, gap: nat, now: nat, row: Stale, at: nat)
    requires QueueOk(q, gap, now) && StaleOk(q, gap, row, at) && q.IsIdle(row.id, gap, now)
    ensures var p := q.group.value.pel[row.id];
            || (p.owner == row.owner && p.count == row.count)
            || (row.count < p.count && at + gap <= now)
  {
    assert PlacedOk(q.group.value, row.id, q.tracks[row.id]);
  }

  lemma RowWasPending(states: seq<State>, acts: seq<Action>, p: nat, w: WorkerId, rows: seq<Stale>, at: nat, row: Stale)
    requires Behaviour(states, acts) && ListedAt(states, acts, p, w, rows, at) && row in rows
    ensures states[p].q.IsIdle(row.id, states[p].cfg.claimIdleMs, at)
    ensures states[p].q.group.value.pel[row.id].owner == row.owner
    ensures states[p].q.group.value.pel[row.id].count == row.count
  {
    RowsFrom(states[p].q, states[p].cfg.claimIdleMs, at, states[p].q.group.value.start, SWEEP_LIMIT);
  }

  /** The entry is pending in both under the same delivery. */
  ghost predicate SameDelivery(q: Queue, r: Queue, id: nat) {
    && q.group.Some? && r.group.Some? && id in q.group.value.pel && id in r.group.value.pel
    && q.group.value.pel[id].owner == r.group.value.pel[id].owner
    && q.group.value.pel[id].count == r.group.value.pel[id].count
  }

  /** The row an XCLAIM is about. */
  ghost function RowAt(s: State, w: WorkerId): Stale
    requires w in s.fleet && AtRow(s.fleet[w].pc)
  {
    s.fleet[w].pc.sweep.rows[s.fleet[w].pc.next]
  }

  lemma GrantedClaim(s: State, w: WorkerId, lost: bool)
    requires Inv(s) && Enabled(s, Work(w, Claim(lost))) && Claimable(s, RowAt(s, w).id)
    ensures var row, p := RowAt(s, w), s.q.group.value.pel[RowAt(s, w).id];
            || (p.owner == row.owner && p.count == row.count)
            || (row.count < p.count && s.fleet[w].pc.sweep.at + s.cfg.claimIdleMs <= s.now)
  {
    assert WorkerOk(s.q, s.api.calls, s.cfg.claimIdleMs, s.now, w, s.fleet[w]);
    IdleSinceListing(s.q, s.cfg.claimIdleMs, s.now, RowAt(s, w), s.fleet[w].pc.sweep.at);
  }

  /**
   Whom a sweep takes for dead. A row is attempted exactly when its owner is another worker that
   by the sweep's HGETALL had deregistered or had landed no heartbeat of the last 10000 ms,
   counted back from the Date.now() after that HGETALL.
   */
  lemma AttemptsIffNoFreshBeat(states: seq<State>, acts: seq<Action>, i: nat, w: WorkerId, sweep: Sweep)
    returns (p: nat, k: nat)
    requires Behaviour(states, acts) && i < |states| && w in states[i].fleet
    requires SweepIn(states[i].fleet[w].pc) == Some(sweep)
    ensures SweepSteps(states, acts, p, k, i, w, sweep)
    ensures forall row | row in sweep.rows ::
              Attempts(w, sweep, row) <==> row.owner != w && NoFreshBeat(states, acts, k, row.owner, sweep.judgedAt)
  {
    RunPcFrom(states, acts, i, w);
    p, k :| SweepSteps(states, acts, p, k, i, w, sweep);
    forall row | row in sweep.rows
      ensures Attempts(w, sweep, row) <==> row.owner != w && NoFreshBeat(states, acts, k, row.owner, sweep.judgedAt)
    {
      HealthyIffFreshBeatLanded(states, acts, k, row.owner, sweep.judgedAt);
    }
  }

  /**
   Stale-snapshot safety, for every XCLAIM that is granted. It takes the entry from the very
   delivery that the sweep's XPENDING listed, whose owner was not the claimer and had no fresh
   heartbeat by the sweep's HGETALL; the one other possibility is that the entry has been
   delivered again since, and then the listing is at least claimIdleMs old.
   */
  lemma ClaimIsOfSilentOwner(states: seq<State>, acts: seq<Action>, i: nat, w: WorkerId, lost: bool)
    returns (p: nat, k: nat)
    requires Behaviour(states, acts) && i < |acts| && acts[i] == Work(w, Claim(lost))
    requires Claimable(states[i], RowAt(states[i], w).id)
    ensures var s := states[i];
            var sweep, id := s.fleet[w].pc.sweep, RowAt(s, w).id;
            && SweepSteps(states, acts, p, k, i, w, sweep)
            && RowAt(s, w).owner != w && NoFreshBeat(states, acts, k, RowAt(s, w).owner, sweep.judgedAt)
            && (SameDelivery(states[p].q, s.q, id) || sweep.at + s.cfg.claimIdleMs <= s.now)
            && (SameDelivery(states[p].q, s.q, id) ==> s.q.group.value.pel[id].owner == RowAt(s, w).owner)
  {
    RunInv(states, acts, i);
    var s := states[i];
    var sweep, row := s.fleet[w].pc.sweep, RowAt(s, w);
    p, k := AttemptsIffNoFreshBeat(states, acts, i, w, sweep);
    GrantedClaim(s, w, lost);
    RowWasPending(states, acts, p, w, sweep.rows, sweep.at, row);
  }

  /** In particular a claim made within claimIdleMs of its sweep's XPENDING takes the listed delivery. */
  lemma PromptClaimIsSafe(states: seq<State>, acts: seq<Action>, i: nat, w: WorkerId, lost: bool)
    requires Behaviour(states, acts) && i < |acts| && acts[i] == Work(w, Claim(lost))
    requires Claimable(states[i], RowAt(states[i], w).id)
    requires states[i].now < states[i].fleet[w].pc.sweep.at + states[i].cfg.claimIdleMs
    ensures var s := states[i];
            var sweep, id := s.fleet[w].pc.sweep, RowAt(s, w).id;
            var owner := s.q.group.value.pel[id].owner;
            && owner != w
            && exists p: nat, k: nat ::
                 && SweepSteps(states, acts, p, k, i, w, sweep) && SameDelivery(states[p].q, s.q, id)
                 && NoFreshBeat(states, acts, k, owner, sweep.judgedAt)
  {
    var p, k := ClaimIsOfSilentOwner(states, acts, i, w, lost);
  }

  /**
   So a worker that heartbeats keeps its entries: if d had not deregistered when the sweep read the
   registry, and a heartbeat d stamped in the 10000 ms before the sweep's judgement had
   landed by then, no prompt claim of that sweep takes an entry from d.
   */
  lemma FreshOwnerKeepsEntry(states: seq<State>, acts: seq<Action>, i: nat, w: WorkerId, lost: bool, d: WorkerId)
    requires Behaviour(states, acts) && i < |acts| && acts[i] == Work(w, Claim(lost))
    requires Claimable(states[i], RowAt(states[i], w).id)
    requires states[i].now < states[i].fleet[w].pc.sweep.at + states[i].cfg.claimIdleMs
    requires var sweep := states[i].fleet[w].pc.sweep;
             forall k: nat | k < i && CopiedAt(states, acts, k, w, sweep.hash) ::
               !Deregistered(states, acts, k, d) && Landed(states, acts, k, d, sweep.judgedAt - 10000)
    ensures states[i].q.group.value.pel[RowAt(states[i], w).id].owner != d
  {
    PromptClaimIsSafe(states, acts, i, w, lost);
  }

  /** A worker claims only what one of its own listings put among the ten lowest idle ids. */
  lemma OnlyLowestAreClaimed(states: seq<State>, acts: seq<Action>, i: nat, w: WorkerId, lost: bool) returns (p: nat)
    requires Behaviour(states, acts) && i < |acts| && acts[i] == Work(w, Claim(lost))
    ensures p < i && acts[p] == Work(w, ReadPending) && states[p].q.group.Some?
    ensures var q, id := states[p].q, RowAt(states[i], w).id;
            && q.IsIdle(id, states[p].cfg.claimIdleMs, states[p].now)
            && IdleBetween(q, states[p].cfg.claimIdleMs, states[p].now, q.group.value.start, id) < 10
  {
    var sweep, row := states[i].fleet[w].pc.sweep, RowAt(states[i], w);
    var k;
    p, k := AttemptsIffNoFreshBeat(states, acts, i, w, sweep);
    var q, gap, at := states[p].q, states[p].cfg.claimIdleMs, states[p].now;
    RowsFrom(q, gap, at, q.group.value.start, SWEEP_LIMIT);
    ListsLowestIdle(q, gap, at, q.group.value.start, SWEEP_LIMIT, row.id);
  }

  /** Starvation: while ten lower ids are idle at each of w's listings, w never claims this one, whoever owns it. */
  lemma TenLowerIdsStarve(states: seq<State>, acts: seq<Action>, i: nat, w: WorkerId, lost: bool, id: nat)
    requires Behaviour(states, acts) && i < |acts| && acts[i] == Work(w, Claim(lost))
    requires forall p: nat | p < i && acts[p] == Work(w, ReadPending) && states[p].q.group.Some? ::
               10 <= IdleBetween(states[p].q, states[p].cfg.claimIdleMs, states[p].now, states[p].q.group.value.start, id)
    ensures RowAt(states[i], w).id != id
  {
    var p := OnlyLowestAreClaimed(states, acts, i, w, lost);
  }

  // ---- crash recovery ----

  /** The Redis call an act stands for failed, or its answer was lost. */
  predicate Fails(act: WorkerAct) {
    act.Fault? || act == Claim(true) || act == ReadNew(true) || act == WorkerAct.Publish(true) || act == Ack(true)
  }

  /**
   The sweep w listed at step p is the one that ends at step i: w neither listed anew, ended a sweep
   nor failed in between.
   */
  ghost predicate OneSweep(states: seq<State>, acts: seq<Action>, p: nat, i: nat, w: WorkerId)
    requires Behaviour(states, acts)
  {
    && p < i < |acts| && acts[p] == Work(w, ReadPending) && acts[i] == Work(w, EndSweep)
    && forall k | p < k < i && acts[k].Work? && acts[k].w == w ::
         StaysIn(acts[k].act)
  }

  /** By this copy d has stamped no heartbeat after last. */
  ghost predicate NoneAfter(hash: Hash, d: WorkerId, last: nat) {
    d in hash ==> hash[d].lastHeartbeatAt <= last
  }

  /** w is at these rows, and its registry copy, if taken yet, is one in which d is that old. */
  ghost predicate InSweep(pc: Pc, rows: seq<Stale>, at: nat, d: WorkerId, last: nat) {
    match pc
    case SawPending(r, t) => r == rows && t == at
    case SawRegistry(r, t, hash) => r == rows && t == at && NoneAfter(hash, d, last)
    case _ =>
      match SweepIn(pc)
      case None => false
      case Some(sweep) => sweep.rows == rows && sweep.at == at <= sweep.judgedAt && NoneAfter(sweep.hash, d, last)
  }

  /** w's code between an empty listing and its next one has no EndSweep. */
  ghost predicate NotSweeping(pc: Pc) {
    !pc.SawPending? && !pc.SawRegistry? && SweepIn(pc).None?
  }

  predicate StaysIn(act: WorkerAct) {
    !act.ReadPending? && !act.EndSweep? && !Fails(act)
  }

  lemma SweepGoesOn(s: State, a: Action, w: WorkerId, rows: seq<Stale>, at: nat, d: WorkerId, last: nat)
    requires Enabled(s, a) && w in s.fleet && InSweep(s.fleet[w].pc, rows, at, d, last)
    requires a.Work? && a.w == w ==> StaysIn(a.act)
    requires DeadSince(s, d, last) && at <= s.now
    ensures InSweep(Apply(s, a).fleet[w].pc, rows, at, d, last)
  {
    if a.Work? && a.w == w {
      OwnSweepGoesOn(s, w, a.act, rows, at, d, last);
    }
  }

  lemma OwnSweepGoesOn(s: State, w: WorkerId, act: WorkerAct, rows: seq<Stale>, at: nat, d: WorkerId, last: nat)
    requires Enabled(s, Work(w, act)) && w in s.fleet && InSweep(s.fleet[w].pc, rows, at, d, last) && StaysIn(act)
    requires NoneAfter(s.registry, d, last) && at <= s.now
    ensures InSweep(WorkerAfter(s, w, act).pc, rows, at, d, last)
  {
    if !act.ReadRegistry? && !act.Judge? {
      SweepKept(s, w, act);
    }
  }

  lemma StaysOut(s: State, a: Action, w: WorkerId)
    requires Enabled(s, a) && w in s.fleet && NotSweeping(s.fleet[w].pc)
    requires a.Work? && a.w == w ==> StaysIn(a.act)
    ensures NotSweeping(Apply(s, a).fleet[w].pc)
  {
    if a.Work? && a.w == w {
      OwnStaysOut(s, w, a.act);
    }
  }

  lemma OwnStaysOut(s: State, w: WorkerId, act: WorkerAct)
    requires Enabled(s, Work(w, act)) && w in s.fleet && NotSweeping(s.fleet[w].pc) && StaysIn(act)
    ensures NotSweeping(WorkerAfter(s, w, act).pc)
  {
    SweepKept(s, w, act);
  }

  /** From a non-empty listing up to the sweep's end w is at those rows. */
  lemma {:induction false} StaysInSweep(states: seq<State>, acts: seq<Action>, p: nat, k: nat, i: nat, w: WorkerId,
                                        d: WorkerId, last: nat)
    requires Behaviour(states, acts) && OneSweep(states, acts, p, i, w) && p < k <= i
    requires states[p + 1].fleet[w].pc.SawPending? && DeadSince(states[p], d, last)
    ensures w in states[k].fleet
    ensures InSweep(states[k].fleet[w].pc, states[p + 1].fleet[w].pc.rows, states[p].now, d, last)
    decreases k
  {
    if k > p + 1 {
      StaysInSweep(states, acts, p, k - 1, i, w, d, last);
      RunDeadSince(states, acts, p, k - 1, d, last);
      assert states[p].now <= states[k - 1].now by {
        RunLater(states, acts, p, k - 1);
      }
      SweepGoesOn(states[k - 1], acts[k - 1], w, states[p + 1].fleet[w].pc.rows, states[p].now, d, last);
    }
  }

  /** From an empty listing on w is at no rows, so no sweep ends. */
  lemma {:induction false} EmptyListingNeverEnds(states: seq<State>, acts: seq<Action>, p: nat, k: nat, i: nat,
                                                 w: WorkerId)
    requires Behaviour(states, acts) && OneSweep(states, acts, p, i, w) && p < k <= i && !states[p + 1].fleet[w].pc.SawPending?
    ensures w in states[k].fleet && NotSweeping(states[k].fleet[w].pc)
    decreases k
  {
    if k > p + 1 {
      EmptyListingNeverEnds(states, acts, p, k - 1, i, w);
      StaysOut(states[k - 1], acts[k - 1], w);
    }
  }

  /**
   When a sweep ends, every row whose owner it took for dead was acknowledged or delivered again
   since it was listed.
   */
  lemma EndedSweepDealt(s: State, w: WorkerId, row: Stale)
    requires Inv(s) && Enabled(s, Work(w, EndSweep)) && row in s.fleet[w].pc.sweep.rows
    requires Attempts(w, s.fleet[w].pc.sweep, row)
    ensures Dealt(s.q, row)
  {
    assert WorkerOk(s.q, s.api.calls, s.cfg.claimIdleMs, s.now, w, s.fleet[w]);
    var sweep := s.fleet[w].pc.sweep;
    var j :| 0 <= j < |sweep.rows| && sweep.rows[j] == row;
  }

  /** The ids XPENDING lists at s among those d owns: its own that are idle and among the ten lowest idle ids. */
  ghost predicate Listed(s: State, d: WorkerId, id: nat) {
    && id in Owned(s.q, d)
    && s.q.IsIdle(id, s.cfg.claimIdleMs, s.now)
    && IdleBetween(s.q, s.cfg.claimIdleMs, s.now, s.q.group.value.start, id) < 10
  }

  lemma ListedHasRow(s: State, d: WorkerId, id: nat) returns (row: Stale)
    requires QueueOk(s.q, s.cfg.claimIdleMs, s.now) && Listed(s, d, id)
    ensures row in s.q.PendingIdle(s.cfg.claimIdleMs, s.now, s.q.group.value.start, SWEEP_LIMIT)
    ensures row == Stale(id, d, |s.q.tracks[id].deliveries|)
  {
    var g := s.q.group.value;
    assert PlacedOk(g, id, s.q.tracks[id]);
    ListsLowestIdle(s.q, s.cfg.claimIdleMs, s.now, g.start, SWEEP_LIMIT, id);
    RowsFrom(s.q, s.cfg.claimIdleMs, s.now, g.start, SWEEP_LIMIT);
    row :| row in s.q.PendingIdle(s.cfg.claimIdleMs, s.now, g.start, SWEEP_LIMIT) && row.id == id;
  }

  /**
   Crash recovery. A sweep listed 10001 ms or more after a crashed worker's last heartbeat, that
   meets no Redis error, leaves none of the listed entries with it: each has been acknowledged or
   delivered to another worker.
   */
  lemma SweepRecovers(states: seq<State>, acts: seq<Action>, e: nat, p: nat, i: nat, w: WorkerId, d: WorkerId,
                      last: nat, id: nat)
    requires Behaviour(states, acts) && e <= p && OneSweep(states, acts, p, i, w)
    requires DeadSince(states[e], d, last) && last + 10000 < states[p].now
    requires Listed(states[p], d, id)
    ensures id < |states[p].q.tracks| && id < |states[i].q.tracks|
    ensures states[i].q.tracks[id].acked || |states[p].q.tracks[id].deliveries| < |states[i].q.tracks[id].deliveries|
    ensures id !in Owned(states[i].q, d)
  {
    RunQueueOk(states, acts, p);
    var row := ListedHasRow(states[p], d, id);
    RunDeadSince(states, acts, e, p, d, last);
    if !states[p + 1].fleet[w].pc.SawPending? {
      EmptyListingNeverEnds(states, acts, p, i, i, w);
    }
    StaysInSweep(states, acts, p, i, i, w, d, last);
    RunDeadSince(states, acts, p, i, d, last);
    RunInv(states, acts, i);
    EndedSweepDealt(states[i], w, row);
    if id in Owned(states[i].q, d) {
      DeadOwnsNoMore(states, acts, p, i, d, id);
    }
  }

  /**
   Progress: such a sweep strictly shrinks what the crashed worker holds, by all it listed, and the
   loss is for good.
   */
  lemma SweepIsProgress(states: seq<State>, acts: seq<Action>, e: nat, p: nat, i: nat, j: nat, w: WorkerId,
                        d: WorkerId, last: nat)
    requires Behaviour(states, acts) && e <= p && OneSweep(states, acts, p, i, w) && i <= j < |states|
    requires DeadSince(states[e], d, last) && last + 10000 < states[p].now
    ensures Owned(states[j].q, d) <= Owned(states[p].q, d)
    ensures forall id | Listed(states[p], d, id) :: id !in Owned(states[j].q, d)
    ensures (exists id :: Listed(states[p], d, id)) ==> Owned(states[j].q, d) < Owned(states[p].q, d)
  {
    RunDeadSince(states, acts, e, p, d, last);
    RunDeadSince(states, acts, e, i, d, last);
    forall id | id in Owned(states[j].q, d)
      ensures id in Owned(states[p].q, d) && !Listed(states[p], d, id)
    {
      DeadOwnsNoMore(states, acts, p, j, d, id);
      DeadOwnsNoMore(states, acts, i, j, d, id);
      if Listed(states[p], d, id) {
        SweepRecovers(states, acts, e, p, i, w, d, last, id);
      }
    }
  }
}
