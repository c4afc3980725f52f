/**
 Claims made in the code's comments that its behaviour does not bear out, each refuted by a run
 built step by step. The theorems named beside them say what does hold.
 */
module Counterexamples {
  import opened Platform
  import opened Wire
  import opened InvocationStream
  import opened Registry
  import opened Calls
  import opened Protocol
  import opened History
  import opened Capacity
  import opened Metrics

  ghost predicate Reachable(s: State) {
    exists states, acts :: Behaviour(states, acts) && states[|acts|] == s
  }

  lemma Start(s: State)
    requires Init(s)
    ensures Reachable(s)
  {
    assert Behaviour([s], []) && [s][0] == s;
  }

  lemma Next(s: State, a: Action) returns (t: State)
    requires Reachable(s) && Enabled(s, a)
    ensures t == Apply(s, a) && Reachable(t)
  {
    t := Apply(s, a);
    var states, acts :| Behaviour(states, acts) && states[|acts|] == s;
    ExtendRun(states, acts, a, t);
    assert Behaviour(states + [t], acts + [a]) && (states + [t])[|acts + [a]|] == t;
  }

  /** A log of entries left by something else. */
  function Before(log: seq<Fields>): seq<Track> {
    seq(|log|, _ => Track(None, 0, [], [], {}, false))
  }

  function Empty(cfg: Config, log: seq<Fields>): State {
    State(cfg, |log|, 0, Queue(log, None, Before(log)), map[], map[], Api(map[], {}, {}, []))
  }

  const IDLE_WORKER: Worker := Worker(LoopHead, true, true, true, 0, [], false)

  /** Worker 0 is up at time 0, its first heartbeat is in the registry, and nothing has been asked yet. */
  function Up(cfg: Config, log: seq<Fields>): State {
    Empty(cfg, log).(q := Queue(log, Some(Group(|log|, |log|, map[])), Before(log)),
                     registry := map[0 := Beat(CAPACITY, 0, 0)],
                     fleet := map[0 := IDLE_WORKER])
  }

  lemma GroupReadyReached(cfg: Config, log: seq<Fields>)
    ensures Reachable(Empty(cfg, log).(q := Up(cfg, log).q,
                                       fleet := map[0 := Worker(GroupReady, true, false, false, 0, [], false)]))
  {
    Start(Empty(cfg, log));
    var s := Next(Empty(cfg, log), Work(0, Boot));
    var t := Next(s, Work(0, EnsureGroup));
    assert t.fleet == map[0 := Worker(GroupReady, true, false, false, 0, [], false)];
    assert t.q == Up(cfg, log).q;
  }

  lemma WorkerUp(cfg: Config, log: seq<Fields>)
    ensures Reachable(Up(cfg, log))
  {
    GroupReadyReached(cfg, log);
    var ready := Worker(GroupReady, true, false, false, 0, [], false);
    var s := Empty(cfg, log).(q := Up(cfg, log).q, fleet := map[0 := ready]);
    var t := Next(s, Work(0, SampleBeat));
    assert t.fleet[0].outbox == [Beat(CAPACITY, 0, 0)];
    assert t.fleet == map[0 := ready.(pc := FirstBeat, outbox := [Beat(CAPACITY, 0, 0)])];
    var u := Next(t, Work(0, LandBeat));
    assert u.fleet[0].outbox == [];
    assert u.fleet == map[0 := ready.(pc := FirstBeat)];
    assert u.registry == map[0 := Beat(CAPACITY, 0, 0)];
    var v := Next(u, Work(0, BeginLoop));
    assert v.fleet == Up(cfg, log).fleet;
    assert v == Up(cfg, log);
  }

  /** A step of the request c that leaves rows and log alone. */
  lemma CallNext(s: State, c: Corr, act: CallAct) returns (t: State)
    requires Reachable(s) && Enabled(s, Serve(c, act)) && !Appends(act) && !act.Record? && !act.Arrive?
    ensures Reachable(t)
    ensures t == s.(api := Api(
              s.api.calls[c := CallAfter(s.cfg, s.api.calls[c], c in s.api.waiters, act, s.now, s.registry, |s.q.entries|)],
              With(s.api.waiters, c, WaitingAfter(c in s.api.waiters, act)),
              With(s.api.subs, c, SubscribedAfter(c in s.api.subs, act)),
              s.api.rows))
  {
    t := Next(s, Serve(c, act));
  }

  function WithCall(s: State, c: Corr, k: Call): State {
    s.(api := s.api.(calls := s.api.calls[c := k]))
  }

  lemma PhaseNext(s: State, c: Corr, act: CallAct) returns (t: State)
    requires Reachable(s) && Enabled(s, Serve(c, act)) && !Appends(act) && !act.Record? && !act.Arrive?
    requires WaitingAfter(c in s.api.waiters, act) == (c in s.api.waiters)
    requires SubscribedAfter(c in s.api.subs, act) == (c in s.api.subs)
    ensures Reachable(t)
    ensures t == WithCall(s, c, CallAfter(s.cfg, s.api.calls[c], c in s.api.waiters, act, s.now, s.registry, |s.q.entries|))
  {
    t := CallNext(s, c, act);
    assert t.api.waiters == s.api.waiters;
    assert t.api.subs == s.api.subs;
  }

  lemma ArrivesAndReads(s: State, c: Corr, job: Job) returns (t: State)
    requires Reachable(s) && IsUuid(c) && c !in s.api.calls
    ensures Reachable(t) && t == WithCall(s, c, NewCall(job).(phase := CapacityRead(s.registry)))
  {
    var a := Next(s, Serve(c, Arrive(job)));
    assert a == WithCall(s, c, NewCall(job));
    t := PhaseNext(a, c, ReadCapacity);
    assert t == WithCall(s, c, NewCall(job).(phase := CapacityRead(s.registry)));
  }

  /** The request c of job has been admitted, on top of whatever calls there are. */
  lemma Admit(s: State, c: Corr, job: Job) returns (t: State)
    requires Reachable(s) && IsUuid(c) && c !in s.api.calls && HasSpareCapacity(s.registry, s.now)
    ensures Reachable(t) && t == WithCall(s, c, NewCall(job).(phase := Admitted))
  {
    var a := ArrivesAndReads(s, c, job);
    t := PhaseNext(a, c, Decide);
    assert t == WithCall(s, c, NewCall(job).(phase := Admitted));
  }

  // ---- a request may leave no row ----

  /** See Rejections.ServerErrorIffRegistryThrew: a registry read that throws ends the request with no row for it. */
  lemma FinishedWithoutRow(cfg: Config, c: Corr, job: Job)
    requires IsUuid(c)
    ensures exists s :: Reachable(s) && c in s.api.calls && s.api.calls[c].phase.Finished? && s.api.rows == []
  {
    Start(Empty(cfg, []));
    var s := Next(Empty(cfg, []), Serve(c, Arrive(job)));
    s := Next(s, Serve(c, CapacityError));
    assert s.api.calls[c].phase.Finished? && s.api.rows == [];
  }

  // ---- admission may exceed capacity ----

  /** See Capacity.AdmissionFitsIff: two requests can both be admitted on one free slot of a fleet of one. */
  lemma AdmissionExceedsCapacity(cfg: Config, c: Corr, d: Corr, job: Job)
    requires IsUuid(c) && IsUuid(d) && c != d
    ensures exists s :: Reachable(s) && s.fleet.Keys == {0} && CAPACITY == 1
              && c in s.api.calls && d in s.api.calls && s.api.calls[c].phase.Admitted? && s.api.calls[d].phase.Admitted?
              && !Fits(s)
  {
    WorkerUp(cfg, []);
    assert Healthy(Up(cfg, []).registry, 0, 0) && Spare(Up(cfg, []).registry[0]);
    var s := Admit(Up(cfg, []), c, job);
    assert Healthy(s.registry, 0, 0) && Spare(s.registry[0]);
    s := Admit(s, d, job);
    assert s.api.calls[c].phase.Admitted? && s.api.calls[d].phase.Admitted?;
    TwoDoNotFit(s, c, d, 0);
  }

  // ---- worker 0 takes and runs the one job ----

  /** The log holds one entry, and nobody has read it. */
  ghost predicate OneUnread(s: State) {
    && s.q.group == Some(Group(0, 0, map[])) && |s.q.entries| == 1
    && |s.q.tracks| == 1 && s.q.tracks[0].deliveries == [] && s.q.tracks[0].starts == [] && s.q.tracks[0].results == {}
  }

  const FIRST_TASK: Task := Task(0, 0, ToHead)

  /** An outcome handleMessage can come to for these fields. */
  predicate Possible(fields: Fields, o: Outcome) {
    Decode(fields).event.None? ==> o.Failure? && o.durationMs == 0
  }

  lemma Reads(s: State) returns (t: State)
    requires Reachable(s) && OneUnread(s) && s.fleet == map[0 := IDLE_WORKER]
    ensures Reachable(t) && t == s.(q := s.q.ReadNew(0, s.now), fleet := map[0 := IDLE_WORKER.(pc := Received(FIRST_TASK))])
  {
    assert s.q.PendingIdle(s.cfg.claimIdleMs, s.now, 0, SWEEP_LIMIT) == [];
    var e := Next(s, Work(0, Enter));
    assert e.fleet == map[0 := IDLE_WORKER.(pc := Listing)];
    var a := Next(e, Work(0, ReadPending));
    assert a.fleet == map[0 := IDLE_WORKER.(pc := Reading)];
    t := Next(a, Work(0, ReadNew(false)));
    assert t.fleet == map[0 := IDLE_WORKER.(pc := Received(FIRST_TASK))];
  }

  lemma Begins(s: State) returns (t: State)
    requires Reachable(s) && s.fleet == map[0 := IDLE_WORKER.(pc := Received(FIRST_TASK))] && |s.q.tracks| == 1
    ensures Reachable(t)
    ensures t == s.(q := s.q.BeginTurn(0, 0), fleet := map[0 := IDLE_WORKER.(pc := Executing(FIRST_TASK), inFlight := 1)])
  {
    t := Next(s, Work(0, WorkerAct.Start));
    assert t.fleet == map[0 := IDLE_WORKER.(pc := Executing(FIRST_TASK), inFlight := 1)];
  }

  lemma Ends(s: State, o: Outcome) returns (t: State)
    requires Reachable(s) && s.fleet == map[0 := IDLE_WORKER.(pc := Executing(FIRST_TASK), inFlight := 1)]
    requires |s.q.tracks| == 1 && |s.q.entries| == 1 && Possible(s.q.entries[0], o)
    ensures Reachable(t)
    ensures t == s.(q := s.q.EndTurn(0, Result(0, Decode(s.q.entries[0]), o)),
                    fleet := map[0 := IDLE_WORKER.(pc := Executed(FIRST_TASK, o))])
  {
    t := Next(s, Work(0, Finish(o)));
    assert t.fleet == map[0 := IDLE_WORKER.(pc := Executed(FIRST_TASK, o))];
  }

  /** From an unread entry to its outcome about to be published. */
  lemma TakesAndRuns(s: State, o: Outcome) returns (t: State)
    requires Reachable(s) && OneUnread(s) && s.fleet == map[0 := IDLE_WORKER] && Possible(s.q.entries[0], o)
    ensures Reachable(t) && t.api == s.api && t.now == s.now
    ensures t.fleet == map[0 := IDLE_WORKER.(pc := Executed(FIRST_TASK, o))]
    ensures t.q.entries == s.q.entries && |t.q.tracks| == 1 && t.q.tracks[0].author == s.q.tracks[0].author
    ensures t.q.tracks[0].results == {Result(0, Decode(s.q.entries[0]), o)}
  {
    var a := Reads(s);
    assert |a.q.tracks| == 1;
    var b := Begins(a);
    t := Ends(b, o);
  }

  // ---- a wake-up may be lost ----

  function InDispatch(s: State, c: Corr, job: Job, phase: Phase): Call {
    NewCall(job).(phase := phase, promise := Unsettled, registeredAt := s.now, deadline := s.now + DispatchTimeout(s.cfg, job))
  }

  /** An admitted request up to its XADD. */
  lemma Subscribes(s: State, c: Corr, job: Job) returns (t: State)
    requires Reachable(s) && c in s.api.calls && s.api.calls[c] == NewCall(job).(phase := Admitted)
    requires s.api.waiters == {} && s.api.subs == {}
    ensures Reachable(t)
    ensures t == s.(api := Api(s.api.calls[c := InDispatch(s, c, job, Adding)], {c}, {c}, s.api.rows))
  {
    var a := CallNext(s, c, Calls.Register);
    assert a.api.waiters == {c} && a.api.subs == {};
    assert a.api.calls[c] == InDispatch(s, c, job, Subscribing);
    t := CallNext(a, c, Subscribe);
    assert t.api.waiters == {c} && t.api.subs == {c};
    assert t.api.calls == s.api.calls[c := InDispatch(s, c, job, Adding)];
  }

  /**
   See Settlement.NoLostWakeUp: XADD is carried out but throws, finally unsubscribes, the waiter
   stays in the map, and the outcome that is then published does not reach it.
   */
  lemma FailedAddLosesReply(cfg: Config, c: Corr, job: Job, o: Outcome)
    requires IsUuid(c) && Possible(Encode(c, job), o)
    ensures exists s, a: Action :: Reachable(s) && Enabled(s, a) && a.Work? && a.act.Publish?
              && c in s.api.waiters && c in Apply(s, a).api.waiters && c in Apply(s, a).api.calls
              && var k := Apply(s, a).api.calls[c]; |k.published| == 1 && k.published[0].outcome == o && k.inbox == []
  {
    var s := FailedAdd(cfg, c, job);
    s := TakesAndRuns(s, o);
    LostPublish(s, c, job, o);
    assert Reachable(s) && Enabled(s, Work(0, WorkerAct.Publish(false)));
  }

  lemma FailedAdd(cfg: Config, c: Corr, job: Job) returns (t: State)
    requires IsUuid(c)
    ensures Reachable(t) && OneUnread(t) && t.fleet == map[0 := IDLE_WORKER] && t.q.entries == [Encode(c, job)]
    ensures t.api.waiters == {c} && t.api.subs == {} && c in t.api.calls
    ensures t.api.calls[c].published == [] && t.api.calls[c].inbox == []
  {
    var s := DispatchBegun(cfg, c, job);
    t := AddFails(s, c, job);
  }

  /** With one idle worker up, the request c has subscribed and is about to add its job. */
  lemma DispatchBegun(cfg: Config, c: Corr, job: Job) returns (s: State)
    requires IsUuid(c)
    ensures Reachable(s) && s.cfg == cfg && s.now == 0 && s.fleet == map[0 := IDLE_WORKER]
    ensures s.registry == map[0 := Beat(CAPACITY, 0, 0)]
    ensures s.q == Queue([], Some(Group(0, 0, map[])), [])
    ensures s.api == Api(map[c := InDispatch(s, c, job, Adding)], {c}, {c}, [])
  {
    WorkerUp(cfg, []);
    assert Healthy(Up(cfg, []).registry, 0, 0) && Spare(Up(cfg, []).registry[0]);
    s := Admit(Up(cfg, []), c, job);
    s := Subscribes(s, c, job);
    assert s.api.calls == map[c := InDispatch(s, c, job, Adding)];
  }

  lemma AddThrows(s: State, c: Corr, job: Job) returns (t: State)
    requires Reachable(s) && c in s.api.calls && s.api.calls[c] == InDispatch(s, c, job, Adding)
    requires s.api.waiters == {c} && s.api.subs == {c} && s.q == Queue([], Some(Group(0, 0, map[])), [])
    ensures Reachable(t) && t.fleet == s.fleet && t.now == s.now && t.api.waiters == {c} && t.api.subs == {c}
    ensures t.api.calls == s.api.calls[c := InDispatch(s, c, job, Leaving(None)).(entry := Some(0), addFailed := true)]
    ensures OneUnread(t) && t.q.entries == [Encode(c, job)]
  {
    t := Next(s, Serve(c, AddError(true)));
    assert t.api.waiters == {c} && t.api.subs == {c};
    assert t.q.entries == [Encode(c, job)];
  }

  lemma AddFails(s: State, c: Corr, job: Job) returns (t: State)
    requires Reachable(s) && c in s.api.calls && s.api.calls[c] == InDispatch(s, c, job, Adding)
    requires s.api.waiters == {c} && s.api.subs == {c} && s.q == Queue([], Some(Group(0, 0, map[])), [])
    ensures Reachable(t) && t.fleet == s.fleet && t.now == s.now && t.api.waiters == {c} && t.api.subs == {}
    ensures t.api.calls == s.api.calls[c := InDispatch(s, c, job, Recording(NoReply)).(entry := Some(0), addFailed := true)]
    ensures OneUnread(t) && t.q.entries == [Encode(c, job)]
  {
    var a := AddThrows(s, c, job);
    t := CallNext(a, c, Unsubscribe);
    assert t.api.waiters == {c} && t.api.subs == {};
  }

  lemma LostPublish(s: State, c: Corr, job: Job, o: Outcome)
    requires IsUuid(c) && s.fleet == map[0 := IDLE_WORKER.(pc := Executed(FIRST_TASK, o))]
    requires s.q.entries == [Encode(c, job)] && c in s.api.calls && c !in s.api.subs
    ensures var a := Work(0, WorkerAct.Publish(false));
            && Enabled(s, a)
            && Apply(s, a).api == Calls.Publish(s.api, c, Reply(o, 0, 0, s.now))
  {
    DecodeNames(c, job);
  }

  // ---- NO_WORKER may be recorded for a job that ran ----

  lemma Adds(s: State, c: Corr, job: Job) returns (t: State)
    requires Reachable(s) && c in s.api.calls && s.api.calls[c] == InDispatch(s, c, job, Adding)
    requires s.api.waiters == {c} && s.api.subs == {c} && s.q == Queue([], Some(Group(0, 0, map[])), [])
    ensures Reachable(t) && t.fleet == s.fleet && t.now == s.now && t.cfg == s.cfg && t.registry == s.registry
    ensures t.api == s.api.(calls := s.api.calls[c := InDispatch(s, c, job, Awaiting).(entry := Some(0))])
    ensures OneUnread(t) && t.q.entries == [Encode(c, job)] && t.q.tracks[0].author == Some(c)
  {
    t := Next(s, Serve(c, Add));
    assert t.api.waiters == {c} && t.api.subs == {c};
    assert t.q.entries == [Encode(c, job)];
  }

  /** The timer fires and the request is turned away with a NO_WORKER row. */
  lemma TimesOut(s: State, c: Corr) returns (t: State)
    requires Reachable(s) && c in s.api.calls && s.api.calls[c].phase.Awaiting? && s.api.calls[c].promise.Unsettled?
    requires s.api.waiters == {c} && s.api.subs == {c} && s.api.rows == [] && s.now <= s.api.calls[c].deadline
    ensures Reachable(t) && t.q == s.q && t.api.rows == [Row(c, NO_WORKER)]
    ensures c in t.api.calls && t.api.calls[c].phase == Finished(NoReply)
  {
    var k := s.api.calls[c];
    var a := Next(s, Tick(k.deadline - s.now));
    var b := CallNext(a, c, OnTimer);
    assert b.api.waiters == {};
    assert b.api.calls[c] == k.(promise := Rejected, settledAt := k.deadline);
    var d := LeavesUnanswered(b, c);
    t := Next(d, Serve(c, Record));
    assert t.api.rows == [Row(c, NO_WORKER)];
  }

  lemma LeavesUnanswered(s: State, c: Corr) returns (t: State)
    requires Reachable(s) && c in s.api.calls && s.api.calls[c].phase.Awaiting? && s.api.calls[c].promise.Rejected?
    ensures Reachable(t) && t.q == s.q && t.api.rows == s.api.rows
    ensures c in t.api.calls && t.api.calls[c].phase == Recording(NoReply)
  {
    var a := CallNext(s, c, Resume);
    assert a.api.calls[c].phase == Leaving(None);
    t := CallNext(a, c, Unsubscribe);
  }

  /** See Rejections.NoWorkerMeansNothingRanIff: the one row says NO_WORKER, yet the job ran to this outcome. */
  lemma NoWorkerYetRan(cfg: Config, c: Corr, job: Job, o: Outcome)
    requires IsUuid(c) && Possible(Encode(c, job), o)
    ensures exists s :: Reachable(s) && s.api.rows == [Row(c, NO_WORKER)] && |s.q.tracks| == 1
              && s.q.tracks[0].author == Some(c) && s.q.tracks[0].results == {Result(0, Decode(Encode(c, job)), o)}
  {
    var s := Added(cfg, c, job);
    s := TakesAndRuns(s, o);
    s := TimesOut(s, c);
    assert s.api.rows == [Row(c, NO_WORKER)];
  }

  lemma Added(cfg: Config, c: Corr, job: Job) returns (t: State)
    requires IsUuid(c)
    ensures Reachable(t) && t.cfg == cfg && t.now == 0 && t.fleet == map[0 := IDLE_WORKER]
    ensures t.registry == map[0 := Beat(CAPACITY, 0, 0)]
    ensures OneUnread(t) && t.q.entries == [Encode(c, job)] && t.q.tracks[0].author == Some(c)
    ensures t.api.waiters == {c} && t.api.subs == {c} && t.api.rows == []
    ensures c in t.api.calls && t.api.calls[c] == InDispatch(t, c, job, Awaiting).(entry := Some(0))
  {
    var s := DispatchBegun(cfg, c, job);
    t := Adds(s, c, job);
  }

  // ---- a reclaim may take a job from a live worker ----

  const BUSY: Worker := IDLE_WORKER.(pc := Executing(FIRST_TASK), inFlight := 1, running := false, ticking := false)

  function Fresh(pc: Pc): Worker {
    Worker(pc, true, true, true, 0, [], false)
  }

  /** Worker 0 executes the job while shutting down, so its heartbeats have stopped; a while passes. */
  lemma Drains(s: State, ms: nat) returns (t: State)
    requires Reachable(s) && OneUnread(s) && s.fleet == map[0 := IDLE_WORKER]
    ensures Reachable(t) && t.fleet == map[0 := BUSY] && t.now == s.now + ms
    ensures t.registry == s.registry && t.cfg == s.cfg
    ensures t.q == s.q.ReadNew(0, s.now).BeginTurn(0, 0)
  {
    var a := Reads(s);
    assert |a.q.tracks| == 1;
    var b := Begins(a);
    var d := Next(b, Work(0, Stop));
    assert d.fleet == map[0 := BUSY];
    t := Next(d, Tick(ms));
  }

  /** A second worker comes up. */
  lemma SecondBoots(s: State) returns (t: State)
    requires Reachable(s) && s.fleet == map[0 := BUSY] && s.q.group.Some?
    ensures Reachable(t) && t == s.(fleet := map[0 := BUSY, 1 := Worker(GroupReady, true, false, false, 0, [], false)])
  {
    var a := Next(s, Work(1, Boot));
    assert a.fleet == map[0 := BUSY, 1 := Worker(Booting, true, false, false, 0, [], false)];
    t := Next(a, Work(1, EnsureGroup));
    assert t.fleet == map[0 := BUSY, 1 := Worker(GroupReady, true, false, false, 0, [], false)];
  }

  lemma SecondUp(s: State) returns (t: State)
    requires Reachable(s) && s.fleet == map[0 := BUSY, 1 := Worker(GroupReady, true, false, false, 0, [], false)]
    ensures Reachable(t) && t.fleet == map[0 := BUSY, 1 := Fresh(LoopHead)]
    ensures t.q == s.q && t.now == s.now && t.cfg == s.cfg && t.registry == s.registry[1 := Beat(CAPACITY, 0, s.now)]
  {
    var ready := Worker(GroupReady, true, false, false, 0, [], false);
    var a := Next(s, Work(1, SampleBeat));
    assert a.fleet[1].outbox == [Beat(CAPACITY, 0, s.now)];
    assert a.fleet == map[0 := BUSY, 1 := ready.(pc := FirstBeat, outbox := [Beat(CAPACITY, 0, s.now)])];
    var b := Next(a, Work(1, LandBeat));
    assert b.fleet[1].outbox == [];
    assert b.fleet == map[0 := BUSY, 1 := ready.(pc := FirstBeat)];
    t := Next(b, Work(1, BeginLoop));
    assert t.fleet == map[0 := BUSY, 1 := Fresh(LoopHead)];
  }

  /** It sweeps and finds the entry idle and its owner's heartbeat stale. */
  lemma SecondSweeps(s: State, rows: seq<Stale>) returns (t: State)
    requires Reachable(s) && s.fleet == map[0 := BUSY, 1 := Fresh(LoopHead)] && s.q.group.Some?
    requires rows != [] && rows == s.q.PendingIdle(s.cfg.claimIdleMs, s.now, s.q.group.value.start, SWEEP_LIMIT)
    ensures Reachable(t) && t.q == s.q && t.now == s.now && t.cfg == s.cfg
    ensures t.fleet == map[0 := BUSY, 1 := Fresh(Sweeping(Sweep(rows, s.now, s.registry, s.now), 0))]
  {
    var e := Next(s, Work(1, Enter));
    assert e.fleet == map[0 := BUSY, 1 := Fresh(Listing)];
    var a := Next(e, Work(1, ReadPending));
    assert a.fleet == map[0 := BUSY, 1 := Fresh(SawPending(rows, s.now))];
    var b := Next(a, Work(1, ReadRegistry));
    assert b.fleet == map[0 := BUSY, 1 := Fresh(SawRegistry(rows, s.now, s.registry))];
    t := Next(b, Work(1, Judge));
    assert t.fleet == map[0 := BUSY, 1 := Fresh(Sweeping(Sweep(rows, s.now, s.registry, s.now), 0))];
  }

  /**
   See Recovery.AttemptsIffNoFreshBeat and ClaimIsOfSilentOwner: the owner a sweep finds unhealthy
   may be alive and running the job.
   */
  lemma ReclaimFromLiveWorker(cfg: Config, c: Corr, job: Job)
    requires IsUuid(c)
    ensures exists s :: Reachable(s) && Enabled(s, Work(1, Claim(false)))
              && 0 in s.fleet && s.fleet[0].alive && s.fleet[0].pc == Executing(FIRST_TASK)
              && s.q.group.Some? && 0 in s.q.group.value.pel && s.q.group.value.pel[0].owner == 0
              && s.fleet[1].pc.sweep.rows[s.fleet[1].pc.next].id == 0 && Claimable(s, 0)
  {
    var s := Added(cfg, c, job);
    var q := s.q;
    s := Drains(s, STALE_AFTER_MS + 1 + cfg.claimIdleMs);
    s := SecondBoots(s);
    s := SecondUp(s);
    OneStaleRow(q, s.q, s.cfg.claimIdleMs, s.now);
    s := SecondSweeps(s, [Stale(0, 0, 1)]);
    assert s.fleet[0] == BUSY && s.fleet[1].pc.sweep.rows[0] == Stale(0, 0, 1);
    assert Claimable(s, 0);
    assert Enabled(s, Work(1, Claim(false)));
  }

  lemma OneStaleRow(q: Queue, r: Queue, idle: nat, now: nat)
    requires q.group == Some(Group(0, 0, map[])) && |q.entries| == 1 && |q.tracks| == 1 && q.tracks[0].deliveries == []
    requires r == q.ReadNew(0, 0).BeginTurn(0, 0) && idle <= now
    ensures r.group == Some(Group(0, 1, map[0 := Pending(0, 0, 1)])) && |r.tracks| == 1
    ensures r.PendingIdle(idle, now, 0, SWEEP_LIMIT) == [Stale(0, 0, 1)]
  {
    assert r.group.value.pel == map[0 := Pending(0, 0, 1)];
    assert r.PendingIdle(idle, now, 1, SWEEP_LIMIT - 1) == [];
  }

  // ---- the gauge may hide a backlog ----

  /**
   What Redis answers about a group that was made with $ behind two or more entries, has not been
   read from, and has since had an entry added: it cannot tell how many entries lie before the
   group's start, so entries-read and lag are nil.
   */
  const NIL_LAG: GroupInfo := GroupInfo(INVOCATION_CONSUMER_GROUP, 0, 0, "1700000000000-0", None, None)

  lemma NilLagIsTrue(q: Queue)
    requires q.group.Some? && q.group.value.pel == map[] && q.group.value.cursor + 1 == |q.entries|
    ensures Describes([NIL_LAG], q) && q.Lag() == 1 && ConsumerGroupLag(GroupsReply([NIL_LAG])) == 0
  {
    assert [NIL_LAG][0].name == INVOCATION_CONSUMER_GROUP;
    assert [NIL_LAG][0].lag.None?;
    GaugeIsLag([NIL_LAG], q);
  }

  /** A job has been added behind a log of older entries. */
  lemma AddedBehind(cfg: Config, log: seq<Fields>, c: Corr, job: Job) returns (t: State)
    requires IsUuid(c)
    ensures Reachable(t) && t.base == |log| && t.q.entries == log + [Encode(c, job)]
    ensures t.q.group == Some(Group(|log|, |log|, map[]))
  {
    WorkerUp(cfg, log);
    assert Healthy(Up(cfg, log).registry, 0, 0) && Spare(Up(cfg, log).registry[0]);
    var s := Admit(Up(cfg, log), c, job);
    s := Subscribes(s, c, job);
    t := Next(s, Serve(c, Add));
  }

  /**
   See Metrics.GaugeIsLag: one job waits unread behind older entries, Redis cannot tell the lag, and
   the gauge shows 0.
   */
  lemma NilLagHidesBacklog(cfg: Config, log: seq<Fields>, c: Corr, job: Job)
    requires IsUuid(c) && |log| >= 2
    ensures exists s :: Reachable(s) && s.base == |log| && Describes([NIL_LAG], s.q) && s.q.Lag() == 1
              && ConsumerGroupLag(GroupsReply([NIL_LAG])) == 0
  {
    var s := AddedBehind(cfg, log, c, job);
    NilLagIsTrue(s.q);
  }
}
