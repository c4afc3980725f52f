/**
 WorkerService, written as the class it is. Each await is a call of Await, during which the other
 processes, this worker's own heartbeat timer and a shutdown may do anything the protocol lets them.
 */
module WorkerServices {
  import opened Platform
  import opened Wire
  import opened InvocationStream
  import opened Registry
  import opened Protocol
  import opened Invariants
  import opened History
  import opened Recovery
  import opened Admission
  import opened World
  import opened RegistryServices

  class WorkerService {
    const workerId: WorkerId
    const redis: System
    var running: bool
    var inFlight: nat
    var heartbeatTimer: bool

    /** The fields say what the protocol's state says of this worker, which is alive. */
    ghost predicate Coupled()
      reads this, redis
    {
      && redis.Valid()
      && workerId in redis.s.fleet
      && var wk := redis.s.fleet[workerId];
      && wk.alive && wk.running == running && wk.inFlight == inFlight && wk.ticking == heartbeatTimer
      && (running || heartbeatTimer ==> !wk.pc.Booting? && !wk.pc.GroupReady? && !wk.pc.FirstBeat?)
    }

    ghost function Pc(): Protocol.Pc
      reads this, redis
      requires workerId in redis.s.fleet
    {
      redis.s.fleet[workerId].pc
    }

    /** The run has only been extended. */
    twostate predicate Extends()
      reads this, redis
    {
      old(redis.states) <= redis.states && old(redis.acts) <= redis.acts && old(redis.step) <= redis.step
    }

    /** It runs on unless it was asked to stop. */
    twostate predicate RunsOn()
      reads this, redis
    {
      (running ==> old(running)) && (old(running) && !running ==> redis.Asked(old(redis.step)))
    }

    /** A Redis call of this worker has failed since step from, and not by its own doing. */
    ghost predicate Failing(from: nat)
      reads this, redis
    {
      && redis.Disturbed(from)
      && exists m: nat ::
           from <= m < |redis.acts| && redis.acts[m].Work? && redis.acts[m].w == workerId && Fails(redis.acts[m].act)
    }

    /** The call made at step n is what failed. */
    lemma Blame(from: nat, n: nat)
      requires redis.Valid() && from <= n < |redis.acts| && redis.oracle.fate(n) != Done
      requires redis.acts[n].Work? && redis.acts[n].w == workerId && Fails(redis.acts[n].act)
      ensures Failing(from)
    {
    }

    /** What every part of the loop body leaves: a thrown exception ends in loop's catch, else no fault was added. */
    twostate predicate Went(threw: bool)
      reads this, redis
      requires old(workerId in redis.s.fleet)
    {
      && Coupled() && Extends() && inFlight == old(inFlight) && RunsOn()
      && if threw then Pc() == LoopHead && redis.s.fleet[workerId].faulted && Failing(old(redis.step))
         else redis.s.fleet[workerId].faulted == old(redis.s.fleet[workerId].faulted)
    }

    /** A process is started under an id nobody has used. */
    constructor (redis: System, workerId: WorkerId)
      requires redis.Valid() && workerId !in redis.s.fleet
      modifies redis
      ensures this.redis == redis && this.workerId == workerId
      ensures Coupled() && Pc() == Booting
    {
      this.redis, this.workerId := redis, workerId;
      running, inFlight, heartbeatTimer := false, 0, false;
      new;
      redis.Do(Work(workerId, Boot));
    }

    /** This process's next step as the protocol sees it. */
    method Step(act: WorkerAct)
      requires Coupled() && Enabled(redis.s, Work(workerId, act)) && !act.Crash?
      modifies redis
      ensures redis.Valid() && Extends() && redis.s == Apply(old(redis.s), Work(workerId, act))
      ensures redis.acts == old(redis.acts) + [Work(workerId, act)] && redis.states == old(redis.states) + [redis.s]
    {
      redis.Do(Work(workerId, act));
    }

    /** Date.now() and inFlight are read here; the HSET reaches Redis later. */
    method SendHeartbeat()
      requires Coupled() && (Pc().GroupReady? || heartbeatTimer)
      modifies redis
      ensures Coupled() && Extends()
      ensures redis.s.fleet[workerId].outbox ==
              old(redis.s.fleet[workerId].outbox) + [Beat(1, inFlight, old(redis.s.now))]
      ensures Pc() == if old(Pc()).GroupReady? then FirstBeat else old(Pc())
      ensures redis.s.q == old(redis.s.q) && redis.s.fleet[workerId].faulted == old(redis.s.fleet[workerId].faulted)
      ensures redis.acts == old(redis.acts) + [Work(workerId, SampleBeat)]
    {
      Step(SampleBeat);
    }

    /** The first half of onModuleDestroy, which may run at any await. */
    method BeginShutdown()
      requires Coupled() && running
      modifies this, redis
      ensures Coupled() && Extends() && !running && !heartbeatTimer
      ensures inFlight == old(inFlight) && Pc() == old(Pc())
      ensures redis.s.q == old(redis.s.q) && redis.s.fleet[workerId].faulted == old(redis.s.fleet[workerId].faulted)
      ensures redis.acts == old(redis.acts) + [Work(workerId, Stop)]
    {
      running, heartbeatTimer := false, false;
      redis.Do(Work(workerId, Stop));
    }

    /** Whose turn may come while this worker awaits: not its own code, and not its crash. */
    predicate Foreign(a: Action) {
      a.Work? && a.w == workerId ==> a.act.LandBeat? || a.act.LoseBeat?
    }

    /** What an await leaves of this worker: its place in its code, its job and its record of faults. */
    twostate predicate Paused()
      reads this, redis
      requires old(workerId in redis.s.fleet)
    {
      && Coupled() && Extends()
      && Pc() == old(Pc()) && inFlight == old(inFlight)
      && redis.s.fleet[workerId].faulted == old(redis.s.fleet[workerId].faulted)
      && RunsOn()
    }

    /** One turn: the heartbeat timer if it fires, else a shutdown if one is asked for, else whatever a is elsewhere. */
    method Turn(a: Action)
      requires Coupled()
      modifies this, redis
      ensures Paused()
      ensures old(heartbeatTimer && redis.oracle.tick(redis.step)) ==>
                redis.acts == old(redis.acts) + [Work(workerId, SampleBeat)]
      ensures old(running && redis.oracle.stop(redis.step) && !(heartbeatTimer && redis.oracle.tick(redis.step))) ==>
                redis.acts == old(redis.acts) + [Work(workerId, Stop)]
      ensures redis.acts == old(redis.acts) || |redis.acts| == |old(redis.acts)| + 1
    {
      if heartbeatTimer && redis.oracle.tick(redis.step) {
        SendHeartbeat();
      } else if running && redis.oracle.stop(redis.step) {
        BeginShutdown();
      } else if Foreign(a) && Enabled(redis.s, a) {
        redis.Do(a);
      }
    }

    /**
     At the steps from up to now this worker's timer, whenever it fired, sent a heartbeat, and a
     shutdown, whenever asked for, began.
     */
    ghost predicate Heeded(from: nat)
      reads this, redis
    {
      && redis.Valid()
      && forall n: nat | from <= n < |redis.acts| && workerId in redis.states[n].fleet ::
           var wk := redis.states[n].fleet[workerId];
           && (wk.ticking && redis.oracle.tick(n) ==> redis.acts[n] == Work(workerId, SampleBeat))
           && (wk.running && redis.oracle.stop(n) && !(wk.ticking && redis.oracle.tick(n)) ==>
                 redis.acts[n] == Work(workerId, Stop))
    }

    /** An await: anything may happen elsewhere, this worker's timer may tick, and a shutdown may begin. */
    method Await()
      requires Coupled()
      modifies this, redis
      ensures Paused() && Heeded(old(redis.step))
    {
      var turns: nat := *;
      while turns > 0
        invariant Paused() && Heeded(old(redis.step))
      {
        var a: Action := *;
        TurnHeeded(a, old(redis.step));
        turns := turns - 1;
      }
    }

    method TurnHeeded(a: Action, ghost from: nat)
      requires Coupled() && Heeded(from) && from <= redis.step
      modifies this, redis
      ensures Paused() && Heeded(from)
    {
      ghost var states, acts := redis.states, redis.acts;
      Turn(a);
      forall n: nat | from <= n < |redis.acts| && workerId in redis.states[n].fleet
        ensures var wk := redis.states[n].fleet[workerId];
                && (wk.ticking && redis.oracle.tick(n) ==> redis.acts[n] == Work(workerId, SampleBeat))
                && (wk.running && redis.oracle.stop(n) && !(wk.ticking && redis.oracle.tick(n)) ==>
                      redis.acts[n] == Work(workerId, Stop))
      {
        if n < |acts| {
          assert redis.states[n] == states[n] && redis.acts[n] == acts[n];
        } else {
          assert redis.states[n] == states[|acts|];
        }
      }
    }

    // ---- start and stop ----

    /** A rejected onModuleInit ends the process, as a crash does. */
    method Die()
      requires Coupled()
      modifies redis
      ensures redis.Valid() && Extends() && workerId in redis.s.fleet && !redis.s.fleet[workerId].alive
      ensures Pc() == old(Pc())
    {
      redis.Do(Work(workerId, Crash));
    }

    /**
     XGROUP CREATE, where BUSYGROUP counts as success and any other error is thrown on; n is the step
     at which the call was made, so whether the group was there already does not matter.
     */
    method EnsureConsumerGroup() returns (threw: bool, ghost n: nat)
      requires Coupled() && Pc().Booting?
      modifies this, redis
      ensures Coupled() && Extends() && !running && !heartbeatTimer
      ensures Pc() == if redis.oracle.fate(n) == Failed then Booting else GroupReady
      ensures old(redis.step) <= n <= redis.step && (threw <==> redis.oracle.fate(n) != Done)
      ensures !threw ==> redis.s.q.group.Some?
    {
      Await();
      n := redis.step;
      var fate := redis.Fate();
      if fate != Failed {
        Step(EnsureGroup);
      }
      threw := fate != Done;
    }

    /**
     await sendHeartbeat() before there is a timer: it returns once the heartbeat has landed, or
     throws, as the call waited for at step n ends.
     */
    method FirstHeartbeat() returns (threw: bool, ghost n: nat)
      requires Coupled() && Pc().GroupReady?
      modifies this, redis
      ensures Coupled() && Extends() && Pc() == FirstBeat && !running && !heartbeatTimer
      ensures old(redis.step) <= n <= redis.step && (threw <==> redis.oracle.fate(n) != Done)
      ensures !threw ==> redis.s.fleet[workerId].outbox == []
    {
      SendHeartbeat();
      Await();
      FirstBeatOut();
      n := redis.step;
      var fate := redis.Fate();
      threw := fate != Done;
      if fate != Failed && redis.s.fleet[workerId].outbox != [] {
        LandOne();
      }
    }

    /** The oldest HSET sent reaches the registry. */
    method LandOne()
      requires Coupled() && redis.s.fleet[workerId].outbox != []
      modifies redis
      ensures Coupled() && Extends() && Pc() == old(Pc())
      ensures redis.s.fleet[workerId].outbox == old(redis.s.fleet[workerId].outbox[1..])
      ensures workerId in redis.s.registry && redis.s.registry[workerId] == old(redis.s.fleet[workerId].outbox[0])
    {
      Step(LandBeat);
    }

    /**
     onModuleInit: the group, then a heartbeat, and once that has landed the timer and the loop. It
     starts exactly when neither of its calls, made at steps m and n, throws; if one does the process
     ends, and the loop has never run.
     */
    method OnModuleInit() returns (started: bool, ghost m: nat, ghost n: nat)
      requires Coupled() && Pc().Booting?
      modifies this, redis
      ensures Extends() && redis.Valid() && workerId in redis.s.fleet
      ensures old(redis.step) <= m <= n <= redis.step
      ensures started <==> redis.oracle.fate(m) == Done && redis.oracle.fate(n) == Done
      ensures started ==>
                && Coupled() && Pc() == LoopHead && running && heartbeatTimer
                && redis.s.q.group.Some? && workerId in redis.s.registry
      ensures !started ==>
                && !redis.s.fleet[workerId].alive && !running && !heartbeatTimer
                && (Pc().Booting? || Pc().GroupReady? || Pc().FirstBeat?)
    {
      var threw;
      threw, m := EnsureConsumerGroup();
      n := m;
      if !threw {
        threw, n := FirstHeartbeat();
      }
      started := !threw;
      if started {
        BeginLooping();
      } else {
        Die();
      }
    }

    method BeginLooping()
      requires Coupled() && Pc().FirstBeat? && redis.s.fleet[workerId].outbox == []
      modifies this, redis
      ensures Coupled() && Extends() && Pc() == LoopHead && running && heartbeatTimer
      ensures redis.s.q.group.Some? && workerId in redis.s.registry
    {
      heartbeatTimer, running := true, true;
      redis.Do(Work(workerId, BeginLoop));
      Up();
    }

    /** At most the one heartbeat sent so far is on its way. */
    lemma FirstBeatOut()
      requires Coupled() && Pc().FirstBeat?
      ensures |redis.s.fleet[workerId].outbox| <= 1
    {
      RunUpIsListed(redis.states, redis.acts, |redis.acts|, workerId);
    }

    lemma Up()
      requires Coupled() && IsUp(redis.s.fleet[workerId])
      ensures redis.s.q.group.Some? && workerId in redis.s.registry
    {
      RunUpIsListed(redis.states, redis.acts, |redis.acts|, workerId);
      RunFields(redis.states, redis.acts, |redis.acts|, workerId);
    }

    // ---- one message ----

    /** An XACK that went through leaves its entry acknowledged, whoever acknowledged it. */
    lemma AckedNow(before: State, id: nat)
      requires Inv(before) && id < |before.q.tracks| && before.q.tracks[id].deliveries != []
      ensures id < |before.q.Ack(id).tracks| && before.q.Ack(id).tracks[id].acked
    {
      assert before.q.group.Some? ==> PlacedOk(before.q.group.value, id, before.q.tracks[id]);
    }

    lemma TaskFacts()
      requires Coupled() && (Pc().Received? || Pc().Executing? || Pc().Executed? || Pc().Published?)
      ensures var t := Pc().task;
              && t.id < |redis.s.q.tracks| && t.id < |redis.s.q.entries| && t.turn < |redis.s.q.tracks[t.id].deliveries|
    {
      redis.Safe();
      var s := redis.s;
      assert WorkerOk(s.q, s.api.calls, s.cfg.claimIdleMs, s.now, workerId, s.fleet[workerId]);
    }

    method Begin()
      requires Coupled() && Pc().Received? && inFlight == 0
      modifies this, redis
      ensures Coupled() && Extends() && inFlight == 1 && running == old(running)
      ensures Pc() == Executing(old(Pc().task))
      ensures redis.s.fleet[workerId].faulted == old(redis.s.fleet[workerId].faulted)
    {
      TaskFacts();
      inFlight := inFlight + 1;
      redis.Do(Work(workerId, Start));
    }

    method End(outcome: Outcome)
      requires Coupled() && Pc().Executing? && inFlight == 1
      requires Pc().task.id < |redis.s.q.tracks| && Pc().task.id < |redis.s.q.entries|
      requires Decode(redis.s.q.entries[Pc().task.id]).event.None? ==> outcome.Failure? && outcome.durationMs == 0
      modifies this, redis
      ensures Coupled() && Extends() && inFlight == 0 && running == old(running)
      ensures Pc() == Executed(old(Pc().task), outcome) && redis.s.q.entries == old(redis.s.q.entries)
      ensures redis.s.fleet[workerId].faulted == old(redis.s.fleet[workerId].faulted)
    {
      inFlight := inFlight - 1;
      redis.Do(Work(workerId, Finish(outcome)));
    }

    /** JSON.parse and the container, together one outcome of any duration. */
    method Execute()
      requires Coupled() && Pc().Received? && inFlight == 0
      modifies this, redis
      ensures Coupled() && Extends() && inFlight == 0 && RunsOn()
      ensures Pc().Executed? && Pc().task == old(Pc().task)
      ensures Came(old(redis.step), Pc().task.id, Pc().outcome)
      ensures redis.s.fleet[workerId].faulted == old(redis.s.fleet[workerId].faulted)
    {
      Begin();
      Await();
      TaskFacts();
      var input := Decode(redis.s.q.entries[redis.s.fleet[workerId].pc.task.id]);
      var outcome := if input.event.None? then Failure("JSON.parse", 0) else redis.oracle.run(redis.step, input);
      ghost var n := redis.step;
      End(outcome);
      assert input.event.Some? ==> redis.oracle.run(n, input) == outcome;
    }

    /**
     What handling entry id came to since step from: what running the job decoded from it gave, or an
     error of no duration if its event does not parse.
     */
    ghost predicate Came(from: nat, id: nat, o: Outcome)
      reads this, redis
    {
      && id < |redis.s.q.entries|
      && var input := Decode(redis.s.q.entries[id]);
      && if input.event.None? then o.Failure? && o.durationMs == 0 else redis.CameTo(from, input, o)
    }

    /** Once so, always so. */
    lemma CameStays(states: seq<State>, acts: seq<Action>, from: nat, id: nat, o: Outcome, n: nat)
      requires redis.Valid() && Behaviour(states, acts) && states <= redis.states && acts <= redis.acts
      requires id < |states[|acts|].q.entries| && from <= n <= |acts|
      requires var input := Decode(states[|acts|].q.entries[id]);
               if input.event.None? then o.Failure? && o.durationMs == 0 else redis.oracle.run(n, input) == o
      ensures Came(from, id, o)
    {
      RunLater(redis.states, redis.acts, |acts|, |redis.acts|);
      assert redis.states[|acts|] == states[|acts|];
      assert redis.s.q.entries[id] == states[|acts|].q.entries[id];
    }

    /** A Redis call that went wrong: the exception leaves everything up to the catch in loop. */
    method Throw()
      requires Coupled() && CanFault(Pc())
      modifies redis
      ensures Coupled() && Extends() && Pc() == LoopHead && redis.s.fleet[workerId].faulted
      ensures redis.s.q == old(redis.s.q) && redis.acts == old(redis.acts) + [Work(workerId, Fault)]
    {
      Step(Fault);
    }

    /** PUBLISH, carried out. */
    method Send(lost: bool)
      requires Coupled() && Pc().Executed?
      modifies redis
      ensures Coupled() && Extends() && redis.acts == old(redis.acts) + [Work(workerId, WorkerAct.Publish(lost))]
      ensures Pc() == Or(lost, Published(old(Pc().task), old(Pc().outcome)))
      ensures redis.s.fleet[workerId].faulted == (old(redis.s.fleet[workerId].faulted) || lost)
    {
      TaskFacts();
      Step(WorkerAct.Publish(lost));
    }

    /** The outcome goes out on the channel of the entry's own dispatch. */
    method Reply() returns (threw: bool)
      requires Coupled() && Pc().Executed?
      modifies this, redis
      ensures Went(threw)
      ensures !threw ==> Pc() == Published(old(Pc().task), old(Pc().outcome))
    {
      Await();
      ghost var n := redis.step;
      var fate := redis.Fate();
      if fate == Failed {
        Throw();
      } else {
        Send(fate == Lost);
      }
      threw := fate != Done;
      if threw {
        Blame(old(redis.step), n);
      }
    }

    method Acknowledge() returns (threw: bool)
      requires Coupled() && Pc().Published?
      modifies this, redis
      ensures Went(threw)
      ensures !threw ==>
                && Pc() == Back(old(Pc().task.back))
                && var id := old(Pc().task.id); id < |redis.s.q.tracks| && redis.s.q.tracks[id].acked
    {
      Await();
      ghost var n := redis.step;
      var fate := redis.Fate();
      if fate == Failed {
        Throw();
      } else {
        XAck(fate == Lost);
      }
      threw := fate != Done;
      if threw {
        Blame(old(redis.step), n);
      }
    }

    method XAck(lost: bool)
      requires Coupled() && Pc().Published?
      modifies redis
      ensures Coupled() && Extends() && redis.acts == old(redis.acts) + [Work(workerId, Ack(lost))]
      ensures Pc() == Or(lost, Back(old(Pc().task.back)))
      ensures redis.s.fleet[workerId].faulted == (old(redis.s.fleet[workerId].faulted) || lost)
      ensures var id := old(Pc().task.id); id < |redis.s.q.tracks| && redis.s.q.tracks[id].acked
    {
      TaskFacts();
      redis.Safe();
      AckedNow(redis.s, redis.s.fleet[workerId].pc.task.id);
      Step(Ack(lost));
    }

    /** The job is run and its outcome published. */
    method Answer() returns (threw: bool, ghost o: Outcome)
      requires Coupled() && Pc().Received? && inFlight == 0
      modifies this, redis
      ensures Went(threw)
      ensures !threw ==> Pc() == Published(old(Pc().task), o) && Came(old(redis.step), old(Pc().task.id), o)
    {
      ghost var from, id := redis.step, Pc().task.id;
      Execute();
      o := Pc().outcome;
      ghost var states, acts := redis.states, redis.acts;
      ghost var input := Decode(redis.s.q.entries[id]);
      ghost var n: nat := from;
      if input.event.Some? {
        n :| from <= n <= redis.step && redis.oracle.run(n, input) == o;
      }
      threw := Reply();
      CameStays(states, acts, from, id, o, n);
    }

    /**
     handleMessage: run the job, publish its outcome, acknowledge the entry, in that order. Unless a
     Redis call throws, the entry is acknowledged and its own dispatch's channel has carried the
     outcome that running its job came to in this very delivery.
     */
    method HandleMessage() returns (threw: bool)
      requires Coupled() && Pc().Received? && inFlight == 0
      modifies this, redis
      ensures Went(threw)
      ensures !threw ==>
                && Pc() == Back(old(Pc().task.back))
                && var t := old(Pc().task);
                   && t.id < |redis.s.q.tracks| && redis.s.q.tracks[t.id].acked
                   && exists o :: WasPublished(redis.s.q, redis.s.api.calls, t.id, t.turn, o) && Came(old(redis.step), t.id, o)
    {
      ghost var from := redis.step;
      ghost var o;
      threw, o := Answer();
      if !threw {
        threw := AcknowledgeAnswered(from, o);
      }
    }

    /** An answer given stays given while its entry is acknowledged. */
    method AcknowledgeAnswered(ghost from: nat, ghost o: Outcome) returns (threw: bool)
      requires Coupled() && Pc().Published? && Pc().outcome == o && from <= redis.step && Came(from, Pc().task.id, o)
      modifies this, redis
      ensures Went(threw)
      ensures !threw ==>
                && Pc() == Back(old(Pc().task.back))
                && var t := old(Pc().task);
                   && t.id < |redis.s.q.tracks| && redis.s.q.tracks[t.id].acked
                   && WasPublished(redis.s.q, redis.s.api.calls, t.id, t.turn, o) && Came(from, t.id, o)
    {
      ghost var t, states, acts := Pc().task, redis.states, redis.acts;
      ghost var input := Decode(redis.s.q.entries[t.id]);
      ghost var n: nat := from;
      if input.event.Some? {
        n :| from <= n <= redis.step && redis.oracle.run(n, input) == o;
      }
      Answered(t, o);
      threw := Acknowledge();
      StillAnswered(states, acts, t, o);
      CameStays(states, acts, from, t.id, o, n);
    }

    lemma Answered(t: Task, o: Outcome)
      requires Coupled() && Pc() == Published(t, o)
      ensures WasPublished(redis.s.q, redis.s.api.calls, t.id, t.turn, o)
    {
      redis.Safe();
      var s := redis.s;
      assert WorkerOk(s.q, s.api.calls, s.cfg.claimIdleMs, s.now, workerId, s.fleet[workerId]);
    }

    lemma StillAnswered(states: seq<State>, acts: seq<Action>, t: Task, o: Outcome)
      requires redis.Valid() && Behaviour(states, acts) && states <= redis.states && acts <= redis.acts
      requires WasPublished(states[|acts|].q, states[|acts|].api.calls, t.id, t.turn, o)
      ensures WasPublished(redis.s.q, redis.s.api.calls, t.id, t.turn, o)
    {
      var before := states[|acts|];
      assert redis.states[|acts|] == before;
      RunAfter(redis.states, redis.acts, |acts|, |redis.acts|);
      PublishedLater(before.q, before.api.calls, before.now, t.id, t.turn, o, redis.s.q, redis.s.api.calls);
    }

    // ---- the sweep ----

    lemma GroupThere()
      requires Coupled() && !Pc().Booting?
      ensures redis.s.q.group.Some?
    {
      RunFields(redis.states, redis.acts, |redis.acts|, workerId);
    }

    lemma SweepFacts()
      requires Coupled() && Pc().Sweeping?
      ensures redis.s.q.group.Some?
      ensures SweepOk(redis.s.q, redis.s.cfg.claimIdleMs, redis.s.now, workerId, Pc().sweep, Pc().next)
    {
      redis.Safe();
      var s := redis.s;
      assert WorkerOk(s.q, s.api.calls, s.cfg.claimIdleMs, s.now, workerId, s.fleet[workerId]);
    }

    /** XPENDING IDLE claimIdleMs - + 10; at tells when Redis answered. */
    method ListStale() returns (threw: bool, rows: seq<Stale>, ghost at: nat)
      requires Coupled() && Pc().Listing?
      modifies this, redis
      ensures Went(threw)
      ensures !threw ==>
                && Pc() == (if rows == [] then Reading else SawPending(rows, at))
                && exists p: nat :: |old(redis.acts)| <= p && ListedAt(redis.states, redis.acts, p, workerId, rows, at)
    {
      Await();
      GroupThere();
      ghost var n := redis.step;
      var fate := redis.Fate();
      threw := fate != Done;
      rows, at := [], redis.s.now;
      if threw {
        Throw();
        Blame(old(redis.step), n);
      } else {
        rows := List();
      }
    }

    /** XPENDING, answered. */
    method List() returns (rows: seq<Stale>)
      requires Coupled() && Pc().Listing? && redis.s.q.group.Some?
      modifies redis
      ensures Coupled() && Extends() && redis.acts == old(redis.acts) + [Work(workerId, ReadPending)]
      ensures redis.s.fleet[workerId].faulted == old(redis.s.fleet[workerId].faulted)
      ensures Pc() == if rows == [] then Reading else SawPending(rows, old(redis.s.now))
      ensures ListedAt(redis.states, redis.acts, |old(redis.acts)|, workerId, rows, old(redis.s.now))
    {
      var q := redis.s.q;
      rows := q.PendingIdle(redis.s.cfg.claimIdleMs, redis.s.now, q.group.value.start, SWEEP_LIMIT);
      Step(ReadPending);
    }

    /** HGETALL workers:registry: the texts of the registry as it is at that moment. */
    method CopyRegistry(rows: seq<Stale>, ghost at: nat)
      returns (threw: bool, raw: map<WorkerId, string>, ghost hash: Hash)
      requires Coupled() && Pc() == SawPending(rows, at)
      modifies this, redis
      ensures Went(threw) && Readable(raw) && AsHash(raw) == hash
      ensures !threw ==>
                && Pc() == SawRegistry(rows, at, hash)
                && exists k: nat :: |old(redis.acts)| <= k && CopiedAt(redis.states, redis.acts, k, workerId, hash)
    {
      Await();
      ghost var n := redis.step;
      var fate := redis.Fate();
      threw := fate != Done;
      hash := redis.s.registry;
      raw := Stored(redis.s.registry);
      StoredReadsBack(hash);
      if threw {
        Throw();
        Blame(old(redis.step), n);
      } else {
        ghost var k := |redis.acts|;
        Step(ReadRegistry);
        assert CopiedAt(redis.states, redis.acts, k, workerId, hash);
      }
    }

    /** listWorkers' answer, once it has been waited for and Date.now() taken, and the ids of the healthy in it. */
    method HealthyWorkers(rows: seq<Stale>, ghost at: nat, raw: map<WorkerId, string>, ghost hash: Hash)
      returns (healthy: set<WorkerId>)
      requires Coupled() && Pc() == SawRegistry(rows, at, hash) && Readable(raw) && AsHash(raw) == hash
      modifies this, redis
      ensures Went(false)
      ensures Pc() == Sweeping(Sweep(rows, at, hash, redis.s.now), 0)
      ensures forall w :: w in healthy <==> Healthy(hash, w, redis.s.now)
    {
      Await();
      var workers := StatusesIn(raw, redis.s.now);
      HealthyIds(workers, hash, redis.s.now);
      healthy := set st | st in workers && st.healthy :: st.workerId;
      Step(Judge);
    }

    /** XCLAIM, carried out. */
    method ClaimRow(lost: bool, ghost sweep: Sweep, ghost next: nat) returns (claimed: bool)
      requires Coupled() && Pc() == Sweeping(sweep, next) && next < |sweep.rows|
      requires Attempts(workerId, sweep, sweep.rows[next])
      modifies redis
      ensures Coupled() && Extends() && redis.acts == old(redis.acts) + [Work(workerId, Claim(lost))]
      ensures redis.s.fleet[workerId].faulted == (old(redis.s.fleet[workerId].faulted) || lost)
      ensures lost ==> Pc() == LoopHead
      ensures !lost && claimed ==>
                && Pc().Received? && Pc().task.id == sweep.rows[next].id && Pc().task.back == ToSweep(sweep, next + 1)
      ensures !lost && !claimed ==> Pc() == Sweeping(sweep, next + 1)
      ensures !lost ==> (claimed <==> Claimable(old(redis.s), sweep.rows[next].id))
    {
      SweepFacts();
      Step(Claim(lost));
      claimed := redis.s.fleet[workerId].pc.Received?;
    }

    /** XCLAIM the next row's entry with min-idle claimIdleMs; claimed tells whether it was granted. */
    method XClaim(ghost sweep: Sweep, ghost next: nat) returns (threw: bool, claimed: bool)
      requires Coupled() && Pc() == Sweeping(sweep, next) && next < |sweep.rows|
      requires Attempts(workerId, sweep, sweep.rows[next])
      modifies this, redis
      ensures Went(threw)
      ensures !threw && claimed ==>
                && Pc().Received? && Pc().task.id == sweep.rows[next].id && Pc().task.back == ToSweep(sweep, next + 1)
      ensures !threw && !claimed ==> Pc() == Sweeping(sweep, next + 1)
    {
      Await();
      ghost var n := redis.step;
      var fate := redis.Fate();
      threw, claimed := fate != Done, false;
      if fate == Failed {
        Throw();
      } else {
        claimed := ClaimRow(fate == Lost, sweep, next);
      }
      if threw {
        Blame(old(redis.step), n);
      }
    }

    method TryReclaim(ghost sweep: Sweep, ghost next: nat) returns (threw: bool)
      requires Coupled() && inFlight == 0 && Pc() == Sweeping(sweep, next) && next < |sweep.rows|
      requires Attempts(workerId, sweep, sweep.rows[next])
      modifies this, redis
      ensures Went(threw)
      ensures !threw ==> Pc() == Sweeping(sweep, next + 1)
    {
      var claimed;
      threw, claimed := XClaim(sweep, next);
      if !threw && claimed {
        threw := HandleMessage();
      }
    }

    /** A row of this worker's own, or of a healthy one, is passed over. */
    method PassOver(ghost sweep: Sweep, ghost next: nat)
      requires Coupled() && Pc() == Sweeping(sweep, next) && next < |sweep.rows|
      requires !Attempts(workerId, sweep, sweep.rows[next])
      modifies this, redis
      ensures Went(false) && running == old(running) && Pc() == Sweeping(sweep, next + 1)
    {
      Step(Skip);
    }

    /** The loop over the rows. */
    method SweepRows(rows: seq<Stale>, healthy: set<WorkerId>, ghost sweep: Sweep) returns (threw: bool)
      requires Coupled() && inFlight == 0 && Pc() == Sweeping(sweep, 0) && rows == sweep.rows
      requires forall w :: w in healthy <==> Healthy(sweep.hash, w, sweep.judgedAt)
      modifies this, redis
      ensures Went(threw)
      ensures !threw ==> Pc() == Sweeping(sweep, |rows|)
      ensures !threw ==>
                forall r | r in rows :: r.owner == workerId || r.owner in healthy || Dealt(redis.s.q, r)
    {
      threw := false;
      var i := 0;
      while i < |rows|
        invariant 0 <= i <= |rows| && Went(false) && Pc() == Sweeping(sweep, i)
      {
        if rows[i].owner == workerId || rows[i].owner in healthy {
          PassOver(sweep, i);
        } else {
          threw := TryReclaim(sweep, i);
          if threw {
            return;
          }
        }
        i := i + 1;
      }
      SweepFacts();
    }

    /** After the last row. */
    method Conclude(ghost sweep: Sweep)
      requires Coupled() && Pc() == Sweeping(sweep, |sweep.rows|)
      modifies redis
      ensures Went(false) && running == old(running) && Pc() == Reading && redis.s.q == old(redis.s.q)
    {
      Step(EndSweep);
    }

    method SweepToEnd(rows: seq<Stale>, healthy: set<WorkerId>, ghost sweep: Sweep) returns (threw: bool)
      requires Coupled() && inFlight == 0 && Pc() == Sweeping(sweep, 0) && rows == sweep.rows
      requires forall w :: w in healthy <==> Healthy(sweep.hash, w, sweep.judgedAt)
      modifies this, redis
      ensures Went(threw)
      ensures !threw ==>
                && Pc() == Reading
                && forall r | r in rows :: r.owner == workerId || r.owner in healthy || Dealt(redis.s.q, r)
    {
      threw := SweepRows(rows, healthy, sweep);
      if !threw {
        Conclude(sweep);
      }
    }

    /** What XPENDING listed is so in every longer run. */
    lemma ListedStays(states: seq<State>, acts: seq<Action>, p: nat, rows: seq<Stale>, at: nat)
      requires redis.Valid() && Behaviour(states, acts) && states <= redis.states && acts <= redis.acts
      requires ListedAt(states, acts, p, workerId, rows, at)
      ensures ListedAt(redis.states, redis.acts, p, workerId, rows, at)
    {
    }

    /** And what HGETALL gave. */
    lemma CopiedStays(states: seq<State>, acts: seq<Action>, k: nat, hash: Hash)
      requires redis.Valid() && Behaviour(states, acts) && states <= redis.states && acts <= redis.acts
      requires CopiedAt(states, acts, k, workerId, hash)
      ensures CopiedAt(redis.states, redis.acts, k, workerId, hash)
    {
    }

    /**
     This worker's HGETALL at a step not before since gave sweep's copy of the registry, and healthy
     are the workers healthy by it at the time the sweep took after that step.
     */
    ghost predicate Judged(since: nat, sweep: Sweep, healthy: set<WorkerId>)
      reads this, redis
    {
      && redis.Valid()
      && (exists k: nat :: since <= k && CopiedAt(redis.states, redis.acts, k, workerId, sweep.hash)
            && redis.states[k].now <= sweep.judgedAt <= redis.s.now)
      && forall w :: w in healthy <==> Healthy(sweep.hash, w, sweep.judgedAt)
    }

    /** The registry is copied and judged. */
    method JudgeOwners(rows: seq<Stale>, ghost at: nat)
      returns (threw: bool, healthy: set<WorkerId>, ghost sweep: Sweep)
      requires Coupled() && inFlight == 0 && Pc() == SawPending(rows, at)
      modifies this, redis
      ensures Went(threw)
      ensures !threw ==>
                && Pc() == Sweeping(sweep, 0) && sweep.rows == rows && sweep.at == at
                && Judged(|old(redis.acts)|, sweep, healthy)
    {
      healthy := {};
      var raw;
      ghost var hash;
      threw, raw, hash := CopyRegistry(rows, at);
      sweep := Sweep(rows, at, hash, redis.s.now);
      if !threw {
        ghost var states, acts := redis.states, redis.acts;
        ghost var k: nat :| |old(redis.acts)| <= k && CopiedAt(states, acts, k, workerId, hash);
        healthy := HealthyWorkers(rows, at, raw, hash);
        sweep := Pc().sweep;
        JudgedNow(states, acts, |old(redis.acts)|, k, sweep, healthy);
      }
    }

    lemma JudgedNow(states: seq<State>, acts: seq<Action>, since: nat, k: nat, sweep: Sweep, healthy: set<WorkerId>)
      requires redis.Valid() && Behaviour(states, acts) && states <= redis.states && acts <= redis.acts
      requires since <= k && CopiedAt(states, acts, k, workerId, sweep.hash)
      requires sweep.judgedAt == redis.s.now && forall w :: w in healthy <==> Healthy(sweep.hash, w, sweep.judgedAt)
      ensures Judged(since, sweep, healthy)
    {
      CopiedStays(states, acts, k, sweep.hash);
      RunLater(redis.states, redis.acts, k, |redis.acts|);
    }

    /** Judged is for good. */
    lemma StaysJudged(states: seq<State>, acts: seq<Action>, since: nat, k: nat, sweep: Sweep, healthy: set<WorkerId>)
      requires redis.Valid() && Behaviour(states, acts) && states <= redis.states && acts <= redis.acts
      requires since <= k && CopiedAt(states, acts, k, workerId, sweep.hash)
      requires states[k].now <= sweep.judgedAt <= states[|acts|].now
      requires forall w :: w in healthy <==> Healthy(sweep.hash, w, sweep.judgedAt)
      ensures Judged(since, sweep, healthy)
    {
      CopiedStays(states, acts, k, sweep.hash);
      RunLater(redis.states, redis.acts, |acts|, |redis.acts|);
    }

    /** What is done about the rows listed: a copy of the registry, then row by row. */
    method Reclaim(rows: seq<Stale>, ghost at: nat) returns (threw: bool, healthy: set<WorkerId>, ghost sweep: Sweep)
      requires Coupled() && inFlight == 0 && Pc() == SawPending(rows, at)
      modifies this, redis
      ensures Went(threw)
      ensures !threw ==>
                && Pc() == Reading && sweep.rows == rows && sweep.at == at
                && Judged(|old(redis.acts)|, sweep, healthy)
                && (forall r | r in rows :: r.owner == workerId || r.owner in healthy || Dealt(redis.s.q, r))
    {
      threw, healthy, sweep := JudgeOwners(rows, at);
      if !threw {
        ghost var states, acts, since := redis.states, redis.acts, |old(redis.acts)|;
        ghost var k: nat :| since <= k && CopiedAt(states, acts, k, workerId, sweep.hash)
                            && states[k].now <= sweep.judgedAt <= redis.s.now;
        threw := SweepToEnd(rows, healthy, sweep);
        if !threw {
          StaysJudged(states, acts, since, k, sweep, healthy);
        }
      }
    }

    /**
     reclaimFromDeadWorkers: rows are what XPENDING listed during this call and healthy the workers
     healthy by the copy of the registry read after it; unless a Redis call throws, every row whose
     owner is neither this worker nor healthy has been acknowledged or delivered again when it ends.
     */
    method ReclaimFromDeadWorkers()
      returns (threw: bool, rows: seq<Stale>, healthy: set<WorkerId>, ghost sweep: Sweep)
      requires Coupled() && inFlight == 0 && Pc().Listing?
      modifies this, redis
      ensures Went(threw)
      ensures !threw ==>
                && Pc() == Reading && rows == sweep.rows
                && (exists p: nat :: |old(redis.acts)| <= p && ListedAt(redis.states, redis.acts, p, workerId, rows, sweep.at))
                && (if rows == [] then healthy == {} else Judged(|old(redis.acts)|, sweep, healthy))
                && (forall r | r in rows :: r.owner == workerId || r.owner in healthy || Dealt(redis.s.q, r))
    {
      ghost var at;
      healthy := {};
      threw, rows, at := ListStale();
      sweep := Sweep(rows, at, map[], at);
      if threw || rows == [] {
        return;
      }
      ghost var states, acts := redis.states, redis.acts;
      ghost var p: nat :| |old(redis.acts)| <= p && ListedAt(states, acts, p, workerId, rows, at);
      threw, healthy, sweep := Reclaim(rows, at);
      ListedStays(states, acts, p, rows, at);
    }

    // ---- the loop ----

    /** XREADGROUP, carried out, with an entry to read. */
    method ReadEntry(lost: bool)
      requires Coupled() && Pc().Reading? && redis.s.q.CanRead()
      modifies redis
      ensures Coupled() && Extends() && redis.acts == old(redis.acts) + [Work(workerId, ReadNew(lost))]
      ensures redis.s.fleet[workerId].faulted == (old(redis.s.fleet[workerId].faulted) || lost)
      ensures Pc() == Or(lost, Received(Task(old(redis.s.q.group.value.cursor), 0, ToHead)))
    {
      FirstTurn();
      Step(ReadNew(lost));
    }

    /** XREADGROUP COUNT 1 BLOCK at step r: some entry never delivered before, or nothing after a while. */
    method ReadNext() returns (threw: bool, got: bool, ghost r: nat)
      requires Coupled() && Pc().Reading?
      modifies this, redis
      ensures Went(threw)
      ensures !threw && got ==> Pc().Received? && Pc().task.back == ToHead && Pc().task.turn == 0
      ensures !threw && !got ==> Pc() == LoopHead
      ensures !threw ==> old(redis.step) <= r && ReadAt(r) && (got <==> redis.acts[r].act.ReadNew?)
      ensures !threw && got ==> Pc().task.id == redis.states[r].q.group.value.cursor
    {
      Await();
      r := redis.step;
      var fate := redis.Fate();
      threw, got := fate != Done, redis.s.q.CanRead();
      if fate == Failed || (threw && !got) {
        Throw();
      } else if got {
        ReadEntry(fate == Lost);
      } else {
        ReadNone();
      }
      if threw {
        Blame(old(redis.step), r);
      }
    }

    /** XREADGROUP with nothing to read in all the time it blocks. */
    method ReadNone()
      requires Coupled() && Pc().Reading? && !redis.s.q.CanRead()
      modifies redis
      ensures Coupled() && Extends() && Pc() == LoopHead && redis.acts == old(redis.acts) + [Work(workerId, ReadNothing)]
      ensures redis.s.fleet[workerId].faulted == old(redis.s.fleet[workerId].faulted)
    {
      Step(ReadNothing);
    }

    /** At step r this worker's read was answered, with an entry or, there being none to read, with nothing. */
    ghost predicate ReadAt(r: nat)
      reads this, redis
    {
      && r < |redis.acts| && r < |redis.states|
      && (redis.acts[r] == Work(workerId, ReadNew(false)) || redis.acts[r] == Work(workerId, ReadNothing))
      && (redis.acts[r].act.ReadNew? ==> redis.states[r].q.group.Some?)
      && (redis.acts[r].act.ReadNothing? ==> !redis.states[r].q.CanRead())
    }

    /** And an entry it was answered with is acknowledged. */
    ghost predicate ReadAndDone(r: nat)
      reads this, redis
    {
      && ReadAt(r)
      && (redis.acts[r].act.ReadNew? ==>
            var id := redis.states[r].q.group.value.cursor; id < |redis.s.q.tracks| && redis.s.q.tracks[id].acked)
    }

    /** A listing at step p and a read at step r later, both since step from, and what was read is done with. */
    ghost predicate Iterated(from: nat)
      reads this, redis
    {
      exists p: nat, r: nat ::
        from <= p < r && p < |redis.acts| && redis.acts[p] == Work(workerId, ReadPending) && ReadAndDone(r)
    }

    lemma FirstTurn()
      requires Coupled() && redis.s.q.CanRead()
      ensures TurnOf(redis.s.q, redis.s.q.group.value.cursor) == 0
    {
      RunQueueOk(redis.states, redis.acts, |redis.acts|);
      var q := redis.s.q;
      assert PlacedOk(q.group.value, q.group.value.cursor, q.tracks[q.group.value.cursor]);
    }

    /** readAndProcessOnce: unless a Redis call throws, it reads once, and what it reads it sees through to the ack. */
    method ReadAndProcessOnce() returns (threw: bool, ghost r: nat)
      requires Coupled() && inFlight == 0 && Pc().Reading?
      modifies this, redis
      ensures Went(threw) && Pc() == LoopHead
      ensures !threw ==> old(redis.step) <= r && ReadAndDone(r)
    {
      var got;
      threw, got, r := ReadNext();
      if !threw && got {
        ghost var states, acts := redis.states, redis.acts;
        threw := HandleMessage();
        ReadStays(states, acts, r);
      }
    }

    lemma ReadStays(states: seq<State>, acts: seq<Action>, r: nat)
      requires states <= redis.states && acts <= redis.acts && r < |acts| && r < |states|
      ensures redis.acts[r] == acts[r] && redis.states[r] == states[r]
    {
    }

    /**
     One iteration, whose catch swallows whatever was thrown. Unless one of this worker's Redis calls
     failed in it, it listed what is idle, read once, and saw through what it read.
     */
    method Iterate()
      requires Coupled() && inFlight == 0 && running && Pc().LoopHead?
      modifies this, redis
      ensures Coupled() && Extends() && inFlight == 0 && Pc() == LoopHead && RunsOn()
      ensures Failing(old(redis.step)) || Iterated(old(redis.step))
    {
      var threw := Sweeps();
      if !threw {
        threw := ListedThenReads(old(redis.step));
      }
    }

    /** Into the try, and what comes first in it. */
    method Sweeps() returns (threw: bool)
      requires Coupled() && inFlight == 0 && running && Pc().LoopHead?
      modifies this, redis
      ensures Went(threw)
      ensures !threw ==>
                && Pc() == Reading
                && exists p: nat :: old(redis.step) <= p < |redis.acts| && redis.acts[p] == Work(workerId, ReadPending)
    {
      GoIn();
      var rows, healthy;
      ghost var sweep;
      threw, rows, healthy, sweep := ReclaimFromDeadWorkers();
    }

    method GoIn()
      requires Coupled() && running && Pc().LoopHead?
      modifies redis
      ensures Went(false) && running == old(running) && Pc() == Listing
    {
      Step(Enter);
    }

    /** The read of an iteration that has listed. */
    method ListedThenReads(ghost from: nat) returns (threw: bool)
      requires Coupled() && inFlight == 0 && Pc().Reading?
      requires exists p: nat :: from <= p < |redis.acts| && redis.acts[p] == Work(workerId, ReadPending)
      modifies this, redis
      ensures Went(threw) && Pc() == LoopHead
      ensures !threw ==> Iterated(from)
    {
      ghost var p: nat :| from <= p < |redis.acts| && redis.acts[p] == Work(workerId, ReadPending);
      ghost var r;
      threw, r := ReadAndProcessOnce();
    }

    /** How many reads of this worker there are in a run. */
    ghost function Reads(acts: seq<Action>): nat {
      if acts == [] then 0
      else
        var a := acts[|acts| - 1];
        Reads(acts[..|acts| - 1]) + if a.Work? && a.w == workerId && (a.act.ReadNew? || a.act.ReadNothing?) then 1 else 0
    }

    lemma {:induction false} ReadsGrow(before: seq<Action>, acts: seq<Action>, r: nat)
      requires before <= acts && r < |acts|
      ensures Reads(before) <= Reads(acts)
      ensures |before| <= r && (acts[r] == Work(workerId, ReadNew(false)) || acts[r] == Work(workerId, ReadNothing)) ==>
                Reads(before) < Reads(acts)
      decreases |acts|
    {
      if |before| < |acts| {
        var rest := acts[..|acts| - 1];
        assert before <= rest;
        if r < |rest| {
          ReadsGrow(before, rest, r);
        } else if |rest| > |before| {
          ReadsGrow(before, rest, |before|);
        } else {
          assert rest == before;
        }
      } else {
        assert before == acts;
      }
    }

    /**
     loop, for at most this many iterations: it ends at its head, with nothing in flight. It goes on
     until it is asked to stop, whatever an iteration throws; unless one of its Redis calls fails each
     iteration reads once, and the first lists, reads and sees through what it read.
     */
    method Loop(iterations: nat)
      requires Coupled() && inFlight == 0 && Pc().LoopHead?
      modifies this, redis
      ensures Coupled() && Extends() && inFlight == 0 && Pc() == LoopHead && RunsOn()
      ensures NoFaults(redis.acts, |redis.acts|, workerId) ==> Owned(redis.s.q, workerId) == {}
      ensures running ==> Failing(old(redis.step)) || Reads(redis.acts) >= Reads(old(redis.acts)) + iterations
      ensures old(running) && iterations > 0 ==> Failing(old(redis.step)) || Iterated(old(redis.step))
    {
      var left := iterations;
      while running && left > 0
        invariant Coupled() && Extends() && inFlight == 0 && Pc().LoopHead? && RunsOn() && left <= iterations
        invariant Failing(old(redis.step)) || Reads(redis.acts) >= Reads(old(redis.acts)) + iterations - left
        invariant left < iterations ==> Failing(old(redis.step)) || Iterated(old(redis.step))
        invariant left == iterations ==> running == old(running)
        decreases left
      {
        Round(old(redis.step));
        left := left - 1;
      }
      OwnsNothing();
    }

    /** An iteration of the loop begun at step from. */
    method Round(ghost from: nat)
      requires Coupled() && inFlight == 0 && running && Pc().LoopHead? && from <= redis.step
      modifies this, redis
      ensures Coupled() && Extends() && inFlight == 0 && Pc() == LoopHead && RunsOn()
      ensures old(Failing(from)) ==> Failing(from)
      ensures Failing(from) || (Iterated(from) && Reads(redis.acts) > Reads(old(redis.acts)))
    {
      ghost var start := redis.step;
      Iterate();
      if Iterated(start) {
        ghost var p: nat, r: nat :|
          start <= p < r && p < |redis.acts| && redis.acts[p] == Work(workerId, ReadPending) && ReadAndDone(r);
        ReadsGrow(old(redis.acts), redis.acts, r);
      }
    }

    lemma OwnsNothing()
      requires Coupled() && Pc().LoopHead?
      ensures NoFaults(redis.acts, |redis.acts|, workerId) ==> Owned(redis.s.q, workerId) == {}
    {
      if NoFaults(redis.acts, |redis.acts|, workerId) {
        CleanLoopHead(redis.states, redis.acts, |redis.acts|, workerId);
      }
    }

    /**
     onModuleDestroy after its loop has ended: it deregisters, owning nothing unless a Redis call had
     failed. An HDEL that throws may leave the last heartbeat to go stale, but owns nothing either.
     */
    method OnModuleDestroy() returns (threw: bool)
      requires Coupled() && inFlight == 0 && Pc().LoopHead?
      modifies this, redis
      ensures Extends() && redis.Valid() && workerId in redis.s.fleet
      ensures if threw then !redis.s.fleet[workerId].alive else Pc() == Gone && workerId !in redis.s.registry
      ensures threw ==> redis.Disturbed(old(redis.step))
      ensures NoFaults(redis.acts, |redis.acts|, workerId) ==> Owned(redis.s.q, workerId) == {}
    {
      if running {
        BeginShutdown();
      }
      Drain();
      ghost var n := redis.step;
      threw := HDel();
      if threw {
        Die();
        assert redis.oracle.fate(n) != Done;
      }
      IdleOwnsNothing();
    }

    method HDel() returns (threw: bool)
      requires Coupled() && Pc().LoopLeft? && redis.s.fleet[workerId].outbox == []
      modifies redis
      ensures Coupled() && Extends()
      ensures Pc() == if redis.oracle.fate(old(redis.step)) == Failed then LoopLeft else Gone
      ensures redis.s.registry == if Pc().Gone? then old(redis.s.registry) - {workerId} else old(redis.s.registry)
      ensures threw <==> redis.oracle.fate(old(redis.step)) != Done
    {
      var fate := redis.Fate();
      threw := fate != Done;
      if fate != Failed {
        Step(Deregister);
      }
    }

    /** The loop's promise is awaited; HSETs already sent arrive before the HDEL, on the same connection. */
    method Drain()
      requires Coupled() && inFlight == 0 && Pc().LoopHead? && !running
      modifies this, redis
      ensures Coupled() && Extends() && Pc() == LoopLeft && redis.s.fleet[workerId].outbox == []
    {
      Step(LeaveLoop);
      Await();
      while redis.s.fleet[workerId].outbox != []
        invariant Coupled() && Extends() && Pc() == LoopLeft
        decreases |redis.s.fleet[workerId].outbox|
      {
        LandOne();
      }
    }

    lemma IdleOwnsNothing()
      requires redis.Valid() && workerId in redis.s.fleet && (Pc().Gone? || Pc().LoopLeft?)
      ensures NoFaults(redis.acts, |redis.acts|, workerId) ==> Owned(redis.s.q, workerId) == {}
    {
      if NoFaults(redis.acts, |redis.acts|, workerId) {
        forall id | id in Owned(redis.s.q, workerId)
          ensures false
        {
          OwnsOnlyItsTask(redis.states, redis.acts, |redis.acts|, workerId, id);
        }
      }
    }
  }
}
