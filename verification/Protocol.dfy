/**
 The whole invocation protocol as one state machine: any number of API requests, any number
 of workers, Redis, and one clock. An action is one atomic step of one process; runs
 interleave the actions in every possible way.
 */
module Protocol {
  import opened Platform
  import opened Wire
  import opened InvocationStream
  import opened Registry
  import opened Calls

  const CAPACITY: nat := 1
  const SWEEP_LIMIT: nat := 10

  /** A sweep past its registry read: XPENDING's rows and time, HGETALL's copy, and Date.now() after it. */
  datatype Sweep = Sweep(rows: seq<Stale>, at: nat, hash: Hash, judgedAt: nat)

  /** Where handleMessage returns to. */
  datatype Return = ToHead | ToSweep(sweep: Sweep, next: nat)

  /** The message being handled; turn is which of its deliveries this is, counted from 0. */
  datatype Task = Task(id: nat, turn: nat, back: Return)

  /** Where a worker is in its code. */
  datatype Pc =
    | Booting                                          // before ensureConsumerGroup
    | GroupReady                                       // before the first heartbeat
    | FirstBeat                                        // first HSET sent
    | LoopHead                                         // about to test running
    | Listing                                          // XPENDING sent
    | SawPending(rows: seq<Stale>, at: nat)            // XPENDING answered with rows
    | SawRegistry(rows: seq<Stale>, at: nat, hash: Hash) // HGETALL answered, health not yet computed
    | Sweeping(sweep: Sweep, next: nat)                // at the loop over rows
    | Reading                                          // about to XREADGROUP
    | Received(task: Task)                             // handleMessage entered
    | Executing(task: Task)                            // between inFlight++ and inFlight--
    | Executed(task: Task, outcome: Outcome)           // about to PUBLISH
    | Published(task: Task, outcome: Outcome)          // about to XACK
    | LoopLeft                                         // loop over, about to deregister
    | Gone

  datatype Worker = Worker(
    pc: Pc,
    alive: bool,
    running: bool,
    ticking: bool,          // the heartbeat interval is set
    inFlight: nat,
    outbox: seq<Beat>,      // HSETs sent, not yet applied
    faulted: bool)          // history: some Redis call of this worker failed

  datatype WorkerAct =
    | Boot | EnsureGroup | BeginLoop
    | SampleBeat | LandBeat | LoseBeat
    | Enter | ReadPending | ReadRegistry | Judge | Skip | Claim(lost: bool) | EndSweep
    | ReadNew(lost: bool) | ReadNothing
    | Start | Finish(outcome: Outcome) | Publish(lost: bool) | Ack(lost: bool)
    | Fault
    | Stop | LeaveLoop | Deregister
    | Crash

  datatype Action =
    | Tick(ms: nat)
    | Work(w: WorkerId, act: WorkerAct)
    | Serve(c: Corr, request: CallAct)

  datatype State = State(
    cfg: Config,
    base: nat,              // entries that were in the log before any of this
    now: nat,
    q: Queue,
    registry: Hash,
    fleet: map<WorkerId, Worker>,
    api: Api)

  /** A log left by something else, and nothing running yet. */
  predicate Init(s: State) {
    && s.base == |s.q.entries| == |s.q.tracks|
    && s.q.group.None?
    && (forall t | t in s.q.tracks :: t == Track(None, 0, [], [], {}, false))
    && s.registry == map[] && s.fleet == map[]
    && s.api == Api(map[], {}, {}, [])
  }

  // ---- one worker ----

  predicate Attempts(w: WorkerId, sweep: Sweep, row: Stale) {
    row.owner != w && !Healthy(sweep.hash, row.owner, sweep.judgedAt)
  }

  predicate AtRow(pc: Pc) {
    pc.Sweeping? && pc.next < |pc.sweep.rows|
  }

  /** The points where a Redis call can fail: the exception ends the iteration in loop's catch. */
  predicate CanFault(pc: Pc) {
    pc.Listing? || pc.SawPending? || AtRow(pc) || pc.Reading? || pc.Executed? || pc.Published?
  }

  predicate WorkerEnabled(s: State, w: WorkerId, act: WorkerAct) {
    if act.Boot? then w !in s.fleet
    else
      w in s.fleet &&
      var wk := s.fleet[w];
      if act.LandBeat? then wk.outbox != []
      else if act.LoseBeat? then wk.outbox != [] && (wk.alive ==> !wk.pc.FirstBeat?)
      else
        wk.alive &&
        match act
        case EnsureGroup => wk.pc.Booting?
        case SampleBeat => wk.pc.GroupReady? || wk.ticking
        case BeginLoop => wk.pc.FirstBeat? && wk.outbox == []
        case Enter => wk.pc.LoopHead? && wk.running
        case ReadPending => wk.pc.Listing? && s.q.group.Some?
        case ReadRegistry => wk.pc.SawPending?
        case Judge => wk.pc.SawRegistry?
        case Skip => AtRow(wk.pc) && !Attempts(w, wk.pc.sweep, wk.pc.sweep.rows[wk.pc.next])
        case Claim(_) =>
          AtRow(wk.pc) && Attempts(w, wk.pc.sweep, wk.pc.sweep.rows[wk.pc.next])
          && wk.pc.sweep.rows[wk.pc.next].id < |s.q.tracks|
        case EndSweep => wk.pc.Sweeping? && wk.pc.next == |wk.pc.sweep.rows|
        case ReadNew(_) => wk.pc.Reading? && s.q.CanRead()
        case ReadNothing => wk.pc.Reading? && !s.q.CanRead()
        case Start => wk.pc.Received? && wk.pc.task.id < |s.q.tracks|
        case Finish(o) =>
          wk.pc.Executing? && wk.pc.task.id < |s.q.tracks| && wk.pc.task.id < |s.q.entries|
          && (Decode(s.q.entries[wk.pc.task.id]).event.None? ==> o.Failure? && o.durationMs == 0)
        case Publish(_) => wk.pc.Executed? && wk.pc.task.id < |s.q.entries|
        case Ack(_) => wk.pc.Published?
        case Fault => CanFault(wk.pc)
        case Stop => wk.running
        case LeaveLoop => wk.pc.LoopHead? && !wk.running
        case Deregister => wk.pc.LoopLeft? && wk.outbox == []
        case Crash => true
        case _ => false
  }

  /** The heartbeat a worker would send now. */
  function BeatOf(wk: Worker, now: nat): Beat {
    Beat(CAPACITY, wk.inFlight, now)
  }

  function Back(back: Return): Pc {
    match back
    case ToHead => LoopHead
    case ToSweep(sweep, next) => Sweeping(sweep, next)
  }

  /** The pc after a Redis call that was carried out; if its answer was lost, the loop's catch. */
  function Or(lost: bool, pc: Pc): Pc {
    if lost then LoopHead else pc
  }

  function TurnOf(q: Queue, id: nat): nat {
    if id < |q.tracks| then |q.tracks[id].deliveries| else 0
  }

  /** XCLAIM with min-idle refuses an entry that is no longer pending or no longer idle. */
  predicate Claimable(s: State, id: nat) {
    s.q.IsIdle(id, s.cfg.claimIdleMs, s.now)
  }

  function WorkerAfter(s: State, w: WorkerId, act: WorkerAct): Worker
    requires WorkerEnabled(s, w, act)
  {
    if act.Boot? then Worker(Booting, true, false, false, 0, [], false)
    else
      var wk := s.fleet[w];
      match act
      case EnsureGroup => wk.(pc := GroupReady)
      case SampleBeat =>
        wk.(outbox := wk.outbox + [BeatOf(wk, s.now)], pc := if wk.pc.GroupReady? then FirstBeat else wk.pc)
      case LandBeat => wk.(outbox := wk.outbox[1..])
      case LoseBeat => wk.(outbox := wk.outbox[1..])
      case BeginLoop => wk.(pc := LoopHead, running := true, ticking := true)
      case Enter => wk.(pc := Listing)
      case ReadPending =>
        var rows := s.q.PendingIdle(s.cfg.claimIdleMs, s.now, s.q.group.value.start, SWEEP_LIMIT);
        wk.(pc := if rows == [] then Reading else SawPending(rows, s.now))
      case ReadRegistry => wk.(pc := SawRegistry(wk.pc.rows, wk.pc.at, s.registry))
      case Judge => wk.(pc := Sweeping(Sweep(wk.pc.rows, wk.pc.at, wk.pc.hash, s.now), 0))
      case Skip => wk.(pc := Sweeping(wk.pc.sweep, wk.pc.next + 1))
      case Claim(lost) =>
        var id := wk.pc.sweep.rows[wk.pc.next].id;
        var on := ToSweep(wk.pc.sweep, wk.pc.next + 1);
        wk.(pc := Or(lost, if Claimable(s, id) then Received(Task(id, TurnOf(s.q, id), on)) else Back(on)),
            faulted := wk.faulted || lost)
      case EndSweep => wk.(pc := Reading)
      case ReadNew(lost) =>
        var id := s.q.group.value.cursor;
        wk.(pc := Or(lost, Received(Task(id, TurnOf(s.q, id), ToHead))), faulted := wk.faulted || lost)
      case ReadNothing => wk.(pc := LoopHead)
      case Start => wk.(pc := Executing(wk.pc.task), inFlight := wk.inFlight + 1)
      case Finish(o) => wk.(pc := Executed(wk.pc.task, o), inFlight := if wk.inFlight > 0 then wk.inFlight - 1 else 0)
      case Publish(lost) => wk.(pc := Or(lost, Published(wk.pc.task, wk.pc.outcome)), faulted := wk.faulted || lost)
      case Ack(lost) => wk.(pc := Or(lost, Back(wk.pc.task.back)), faulted := wk.faulted || lost)
      case Fault => wk.(pc := LoopHead, faulted := true)
      case Stop => wk.(running := false, ticking := false)
      case LeaveLoop => wk.(pc := LoopLeft)
      case Deregister => wk.(pc := Gone)
      case Crash => wk.(alive := false)
  }

  function QueueAfter(s: State, w: WorkerId, act: WorkerAct): Queue
    requires WorkerEnabled(s, w, act)
  {
    match act
    case EnsureGroup => s.q.CreateGroup()
    case Claim(_) =>
      var id := s.fleet[w].pc.sweep.rows[s.fleet[w].pc.next].id;
      if Claimable(s, id) then s.q.Claim(id, w, s.now) else s.q
    case ReadNew(_) => s.q.ReadNew(w, s.now)
    case Start => s.q.BeginTurn(s.fleet[w].pc.task.id, s.fleet[w].pc.task.turn)
    case Finish(o) =>
      var t := s.fleet[w].pc.task;
      s.q.EndTurn(t.id, Result(t.turn, Decode(s.q.entries[t.id]), o))
    case Ack(_) => s.q.Ack(s.fleet[w].pc.task.id)
    case _ => s.q
  }

  function RegistryAfter(s: State, w: WorkerId, act: WorkerAct): Hash
    requires WorkerEnabled(s, w, act)
  {
    match act
    case LandBeat => s.registry[w := s.fleet[w].outbox[0]]
    case Deregister => s.registry - {w}
    case _ => s.registry
  }

  function ApiAfter(s: State, w: WorkerId, act: WorkerAct): Api
    requires WorkerEnabled(s, w, act)
  {
    if act.Publish? then
      var t := s.fleet[w].pc.task;
      match Decode(s.q.entries[t.id]).corr {
        case None => s.api
        case Some(c) => Calls.Publish(s.api, c, Reply(s.fleet[w].pc.outcome, t.id, t.turn, s.now))
      }
    else s.api
  }

  // ---- all processes ----

  predicate Enabled(s: State, a: Action) {
    match a
    case Tick(_) => true
    case Work(w, act) => WorkerEnabled(s, w, act)
    case Serve(c, act) => CallEnabled(s.api, c, act, s.now)
  }

  function Apply(s: State, a: Action): State
    requires Enabled(s, a)
  {
    match a
    case Tick(ms) => s.(now := s.now + ms)
    case Work(w, act) =>
      s.(q := QueueAfter(s, w, act), registry := RegistryAfter(s, w, act),
         fleet := s.fleet[w := WorkerAfter(s, w, act)], api := ApiAfter(s, w, act))
    case Serve(c, act) =>
      s.(q := if Appends(act) then s.q.Append(Encode(c, s.api.calls[c].job), Some(c), s.now) else s.q,
         api := CallStep(s.cfg, s.api, c, act, s.now, s.registry, |s.q.entries|))
  }

  /** A run: its states and the actions between them. */
  ghost predicate Behaviour(states: seq<State>, acts: seq<Action>) {
    && |states| == |acts| + 1
    && Init(states[0])
    && forall i | 0 <= i < |acts| :: Enabled(states[i], acts[i]) && states[i + 1] == Apply(states[i], acts[i])
  }
}
