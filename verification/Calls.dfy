/**
 The API side: one Call per invoke that got past its 404 and 409 checks, the waiters map of
 InvocationDispatchService, the channels Redis has subscribed, and the invocations table.
 Calls are keyed by correlation id; Wire.ChannelsDiffer lets the id stand for the channel.
 */
module Calls {
  import opened Platform
  import opened Wire
  import opened Registry

  const DISPATCH_TIMEOUT_BUFFER_MS: nat := 5000

  datatype Config = Config(claimIdleMs: nat, dispatchTimeoutMs: Option<nat>)

  /** INVOCATION_DISPATCH_TIMEOUT_MS if set, else the job's own timeout and a buffer. */
  function DispatchTimeout(cfg: Config, job: Job): nat {
    match cfg.dispatchTimeoutMs
    case Some(ms) => ms
    case None => job.timeoutMs + DISPATCH_TIMEOUT_BUFFER_MS
  }

  /** An outcome on its way to a waiter; id, turn and at say which run published it and when. */
  datatype Reply = Reply(outcome: Outcome, id: nat, turn: nat, at: nat)

  datatype Promise = NotMade | Unsettled | Resolved(outcome: Outcome) | Rejected

  /** What the caller of invoke gets: a result, one of the two 503s, or an error that escapes. */
  datatype Response = Answered(outcome: Outcome) | NoCapacity | NoReply | ServerError

  datatype Status = SUCCESS | ERROR | TIMEOUT | NO_WORKER

  datatype Row = Row(corr: Corr, status: Status)

  datatype Phase =
    | Arrived                          // about to read the registry
    | CapacityRead(hash: Hash)         // HGETALL answered, Date.now() not yet taken
    | Admitted                         // dispatch about to begin
    | Subscribing                      // waiter and timer set, SUBSCRIBE sent
    | Adding                           // subscribed, XADD sent
    | Awaiting                         // XADD answered
    | Leaving(result: Option<Outcome>) // in finally, UNSUBSCRIBE sent; None is a pending throw
    | Recording(response: Response)    // the row is about to be written
    | Finished(response: Response)

  datatype Call = Call(
    job: Job,
    phase: Phase,
    promise: Promise,
    registeredAt: nat,
    deadline: nat,
    settledAt: nat,
    inbox: seq<Reply>,       // published while subscribed, handler not yet run
    published: seq<Reply>,   // history: everything ever published on the channel
    entry: Option<nat>,      // history: the log entry XADD made
    addFailed: bool)         // history: XADD threw

  datatype Api = Api(calls: map<Corr, Call>, waiters: set<Corr>, subs: set<Corr>, rows: seq<Row>)

  datatype CallAct =
    | Arrive(job: Job)
    | ReadCapacity
    | CapacityError
    | Decide
    | Register
    | Subscribe
    | SubscribeError(landed: bool)
    | Add
    | AddError(landed: bool)
    | OnMessage
    | OnTimer
    | Resume
    | Unsubscribe
    | UnsubscribeError(landed: bool)
    | Record

  function StatusOf(response: Response): Status {
    match response
    case Answered(Success(_, _)) => SUCCESS
    case Answered(TimedOut(_)) => TIMEOUT
    case Answered(Failure(_, _)) => ERROR
    case _ => NO_WORKER
  }

  /** What a row's status tells of the response: SUCCESS, TIMEOUT and ERROR of an outcome, NO_WORKER of either 503. */
  predicate Records(s: Status, r: Response) {
    && (s == SUCCESS <==> r.Answered? && r.outcome.Success?)
    && (s == TIMEOUT <==> r.Answered? && r.outcome.TimedOut?)
    && (s == ERROR <==> r.Answered? && r.outcome.Failure?)
    && (s == NO_WORKER <==> r.NoCapacity? || r.NoReply?)
  }

  predicate Settled(p: Promise) {
    p.Resolved? || p.Rejected?
  }

  /** When a request may take a step. */
  predicate ActEnabled(k: Call, act: CallAct, now: nat) {
    match act
    case Arrive(_) => false
    case ReadCapacity => k.phase.Arrived?
    case CapacityError => k.phase.Arrived?
    case Decide => k.phase.CapacityRead?
    case Register => k.phase.Admitted?
    case Subscribe => k.phase.Subscribing?
    case SubscribeError(_) => k.phase.Subscribing?
    case Add => k.phase.Adding?
    case AddError(_) => k.phase.Adding?
    case OnMessage => k.inbox != []
    case OnTimer => k.promise != NotMade && k.deadline <= now
    case Resume => k.phase.Awaiting? && Settled(k.promise)
    case Unsubscribe => k.phase.Leaving?
    case UnsubscribeError(_) => k.phase.Leaving?
    case Record => k.phase.Recording?
  }

  /** The log entry an act appends, if any. */
  predicate Appends(act: CallAct) {
    act.Add? || act == AddError(true)
  }

  /** Both handlers: a resolver still in the map is taken out and called, else nothing happens. */
  function Settle(k: Call, waiting: bool, verdict: Promise, now: nat): Call {
    if waiting then k.(promise := verdict, settledAt := now) else k
  }

  /** The call after one step; waiting says its channel is in waiters, next is the log's length. */
  function CallAfter(cfg: Config, k: Call, waiting: bool, act: CallAct, now: nat, hash: Hash, next: nat): Call
    requires ActEnabled(k, act, now)
  {
    match act
    case ReadCapacity => k.(phase := CapacityRead(hash))
    case CapacityError => k.(phase := Finished(ServerError))
    case Decide => k.(phase := if HasSpareCapacity(k.phase.hash, now) then Admitted else Recording(NoCapacity))
    case Register =>
      k.(phase := Subscribing, promise := Unsettled, registeredAt := now, deadline := now + DispatchTimeout(cfg, k.job))
    case Subscribe => k.(phase := Adding)
    case SubscribeError(_) => k.(phase := Recording(NoReply))
    case Add => k.(phase := Awaiting, entry := Some(next))
    case AddError(landed) =>
      k.(phase := Leaving(None), addFailed := true, entry := if landed then Some(next) else None)
    case OnMessage => Settle(k.(inbox := k.inbox[1..]), waiting, Resolved(k.inbox[0].outcome), now)
    case OnTimer => Settle(k, waiting, Rejected, now)
    case Resume => k.(phase := Leaving(match k.promise { case Resolved(o) => Some(o) case _ => None }))
    case Unsubscribe =>
      k.(phase := Recording(match k.phase.result { case Some(o) => Answered(o) case None => NoReply }))
    case UnsubscribeError(_) => k.(phase := Recording(NoReply))
    case Record => k.(phase := Finished(k.phase.response))
  }

  function WaitingAfter(waiting: bool, act: CallAct): bool {
    match act
    case Register => true
    case OnMessage => false
    case OnTimer => false
    case _ => waiting
  }

  function SubscribedAfter(subscribed: bool, act: CallAct): bool {
    match act
    case Subscribe => true
    case SubscribeError(landed) => subscribed || landed
    case Unsubscribe => false
    case UnsubscribeError(landed) => subscribed && !landed
    case _ => subscribed
  }

  function With<T>(s: set<T>, x: T, member: bool): set<T> {
    if member then s + {x} else s - {x}
  }

  function NewCall(job: Job): Call {
    Call(job, Arrived, NotMade, 0, 0, 0, [], [], None, false)
  }

  predicate CallEnabled(api: Api, c: Corr, act: CallAct, now: nat) {
    if act.Arrive? then c !in api.calls && IsUuid(c)
    else c in api.calls && ActEnabled(api.calls[c], act, now)
  }

  /** One step of one request; hash and next are the registry and the log's length at that moment. */
  function CallStep(cfg: Config, api: Api, c: Corr, act: CallAct, now: nat, hash: Hash, next: nat): Api
    requires CallEnabled(api, c, act, now)
  {
    if act.Arrive? then api.(calls := api.calls[c := NewCall(act.job)])
    else
      var k := api.calls[c];
      Api(
        api.calls[c := CallAfter(cfg, k, c in api.waiters, act, now, hash, next)],
        With(api.waiters, c, WaitingAfter(c in api.waiters, act)),
        With(api.subs, c, SubscribedAfter(c in api.subs, act)),
        if act.Record? then api.rows + [Row(c, StatusOf(k.phase.response))] else api.rows)
  }

  /** PUBLISH on the channel of c: it is queued for the subscriber if the channel is subscribed. */
  function Publish(api: Api, c: Corr, reply: Reply): Api {
    if c !in api.calls then api
    else
      var k := api.calls[c];
      api.(calls := api.calls[c := k.(
        published := k.published + [reply],
        inbox := if c in api.subs then k.inbox + [reply] else k.inbox)])
  }

  // ---- invariant of one call ----

  predicate BeforeDispatch(p: Phase) {
    match p
    case Arrived => true
    case CapacityRead(_) => true
    case Admitted => true
    case Recording(r) => r == NoCapacity || r == ServerError
    case Finished(r) => r == NoCapacity || r == ServerError
    case _ => false
  }

  predicate InTry(p: Phase) {
    p.Adding? || p.Awaiting? || p.Leaving?
  }

  /** The phase says an answer was taken from the promise. */
  ghost predicate AnswerFits(k: Call) {
    match k.phase
    case Leaving(Some(o)) => k.promise == Resolved(o)
    case Recording(Answered(o)) => k.promise == Resolved(o)
    case Finished(Answered(o)) => k.promise == Resolved(o)
    case _ => true
  }

  ghost predicate CallOk(cfg: Config, k: Call, waiting: bool, subscribed: bool, now: nat) {
    && (k.promise.Unsettled? <==> waiting)
    && (k.promise.NotMade? <==> BeforeDispatch(k.phase))
    && (InTry(k.phase) ==> subscribed)
    && (BeforeDispatch(k.phase) || k.phase.Subscribing? || k.phase.Adding? ==> k.entry.None? && !k.addFailed)
    && (k.phase.Awaiting? ==> k.entry.Some? && !k.addFailed)
    && (k.phase.Leaving? && waiting ==> k.addFailed)
    && (k.entry.None? ==> k.published == [])
    && (k.published == [] ==> k.inbox == [])
    && (waiting ==> k.inbox <= k.published)
    && (waiting && subscribed ==> k.inbox == k.published)
    && (waiting && k.entry.Some? && !subscribed ==> k.addFailed)
    && (!k.promise.NotMade? ==> k.deadline == k.registeredAt + DispatchTimeout(cfg, k.job) && k.registeredAt <= now)
    && (Settled(k.promise) ==> k.registeredAt <= k.settledAt <= now)
    && (k.promise.Rejected? ==> k.deadline <= k.settledAt)
    && (k.promise.Resolved? ==>
          k.published != [] && k.promise.outcome == k.published[0].outcome && k.published[0].at <= k.settledAt)
    && (forall i | 0 <= i < |k.published| :: k.published[i].at <= now)
    && (k.phase.Recording? ==> k.phase.response != ServerError)
    && AnswerFits(k)
  }

  ghost predicate CallsOk(cfg: Config, api: Api, now: nat) {
    && api.waiters <= api.calls.Keys && api.subs <= api.calls.Keys
    && forall c | c in api.calls :: IsUuid(c) && CallOk(cfg, api.calls[c], c in api.waiters, c in api.subs, now)
  }

  ghost predicate TableOk(api: Api) {
    && (forall i, j | 0 <= i < j < |api.rows| :: api.rows[i].corr != api.rows[j].corr)
    && (forall r | r in api.rows :: r.corr in api.calls && HasRow(api.calls[r.corr].phase)
          && Records(r.status, api.calls[r.corr].phase.response))
    && (forall c | c in api.calls && HasRow(api.calls[c].phase) :: exists r :: r in api.rows && r.corr == c)
  }

  predicate HasRow(p: Phase) {
    p.Finished? && p.response != ServerError
  }

  lemma CallAfterOk(cfg: Config, k: Call, waiting: bool, subscribed: bool, act: CallAct, now: nat, hash: Hash,
                    next: nat)
    requires CallOk(cfg, k, waiting, subscribed, now) && ActEnabled(k, act, now)
    ensures CallOk(cfg, CallAfter(cfg, k, waiting, act, now, hash, next),
                   WaitingAfter(waiting, act), SubscribedAfter(subscribed, act), now)
  {
    if act.OnMessage? && waiting {
      assert k.inbox[0] == k.published[0];
    }
  }

  lemma CallStepOk(cfg: Config, api: Api, c: Corr, act: CallAct, now: nat, hash: Hash, next: nat)
    requires CallsOk(cfg, api, now) && CallEnabled(api, c, act, now)
    ensures CallsOk(cfg, CallStep(cfg, api, c, act, now, hash, next), now)
  {
    var after := CallStep(cfg, api, c, act, now, hash, next);
    if !act.Arrive? {
      CallAfterOk(cfg, api.calls[c], c in api.waiters, c in api.subs, act, now, hash, next);
    } else {
      assert c !in api.waiters && c !in api.subs;
    }
    OthersOk(cfg, api, after, c, now);
  }

  lemma OthersOk(cfg: Config, api: Api, after: Api, c: Corr, now: nat)
    requires CallsOk(cfg, api, now)
    requires after.calls.Keys == api.calls.Keys + {c}
    requires after.waiters - {c} == api.waiters - {c} && after.subs - {c} == api.subs - {c}
    requires forall d | d in api.calls && d != c :: after.calls[d] == api.calls[d]
    requires IsUuid(c) && CallOk(cfg, after.calls[c], c in after.waiters, c in after.subs, now)
    ensures CallsOk(cfg, after, now)
  {
    forall d | d in after.calls && d != c
      ensures CallOk(cfg, after.calls[d], d in after.waiters, d in after.subs, now)
    {
      assert d in after.waiters <==> d in after.waiters - {c};
      assert d in after.subs <==> d in after.subs - {c};
      assert d in api.waiters <==> d in api.waiters - {c};
      assert d in api.subs <==> d in api.subs - {c};
    }
    forall d | d in after.waiters || d in after.subs
      ensures d in after.calls
    {
      assert d == c || d in after.waiters - {c} || d in after.subs - {c};
    }
  }

  lemma RowKept(cfg: Config, k: Call, waiting: bool, act: CallAct, now: nat, hash: Hash, next: nat)
    requires ActEnabled(k, act, now) && !act.Record?
    ensures var m := CallAfter(cfg, k, waiting, act, now, hash, next);
            && (HasRow(k.phase) ==> m.phase == k.phase)
            && (HasRow(m.phase) ==> HasRow(k.phase))
  {
  }

  /** A row of a request that had none, with what its response calls for. */
  lemma RowAdded(api: Api, after: Api, c: Corr, row: Row)
    requires TableOk(api) && c in api.calls && !HasRow(api.calls[c].phase)
    requires after.rows == api.rows + [row] && row.corr == c
    requires after.calls.Keys == api.calls.Keys && forall d | d in api.calls && d != c :: after.calls[d] == api.calls[d]
    requires HasRow(after.calls[c].phase) && Records(row.status, after.calls[c].phase.response)
    ensures TableOk(after)
  {
    assert forall r | r in api.rows :: r.corr != c;
    assert row in after.rows;
    forall d | d in after.calls && HasRow(after.calls[d].phase) && d != c
      ensures exists r :: r in after.rows && r.corr == d
    {
      var r :| r in api.rows && r.corr == d;
      assert r in after.rows;
    }
  }

  lemma RecordTableOk(cfg: Config, api: Api, c: Corr, now: nat, hash: Hash, next: nat)
    requires TableOk(api) && CallEnabled(api, c, Record, now) && api.calls[c].phase.response != ServerError
    ensures TableOk(CallStep(cfg, api, c, Record, now, hash, next))
  {
    var after := CallStep(cfg, api, c, Record, now, hash, next);
    RowAdded(api, after, c, Row(c, StatusOf(api.calls[c].phase.response)));
  }

  lemma CallStepTableOk(cfg: Config, api: Api, c: Corr, act: CallAct, now: nat, hash: Hash, next: nat)
    requires TableOk(api) && CallEnabled(api, c, act, now)
    requires act.Record? ==> api.calls[c].phase.response != ServerError
    ensures TableOk(CallStep(cfg, api, c, act, now, hash, next))
  {
    if act.Record? {
      RecordTableOk(cfg, api, c, now, hash, next);
    } else if !act.Arrive? {
      RowKept(cfg, api.calls[c], c in api.waiters, act, now, hash, next);
    }
  }

  lemma PublishOk(cfg: Config, api: Api, c: Corr, reply: Reply, now: nat)
    requires CallsOk(cfg, api, now) && c in api.calls && api.calls[c].entry.Some? && reply.at <= now
    ensures CallsOk(cfg, Publish(api, c, reply), now)
  {
    var after := Publish(api, c, reply);
    var k, m := api.calls[c], after.calls[c];
    assert k.inbox <= k.published ==> k.inbox <= m.published;
    assert CallOk(cfg, m, c in api.waiters, c in api.subs, now);
  }

  lemma PublishTableOk(api: Api, c: Corr, reply: Reply)
    requires TableOk(api)
    ensures TableOk(Publish(api, c, reply))
  {
  }

  lemma CallsLaterOk(cfg: Config, api: Api, now: nat, later: nat)
    requires CallsOk(cfg, api, now) && now <= later
    ensures CallsOk(cfg, api, later)
  {
  }

  // ---- what later states keep ----

  ghost predicate CallLater(k: Call, m: Call) {
    && m.job == k.job
    && k.published <= m.published
    && (k.entry.Some? ==> m.entry == k.entry)
    && (!k.promise.NotMade? ==> !m.promise.NotMade? && m.registeredAt == k.registeredAt && m.deadline == k.deadline)
    && (Settled(k.promise) ==> m.promise == k.promise && m.settledAt == k.settledAt)
    && (k.phase.Finished? ==> m.phase == k.phase)
  }

  ghost predicate ApiLater(api: Api, after: Api) {
    && (forall c | c in api.calls :: c in after.calls && CallLater(api.calls[c], after.calls[c]))
    && api.rows <= after.rows
  }

  lemma CallAfterLater(cfg: Config, k: Call, waiting: bool, subscribed: bool, act: CallAct, now: nat, hash: Hash,
                       next: nat)
    requires CallOk(cfg, k, waiting, subscribed, now) && ActEnabled(k, act, now)
    ensures CallLater(k, CallAfter(cfg, k, waiting, act, now, hash, next))
  {
  }

  lemma CallStepLater(cfg: Config, api: Api, c: Corr, act: CallAct, now: nat, hash: Hash, next: nat)
    requires CallsOk(cfg, api, now) && CallEnabled(api, c, act, now)
    ensures ApiLater(api, CallStep(cfg, api, c, act, now, hash, next))
  {
    if !act.Arrive? {
      CallAfterLater(cfg, api.calls[c], c in api.waiters, c in api.subs, act, now, hash, next);
    }
  }

  lemma ApiLaterTransitive(a: Api, b: Api, c: Api)
    requires ApiLater(a, b) && ApiLater(b, c)
    ensures ApiLater(a, c)
  {
  }

  // ---- accounting ----

  function Count(rows: seq<Row>, s: Status): nat {
    if rows == [] then 0 else (if rows[0].status == s then 1 else 0) + Count(rows[1..], s)
  }

  lemma {:induction false} CountsSum(rows: seq<Row>)
    ensures Count(rows, SUCCESS) + Count(rows, ERROR) + Count(rows, TIMEOUT) + Count(rows, NO_WORKER) == |rows|
  {
    if rows != [] {
      CountsSum(rows[1..]);
    }
  }
}
