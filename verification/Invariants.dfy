/** What every reachable state of the protocol satisfies, and the proof that each action keeps it. */
module Invariants {
  import opened Platform
  import opened Wire
  import opened InvocationStream
  import opened Calls
  import opened Protocol

  // ---- one worker ----

  /** An XPENDING row told the truth at time at, and deliveries since then are younger. */
  ghost predicate StaleOk(q: Queue, gap: nat, row: Stale, at: nat) {
    && row.id < |q.tracks|
    && var d := q.tracks[row.id].deliveries;
    && 0 < row.count <= |d|
    && d[row.count - 1].worker == row.owner
    && d[row.count - 1].at + gap <= at
    && forall i | row.count <= i < |d| :: at <= d[i].at
  }

  ghost predicate ListingOk(q: Queue, gap: nat, now: nat, rows: seq<Stale>, at: nat) {
    at <= now && forall j | 0 <= j < |rows| :: StaleOk(q, gap, rows[j], at)
  }

  /** The entry was acknowledged, or delivered again since the row was listed. */
  ghost predicate Dealt(q: Queue, row: Stale) {
    row.id < |q.tracks| && (q.tracks[row.id].acked || row.count < |q.tracks[row.id].deliveries|)
  }

  ghost predicate SweepOk(q: Queue, gap: nat, now: nat, w: WorkerId, sweep: Sweep, next: nat) {
    && next <= |sweep.rows|
    && sweep.at <= sweep.judgedAt <= now
    && ListingOk(q, gap, now, sweep.rows, sweep.at)
    && forall j | 0 <= j < next :: Attempts(w, sweep, sweep.rows[j]) ==> Dealt(q, sweep.rows[j])
  }

  ghost predicate TaskOk(q: Queue, gap: nat, now: nat, w: WorkerId, t: Task) {
    && t.id < |q.tracks|
    && t.turn < |q.tracks[t.id].deliveries|
    && q.tracks[t.id].deliveries[t.turn].worker == w
    && (t.back.ToSweep? ==> SweepOk(q, gap, now, w, t.back.sweep, t.back.next))
  }

  ghost predicate Ran(q: Queue, t: Task, o: Outcome) {
    t.id < |q.tracks| && t.id < |q.entries| && Result(t.turn, Decode(q.entries[t.id]), o) in q.tracks[t.id].results
  }

  ghost predicate ReplyFor(replies: seq<Reply>, id: nat, turn: nat, o: Outcome) {
    exists i :: 0 <= i < |replies| && replies[i].id == id && replies[i].turn == turn && replies[i].outcome == o
  }

  /** The outcome of that run was published on the channel of the entry's own dispatch. */
  ghost predicate WasPublished(q: Queue, calls: map<Corr, Call>, id: nat, turn: nat, o: Outcome) {
    && id < |q.tracks| && q.tracks[id].author.Some?
    && q.tracks[id].author.value in calls
    && ReplyFor(calls[q.tracks[id].author.value].published, id, turn, o)
  }

  ghost predicate PcOk(q: Queue, calls: map<Corr, Call>, gap: nat, now: nat, w: WorkerId, pc: Pc) {
    match pc
    case SawPending(rows, at) => ListingOk(q, gap, now, rows, at)
    case SawRegistry(rows, at, _) => ListingOk(q, gap, now, rows, at)
    case Sweeping(sweep, next) => SweepOk(q, gap, now, w, sweep, next)
    case Received(t) => TaskOk(q, gap, now, w, t) && t.turn !in q.tracks[t.id].starts
    case Executing(t) => TaskOk(q, gap, now, w, t) && t.turn in q.tracks[t.id].starts
    case Executed(t, o) => TaskOk(q, gap, now, w, t) && t.turn in q.tracks[t.id].starts && Ran(q, t, o)
    case Published(t, o) => TaskOk(q, gap, now, w, t) && Ran(q, t, o) && WasPublished(q, calls, t.id, t.turn, o)
    case _ => true
  }

  /** The fields other than pc; grouped says the consumer group exists. */
  predicate FieldsOk(wk: Worker, grouped: bool, now: nat) {
    && (!wk.pc.Booting? || wk.outbox != [] ==> grouped)
    && wk.inFlight == (if wk.pc.Executing? then 1 else 0)
    && (wk.ticking ==> wk.running)
    && (wk.running ==> !wk.pc.Booting? && !wk.pc.GroupReady? && !wk.pc.FirstBeat? && !wk.pc.LoopLeft? && !wk.pc.Gone?)
    && (forall i | 0 <= i < |wk.outbox| :: wk.outbox[i].lastHeartbeatAt <= now)
  }

  ghost predicate WorkerOk(q: Queue, calls: map<Corr, Call>, gap: nat, now: nat, w: WorkerId, wk: Worker) {
    PcOk(q, calls, gap, now, w, wk.pc) && FieldsOk(wk, q.group.Some?, now)
  }

  // ---- the whole state ----

  /** Whether the worker at pc is in the middle of handling entry id. */
  predicate Holds(pc: Pc, id: nat) {
    match pc
    case Received(t) => t.id == id
    case Executing(t) => t.id == id
    case Executed(t, _) => t.id == id
    case Published(t, _) => t.id == id
    case _ => false
  }

  /** Every pending entry's owner was booted, and is handling it unless one of its Redis calls failed. */
  ghost predicate OwnersOk(q: Queue, fleet: map<WorkerId, Worker>) {
    q.group.Some? ==>
      forall id | id in q.group.value.pel ::
        var w := q.group.value.pel[id].owner;
        w in fleet && (fleet[w].faulted || Holds(fleet[w].pc, id))
  }

  ghost predicate FleetOk(s: State) {
    forall w | w in s.fleet :: WorkerOk(s.q, s.api.calls, s.cfg.claimIdleMs, s.now, w, s.fleet[w])
  }

  ghost predicate RegistryOk(s: State) {
    && (s.registry != map[] ==> s.q.group.Some?)
    && forall w | w in s.registry :: w in s.fleet && s.registry[w].lastHeartbeatAt <= s.now
  }

  /** Log entries and the requests that appended them. */
  ghost predicate LinksOk(base: nat, q: Queue, calls: map<Corr, Call>) {
    && base <= |q.tracks| == |q.entries|
    && (q.group.Some? ==> base <= q.group.value.start)
    && (forall id | 0 <= id < |q.tracks| :: AuthorOk(base, q, calls, id))
    && (forall c | c in calls && calls[c].entry.Some? ::
          calls[c].entry.value < |q.tracks| && q.tracks[calls[c].entry.value].author == Some(c))
  }

  ghost predicate AuthorOk(base: nat, q: Queue, calls: map<Corr, Call>, id: nat)
    requires id < |q.tracks| == |q.entries|
  {
    match q.tracks[id].author
    case None => id < base
    case Some(c) =>
      && base <= id
      && q.group.Some? && q.group.value.start <= id
      && c in calls && IsUuid(c)
      && calls[c].entry == Some(id)
      && q.entries[id] == Encode(c, calls[c].job)
      && !calls[c].promise.NotMade? && calls[c].registeredAt <= q.tracks[id].appendedAt
  }

  /** Whatever was published came from a run of the entry of that very dispatch. */
  ghost predicate RepliesOk(q: Queue, calls: map<Corr, Call>) {
    forall c, i | c in calls && 0 <= i < |calls[c].published| :: ReplyOk(q, calls[c], calls[c].published[i])
  }

  ghost predicate ReplyOk(q: Queue, k: Call, r: Reply) {
    && k.entry == Some(r.id)
    && r.id < |q.tracks| && r.id < |q.entries|
    && r.turn < |q.tracks[r.id].deliveries| && q.tracks[r.id].deliveries[r.turn].at <= r.at
    && Result(r.turn, Decode(q.entries[r.id]), r.outcome) in q.tracks[r.id].results
  }

  ghost predicate AcksOk(q: Queue, calls: map<Corr, Call>) {
    forall id | 0 <= id < |q.tracks| && q.tracks[id].acked ::
      exists turn, o :: WasPublished(q, calls, id, turn, o)
  }

  ghost predicate ResultsOk(q: Queue) {
    forall id | 0 <= id < |q.tracks| && id < |q.entries| :: ResultsOf(q.tracks[id], q.entries[id])
  }

  ghost predicate ResultsOf(t: Track, fields: Fields) {
    forall r | r in t.results ::
      r.input == Decode(fields) && (r.input.event.None? ==> r.outcome.Failure? && r.outcome.durationMs == 0)
  }

  /** No request gets past admission, and no registry copy is non-empty, before the group exists. */
  ghost predicate GateOk(q: Queue, calls: map<Corr, Call>) {
    forall c | c in calls :: q.group.Some? || BehindGate(calls[c].phase)
  }

  predicate BehindGate(p: Phase) {
    match p
    case Arrived => true
    case CapacityRead(hash) => hash == map[]
    case Recording(r) => r == NoCapacity
    case Finished(r) => r == NoCapacity || r == ServerError
    case _ => false
  }

  ghost predicate Inv(s: State) {
    && QueueOk(s.q, s.cfg.claimIdleMs, s.now)
    && CallsOk(s.cfg, s.api, s.now)
    && TableOk(s.api)
    && FleetOk(s)
    && OwnersOk(s.q, s.fleet)
    && RegistryOk(s)
    && LinksOk(s.base, s.q, s.api.calls)
    && RepliesOk(s.q, s.api.calls)
    && AcksOk(s.q, s.api.calls)
    && ResultsOk(s.q)
    && GateOk(s.q, s.api.calls)
  }

  lemma InitInv(s: State)
    requires Init(s)
    ensures Inv(s)
  {
    assert forall id | 0 <= id < |s.q.tracks| :: s.q.tracks[id] in s.q.tracks;
  }

  // ---- keeping the parts that only look at the log ----

  /** Turns begun between q and r were begun by w. */
  ghost predicate StartsBy(q: Queue, r: Queue, w: WorkerId) {
    forall id, k | 0 <= id < |q.tracks| && id < |r.tracks| && k in r.tracks[id].starts && k !in q.tracks[id].starts ::
      k < |r.tracks[id].deliveries| && r.tracks[id].deliveries[k].worker == w
  }

  lemma StaleLater(q: Queue, gap: nat, now: nat, row: Stale, at: nat, r: Queue)
    requires StaleOk(q, gap, row, at) && at <= now && Later(q, now, r)
    ensures StaleOk(r, gap, row, at)
    ensures Dealt(q, row) ==> Dealt(r, row)
  {
    var t, u := q.tracks[row.id], r.tracks[row.id];
    assert TrackLater(t, now, u);
    assert forall i | 0 <= i < |t.deliveries| :: u.deliveries[i] == t.deliveries[i];
  }

  lemma RowsLater(q: Queue, gap: nat, now: nat, rows: seq<Stale>, at: nat, r: Queue, later: nat)
    requires ListingOk(q, gap, now, rows, at) && Later(q, now, r) && now <= later
    ensures ListingOk(r, gap, later, rows, at)
    ensures forall j | 0 <= j < |rows| :: Dealt(q, rows[j]) ==> Dealt(r, rows[j])
  {
    forall j | 0 <= j < |rows|
      ensures StaleOk(r, gap, rows[j], at) && (Dealt(q, rows[j]) ==> Dealt(r, rows[j]))
    {
      StaleLater(q, gap, now, rows[j], at, r);
    }
  }

  lemma SweepLater(q: Queue, gap: nat, now: nat, w: WorkerId, sweep: Sweep, next: nat, r: Queue, later: nat)
    requires SweepOk(q, gap, now, w, sweep, next) && Later(q, now, r) && now <= later
    ensures SweepOk(r, gap, later, w, sweep, next)
  {
    RowsLater(q, gap, now, sweep.rows, sweep.at, r, later);
  }

  lemma TaskLater(q: Queue, gap: nat, now: nat, w: WorkerId, t: Task, r: Queue, later: nat)
    requires TaskOk(q, gap, now, w, t) && Later(q, now, r) && now <= later
    ensures TaskOk(r, gap, later, w, t)
    ensures t.turn in q.tracks[t.id].starts ==> t.turn in r.tracks[t.id].starts
  {
    assert TrackLater(q.tracks[t.id], now, r.tracks[t.id]);
    if t.back.ToSweep? {
      SweepLater(q, gap, now, w, t.back.sweep, t.back.next, r, later);
    }
  }

  lemma RanLater(q: Queue, now: nat, t: Task, o: Outcome, r: Queue)
    requires Ran(q, t, o) && Later(q, now, r)
    ensures Ran(r, t, o)
  {
    assert TrackLater(q.tracks[t.id], now, r.tracks[t.id]);
  }

  /** Calls only gain replies, and none disappears. */
  ghost predicate RepliesGrow(calls: map<Corr, Call>, after: map<Corr, Call>) {
    forall c | c in calls :: c in after && calls[c].published <= after[c].published
  }

  lemma PublishedLater(q: Queue, calls: map<Corr, Call>, now: nat, id: nat, turn: nat, o: Outcome, r: Queue,
                       after: map<Corr, Call>)
    requires WasPublished(q, calls, id, turn, o) && Later(q, now, r) && RepliesGrow(calls, after)
    ensures WasPublished(r, after, id, turn, o)
  {
    assert TrackLater(q.tracks[id], now, r.tracks[id]);
    var c := q.tracks[id].author.value;
    var i :| 0 <= i < |calls[c].published| && calls[c].published[i].id == id
             && calls[c].published[i].turn == turn && calls[c].published[i].outcome == o;
    assert after[c].published[i] == calls[c].published[i];
  }

  /** A worker that does not move stays in order whatever the others do. */
  lemma BystanderOk(q: Queue, calls: map<Corr, Call>, gap: nat, now: nat, w: WorkerId, wk: Worker,
                    r: Queue, after: map<Corr, Call>, later: nat, actor: WorkerId)
    requires WorkerOk(q, calls, gap, now, w, wk)
    requires Later(q, now, r) && RepliesGrow(calls, after) && now <= later
    requires StartsBy(q, r, actor) && actor != w
    ensures WorkerOk(r, after, gap, later, w, wk)
  {
    match wk.pc
    case SawPending(rows, at) => RowsLater(q, gap, now, rows, at, r, later);
    case SawRegistry(rows, at, _) => RowsLater(q, gap, now, rows, at, r, later);
    case Sweeping(sweep, next) => SweepLater(q, gap, now, w, sweep, next, r, later);
    case Received(t) =>
      TaskLater(q, gap, now, w, t, r, later);
      assert t.turn !in r.tracks[t.id].starts;
    case Executing(t) => TaskLater(q, gap, now, w, t, r, later);
    case Executed(t, o) =>
      TaskLater(q, gap, now, w, t, r, later);
      RanLater(q, now, t, o, r);
    case Published(t, o) =>
      TaskLater(q, gap, now, w, t, r, later);
      RanLater(q, now, t, o, r);
      PublishedLater(q, calls, now, t.id, t.turn, o, r, after);
    case _ =>
  }

  lemma AcksLater(q: Queue, calls: map<Corr, Call>, now: nat, r: Queue, after: map<Corr, Call>)
    requires AcksOk(q, calls) && Later(q, now, r) && RepliesGrow(calls, after)
    requires forall id | 0 <= id < |r.tracks| && r.tracks[id].acked :: id < |q.tracks| && q.tracks[id].acked
    ensures AcksOk(r, after)
  {
    forall id | 0 <= id < |r.tracks| && r.tracks[id].acked
      ensures exists turn, o :: WasPublished(r, after, id, turn, o)
    {
      var turn, o :| WasPublished(q, calls, id, turn, o);
      PublishedLater(q, calls, now, id, turn, o, r, after);
    }
  }

  lemma ReplyLater(q: Queue, now: nat, k: Call, reply: Reply, r: Queue, m: Call)
    requires ReplyOk(q, k, reply) && Later(q, now, r) && m.entry == k.entry
    ensures ReplyOk(r, m, reply)
  {
    assert TrackLater(q.tracks[reply.id], now, r.tracks[reply.id]);
  }

  lemma RepliesLater(q: Queue, calls: map<Corr, Call>, now: nat, r: Queue)
    requires RepliesOk(q, calls) && Later(q, now, r)
    ensures RepliesOk(r, calls)
  {
    forall c, i | c in calls && 0 <= i < |calls[c].published|
      ensures ReplyOk(r, calls[c], calls[c].published[i])
    {
      ReplyLater(q, now, calls[c], calls[c].published[i], r, calls[c]);
    }
  }

  // ---- time passing ----

  lemma LaterSelf(q: Queue, now: nat)
    ensures Later(q, now, q)
  {
  }

  lemma TickInv(s: State, ms: nat)
    requires Inv(s)
    ensures Inv(Apply(s, Tick(ms)))
  {
    var t := Apply(s, Tick(ms));
    TimePassesOk(s.q, s.cfg.claimIdleMs, s.now, t.now);
    CallsLaterOk(s.cfg, s.api, s.now, t.now);
    LaterSelf(s.q, s.now);
    forall w | w in t.fleet
      ensures WorkerOk(t.q, t.api.calls, t.cfg.claimIdleMs, t.now, w, t.fleet[w])
    {
      BystanderOk(s.q, s.api.calls, s.cfg.claimIdleMs, s.now, w, s.fleet[w], t.q, t.api.calls, t.now, w + 1);
    }
  }
}
