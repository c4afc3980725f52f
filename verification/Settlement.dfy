/** Theorems about dispatch and invoke: wake-ups, settlement, whose outcome is returned, deadlines and rows. */
module Settlement {
  import opened Platform
  import opened Wire
  import opened InvocationStream
  import opened Registry
  import opened Calls
  import opened Protocol
  import opened Invariants
  import opened Preservation
  import opened History

  lemma CallHolds(states: seq<State>, acts: seq<Action>, i: nat, c: Corr)
    requires Behaviour(states, acts) && i < |states| && c in states[i].api.calls
    ensures CallOk(states[i].cfg, states[i].api.calls[c], c in states[i].api.waiters, c in states[i].api.subs, states[i].now)
  {
    RunInv(states, acts, i);
  }

  lemma CallBetween(states: seq<State>, acts: seq<Action>, i: nat, j: nat, c: Corr)
    requires Behaviour(states, acts) && i <= j < |states| && c in states[i].api.calls
    ensures c in states[j].api.calls && CallLater(states[i].api.calls[c], states[j].api.calls[c])
  {
    RunAfter(states, acts, i, j);
  }

  // ---- wake-ups ----

  /** Nothing can be published for a dispatch before its SUBSCRIBE has completed. */
  lemma SubscribeComesFirst(states: seq<State>, acts: seq<Action>, i: nat, c: Corr)
    requires Behaviour(states, acts) && i < |states| && c in states[i].api.calls
    requires BeforeDispatch(states[i].api.calls[c].phase) || states[i].api.calls[c].phase.Subscribing?
    ensures states[i].api.calls[c].entry.None? && states[i].api.calls[c].published == []
    ensures forall id | 0 <= id < |states[i].q.tracks| :: states[i].q.tracks[id].author != Some(c)
  {
    RunInv(states, acts, i);
    CallHolds(states, acts, i, c);
    forall id | 0 <= id < |states[i].q.tracks|
      ensures states[i].q.tracks[id].author != Some(c)
    {
      assert AuthorOk(states[i].base, states[i].q, states[i].api.calls, id);
    }
  }

  /** addFailed does not change once the entry is in the log. */
  lemma AddVerdictStays(cfg: Config, k: Call, waiting: bool, subscribed: bool, act: CallAct, now: nat, hash: Hash,
                        next: nat)
    requires CallOk(cfg, k, waiting, subscribed, now) && ActEnabled(k, act, now) && k.entry.Some?
    ensures CallAfter(cfg, k, waiting, act, now, hash, next).addFailed == k.addFailed
  {
  }

  lemma {:induction false} AddVerdictIsFinal(states: seq<State>, acts: seq<Action>, i: nat, j: nat, c: Corr)
    requires Behaviour(states, acts) && i <= j < |states|
    requires c in states[i].api.calls && states[i].api.calls[c].entry.Some?
    ensures c in states[j].api.calls && states[j].api.calls[c].addFailed == states[i].api.calls[c].addFailed
    decreases j
  {
    if i < j {
      AddVerdictIsFinal(states, acts, i, j - 1, c);
      CallBetween(states, acts, i, j - 1, c);
      CallHolds(states, acts, j - 1, c);
      var s := states[j - 1];
      match acts[j - 1]
      case Tick(_) =>
      case Work(w, act) => WorkVerdicts(states, acts, j - 1, w, act, c);
      case Serve(d, act) =>
        if d == c {
          AddVerdictStays(s.cfg, s.api.calls[c], c in s.api.waiters, c in s.api.subs, act, s.now, s.registry, |s.q.entries|);
        }
    }
  }

  lemma WorkVerdicts(states: seq<State>, acts: seq<Action>, i: nat, w: WorkerId, act: WorkerAct, c: Corr)
    requires Behaviour(states, acts) && i < |acts| && acts[i] == Work(w, act) && c in states[i].api.calls
    ensures c in states[i + 1].api.calls && SameButReplies(states[i].api.calls[c], states[i + 1].api.calls[c])
  {
    RunInv(states, acts, i);
    WorkApi(states[i], w, act);
  }

  /** Which dispatch a PUBLISH step answers. */
  ghost predicate PublishesTo(s: State, a: Action, c: Corr, reply: Reply) {
    && a.Work? && a.act.Publish? && Enabled(s, a)
    && var wk := s.fleet[a.w];
    && reply == Reply(wk.pc.outcome, wk.pc.task.id, wk.pc.task.turn, s.now)
    && Decode(s.q.entries[wk.pc.task.id]).corr == Some(c)
  }

  /**
   No lost wake-up. An outcome published while the waiter is registered stays queued for it until
   the waiter is settled, unless this dispatch's XADD threw although Redis had carried it out.
   */
  lemma NoLostWakeUp(states: seq<State>, acts: seq<Action>, i: nat, j: nat, c: Corr, reply: Reply)
    requires Behaviour(states, acts) && i < |acts| && i < j < |states|
    requires c in states[i].api.waiters && c in states[i].api.calls && PublishesTo(states[i], acts[i], c, reply)
    requires !states[i].api.calls[c].addFailed
    ensures c in states[j].api.calls
    ensures var k := states[j].api.calls[c];
            if c in states[j].api.waiters then reply in k.inbox && CallEnabled(states[j].api, c, OnMessage, states[j].now)
            else Settled(k.promise)
  {
    PublishedCall(states, acts, i, c, reply);
    AddVerdictIsFinal(states, acts, i + 1, j, c);
    CallBetween(states, acts, i + 1, j, c);
    CallHolds(states, acts, j, c);
    var n := |states[i].api.calls[c].published|;
    assert states[j].api.calls[c].published[n] == reply;
  }

  lemma PublishedCall(states: seq<State>, acts: seq<Action>, i: nat, c: Corr, reply: Reply)
    requires Behaviour(states, acts) && i < |acts|
    requires c in states[i].api.waiters && c in states[i].api.calls && PublishesTo(states[i], acts[i], c, reply)
    ensures c in states[i + 1].api.calls
    ensures var k, m := states[i].api.calls[c], states[i + 1].api.calls[c];
            && m.published == k.published + [reply] && m.entry.Some? && m.addFailed == k.addFailed
            && m.promise.Unsettled?
  {
    RunInv(states, acts, i);
    CallHolds(states, acts, i, c);
    PublishIs(states[i], acts[i].w, acts[i].act.lost);
    PublishTarget(states[i], acts[i].w, acts[i].act.lost, c);
  }

  lemma PublishTarget(s: State, w: WorkerId, lost: bool, c: Corr)
    requires Inv(s) && Enabled(s, Work(w, Publish(lost)))
    requires Decode(s.q.entries[s.fleet[w].pc.task.id]).corr == Some(c)
    ensures s.fleet[w].pc.task.id < |s.q.tracks| && s.q.tracks[s.fleet[w].pc.task.id].author == Some(c)
  {
    assert WorkerOk(s.q, s.api.calls, s.cfg.claimIdleMs, s.now, w, s.fleet[w]);
    AuthorIsTarget(s, s.fleet[w].pc.task.id);
  }

  /**
   The exact condition, step by step: a publish with the waiter registered is queued iff the channel
   is still subscribed.
   */
  lemma WakeUpIffSubscribed(states: seq<State>, acts: seq<Action>, i: nat, c: Corr, reply: Reply)
    requires Behaviour(states, acts) && i < |acts|
    requires c in states[i].api.waiters && c in states[i].api.calls && PublishesTo(states[i], acts[i], c, reply)
    ensures var before, after := states[i].api.calls[c].inbox, states[i + 1].api.calls[c].inbox;
            after == if c in states[i].api.subs then before + [reply] else before
    ensures c !in states[i].api.subs ==> states[i].api.calls[c].addFailed
  {
    RunInv(states, acts, i);
    PublishIs(states[i], acts[i].w, acts[i].act.lost);
    PublishTarget(states[i], acts[i].w, acts[i].act.lost, c);
    CallHolds(states, acts, i, c);
  }

  // ---- settlement ----

  /** A channel is in waiters exactly while its promise is unsettled. */
  lemma WaitersAreUnsettled(states: seq<State>, acts: seq<Action>, i: nat, c: Corr)
    requires Behaviour(states, acts) && i < |states|
    ensures c in states[i].api.waiters <==> c in states[i].api.calls && states[i].api.calls[c].promise.Unsettled?
  {
    RunInv(states, acts, i);
    if c in states[i].api.calls {
      CallHolds(states, acts, i, c);
    }
  }

  /** Exactly once: duplicates, late timers and everything else leave a settled promise as it is. */
  lemma SettledOnce(states: seq<State>, acts: seq<Action>, i: nat, j: nat, c: Corr)
    requires Behaviour(states, acts) && i <= j < |states|
    requires c in states[i].api.calls && Settled(states[i].api.calls[c].promise)
    ensures c in states[j].api.calls
    ensures states[j].api.calls[c].promise == states[i].api.calls[c].promise
    ensures states[j].api.calls[c].settledAt == states[i].api.calls[c].settledAt
  {
    CallBetween(states, acts, i, j, c);
  }

  /** It settles with the first outcome ever published on the channel, or by the timer at or after the deadline. */
  lemma SettledByFirstOrTimer(states: seq<State>, acts: seq<Action>, i: nat, c: Corr)
    requires Behaviour(states, acts) && i < |states|
    requires c in states[i].api.calls && Settled(states[i].api.calls[c].promise)
    ensures var k := states[i].api.calls[c];
            match k.promise
            case Resolved(o) => k.published != [] && k.published[0].outcome == o && k.published[0].at <= k.settledAt
            case _ => k.deadline <= k.settledAt
  {
    CallHolds(states, acts, i, c);
  }

  /** Whatever became of subscribe or XADD, a waiter at its deadline has its timer ready, and the timer removes it. */
  lemma TimerEndsWaiting(states: seq<State>, acts: seq<Action>, i: nat, c: Corr)
    requires Behaviour(states, acts) && i < |states|
    requires c in states[i].api.waiters && c in states[i].api.calls && states[i].api.calls[c].deadline <= states[i].now
    ensures Enabled(states[i], Serve(c, OnTimer))
    ensures var t := Apply(states[i], Serve(c, OnTimer));
            c !in t.api.waiters && t.api.calls[c].promise == Rejected && t.api.calls[c].settledAt == states[i].now
  {
    CallHolds(states, acts, i, c);
  }

  // ---- whose outcome ----

  /**
   o was produced by a worker that decoded the very entry dispatch c appended; if the image tag is
   no later field name, that worker had exactly c's image tag, event, timeout and memory.
   */
  ghost predicate RanFor(s: State, c: Corr, o: Outcome) {
    && c in s.api.calls
    && var k, q := s.api.calls[c], s.q;
    && k.entry.Some? && k.entry.value < |q.tracks| && q.tracks[k.entry.value].author == Some(c)
    && exists r :: r in q.tracks[k.entry.value].results && r.outcome == o
         && r.input == Decode(Encode(c, k.job))
         && (TagIsNoLaterKey(k.job) ==>
               && r.input.corr == Some(c) && r.input.imageTag == Some(k.job.imageTag)
               && r.input.event == Some(if k.job.event.Null? then Json.Obj(Json.NoMembers) else k.job.event)
               && r.input.timeoutMs == Some(k.job.timeoutMs) && r.input.memoryMb == Some(k.job.memoryMb))
  }

  lemma ResolvedByOwnRun(states: seq<State>, acts: seq<Action>, i: nat, c: Corr, o: Outcome)
    requires Behaviour(states, acts) && i < |states|
    requires c in states[i].api.calls && states[i].api.calls[c].promise == Resolved(o)
    ensures RanFor(states[i], c, o)
  {
    RunInv(states, acts, i);
    CallHolds(states, acts, i, c);
    var k, q := states[i].api.calls[c], states[i].q;
    var first := k.published[0];
    assert ReplyOk(q, k, first);
    assert AuthorOk(states[i].base, q, states[i].api.calls, first.id);
    RoundTrip(c, k.job);
    assert Result(first.turn, Decode(q.entries[first.id]), o) in q.tracks[first.id].results;
  }

  /** Reply integrity: the outcome an invoke returns came from running that invoke's own job. */
  lemma OwnOutcome(states: seq<State>, acts: seq<Action>, i: nat, c: Corr, o: Outcome)
    requires Behaviour(states, acts) && i < |states|
    requires c in states[i].api.calls && states[i].api.calls[c].phase == Finished(Answered(o))
    ensures RanFor(states[i], c, o)
  {
    CallHolds(states, acts, i, c);
    ResolvedByOwnRun(states, acts, i, c, o);
  }

  /** Two dispatches never answer each other: the run behind an answer is of an entry only that dispatch wrote. */
  lemma AnswersDoNotMix(states: seq<State>, acts: seq<Action>, i: nat, c: Corr, d: Corr, m: nat, n: nat)
    requires Behaviour(states, acts) && i < |states| && c in states[i].api.calls && d in states[i].api.calls
    requires m < |states[i].api.calls[c].published| && n < |states[i].api.calls[d].published|
    requires states[i].api.calls[c].published[m].id == states[i].api.calls[d].published[n].id
    ensures c == d
  {
    RunInv(states, acts, i);
    var q, calls := states[i].q, states[i].api.calls;
    assert ReplyOk(q, calls[c], calls[c].published[m]);
    assert ReplyOk(q, calls[d], calls[d].published[n]);
  }

  // ---- deadlines ----

  /** Timers are exact in this run: time does not move past the deadline of a registered waiter. */
  ghost predicate ExactTimers(states: seq<State>, acts: seq<Action>)
    requires Behaviour(states, acts)
  {
    forall i, c | 0 <= i < |acts| && acts[i].Tick? && c in states[i].api.waiters ::
      c in states[i].api.calls && states[i].now + acts[i].ms <= states[i].api.calls[c].deadline
  }

  ghost predicate Timely(k: Call, waiting: bool, now: nat) {
    && (waiting ==> now <= k.deadline)
    && (Settled(k.promise) ==> k.settledAt <= k.deadline)
  }

  ghost predicate InTime(s: State) {
    forall c | c in s.api.calls :: Timely(s.api.calls[c], c in s.api.waiters, s.now)
  }

  lemma CallInTime(cfg: Config, k: Call, waiting: bool, subscribed: bool, act: CallAct, now: nat, hash: Hash, next: nat)
    requires CallOk(cfg, k, waiting, subscribed, now) && ActEnabled(k, act, now) && Timely(k, waiting, now)
    ensures Timely(CallAfter(cfg, k, waiting, act, now, hash, next), WaitingAfter(waiting, act), now)
  {
  }

  lemma ServeInTime(s: State, c: Corr, act: CallAct)
    requires CallsOk(s.cfg, s.api, s.now) && Enabled(s, Serve(c, act)) && InTime(s)
    ensures InTime(Apply(s, Serve(c, act)))
  {
    var after := Served(s, c, act);
    if !act.Arrive? {
      CallInTime(s.cfg, s.api.calls[c], c in s.api.waiters, c in s.api.subs, act, s.now, s.registry, |s.q.entries|);
    }
    assert after.waiters - {c} == s.api.waiters - {c};
    forall d | d in after.calls
      ensures Timely(after.calls[d], d in after.waiters, s.now)
    {
      if d != c {
        assert d in after.waiters <==> d in after.waiters - {c};
        assert d in s.api.waiters <==> d in s.api.waiters - {c};
        assert Timely(s.api.calls[d], d in s.api.waiters, s.now);
      }
    }
  }

  lemma {:induction false} RunInTime(states: seq<State>, acts: seq<Action>, i: nat)
    requires Behaviour(states, acts) && ExactTimers(states, acts) && i < |states|
    ensures InTime(states[i])
  {
    if i > 0 {
      RunInTime(states, acts, i - 1);
      RunInv(states, acts, i - 1);
      var s := states[i - 1];
      match acts[i - 1]
      case Tick(ms) => assert forall c | c in s.api.waiters :: s.now + ms <= s.api.calls[c].deadline;
      case Work(w, act) => WorkInTime(s, w, act);
      case Serve(c, act) => ServeInTime(s, c, act);
    }
  }

  lemma WorkInTime(s: State, w: WorkerId, act: WorkerAct)
    requires Inv(s) && Enabled(s, Work(w, act)) && InTime(s)
    ensures InTime(Apply(s, Work(w, act)))
  {
    var t := Apply(s, Work(w, act));
    WorkApi(s, w, act);
    assert t.api.waiters == s.api.waiters;
    assert forall c | c in t.api.calls :: SameButReplies(s.api.calls[c], t.api.calls[c]);
  }

  lemma ReplyAge(base: nat, q: Queue, calls: map<Corr, Call>, gap: nat, now: nat, c: Corr, r: Reply)
    requires c in calls && ReplyOk(q, calls[c], r) && LinksOk(base, q, calls)
    requires TrackOk(q.tracks[r.id], gap, now)
    ensures calls[c].registeredAt + r.turn * gap <= r.at
  {
    assert AuthorOk(base, q, calls, r.id);
    DeliveriesApart(q.tracks[r.id], gap, now, 0, r.turn);
  }

  /** A promise resolved by the turn-th delivery was settled at least turn idle periods after it was made. */
  lemma AnswerTakesTurns(states: seq<State>, acts: seq<Action>, i: nat, c: Corr)
    requires Behaviour(states, acts) && i < |states|
    requires c in states[i].api.calls && states[i].api.calls[c].promise.Resolved?
    ensures var k := states[i].api.calls[c];
            k.published != [] && k.registeredAt + k.published[0].turn * states[i].cfg.claimIdleMs <= k.settledAt
  {
    RunInv(states, acts, i);
    CallHolds(states, acts, i, c);
    var s := states[i];
    var first := s.api.calls[c].published[0];
    assert ReplyOk(s.q, s.api.calls[c], first);
    assert TrackOk(s.q.tracks[first.id], s.cfg.claimIdleMs, s.now);
    ReplyAge(s.base, s.q, s.api.calls, s.cfg.claimIdleMs, s.now, c, first);
  }

  /**
   A waiter's deadline is the configured timeout after it was registered, or else the job's own
   timeout and 5000 ms.
   */
  lemma DeadlineIs(states: seq<State>, acts: seq<Action>, i: nat, c: Corr)
    requires Behaviour(states, acts) && i < |states|
    requires c in states[i].api.calls && !states[i].api.calls[c].promise.NotMade?
    ensures var k := states[i].api.calls[c];
            k.deadline == k.registeredAt +
              match states[i].cfg.dispatchTimeoutMs { case Some(ms) => ms case None => k.job.timeoutMs + 5000 }
  {
    CallHolds(states, acts, i, c);
  }

  /**
   Deadline arithmetic: with exact timers, the run that answers a dispatch fits its idle periods into
   the dispatch timeout.
   */
  lemma AnswerFitsDeadline(states: seq<State>, acts: seq<Action>, i: nat, c: Corr)
    requires Behaviour(states, acts) && ExactTimers(states, acts) && i < |states|
    requires c in states[i].api.calls && states[i].api.calls[c].promise.Resolved?
    ensures var k := states[i].api.calls[c];
            && k.published != []
            && k.published[0].turn * states[i].cfg.claimIdleMs <=
                 match states[i].cfg.dispatchTimeoutMs { case Some(ms) => ms case None => k.job.timeoutMs + 5000 }
  {
    AnswerTakesTurns(states, acts, i, c);
    RunInTime(states, acts, i);
    CallHolds(states, acts, i, c);
  }

  /** With the default constants a function of timeoutMs < 3000 is answered by its first delivery or not at all. */
  lemma ShortJobsFirstDelivery(states: seq<State>, acts: seq<Action>, i: nat, c: Corr)
    requires Behaviour(states, acts) && ExactTimers(states, acts) && i < |states|
    requires states[i].cfg == Config(8000, None)
    requires c in states[i].api.calls && states[i].api.calls[c].promise.Resolved?
    requires states[i].api.calls[c].job.timeoutMs < 3000
    ensures states[i].api.calls[c].published != [] && states[i].api.calls[c].published[0].turn == 0
  {
    AnswerFitsDeadline(states, acts, i, c);
  }

  // ---- rows ----

  /** c has one row, of this response's status, or none at all if the response is ServerError. */
  ghost predicate Booked(rows: seq<Row>, c: Corr, response: Response) {
    && (response != ServerError <==> exists n :: 0 <= n < |rows| && rows[n].corr == c)
    && (forall n | 0 <= n < |rows| && rows[n].corr == c :: Records(rows[n].status, response))
    && (forall m, n | 0 <= m < n < |rows| :: rows[m].corr == c ==> rows[n].corr != c)
  }

  /** A finished request wrote one row, of the status its caller saw, exactly when its registry read did not throw. */
  lemma OneRowEach(states: seq<State>, acts: seq<Action>, i: nat, c: Corr)
    requires Behaviour(states, acts) && i < |states|
    requires c in states[i].api.calls && states[i].api.calls[c].phase.Finished?
    ensures Booked(states[i].api.rows, c, states[i].api.calls[c].phase.response)
  {
    RunInv(states, acts, i);
    var api := states[i].api;
    forall n | 0 <= n < |api.rows| && api.rows[n].corr == c
      ensures api.calls[c].phase.response != ServerError && Records(api.rows[n].status, api.calls[c].phase.response)
    {
      assert api.rows[n] in api.rows;
    }
  }

  /** A request turned away for lack of capacity put nothing into the log and was never dispatched. */
  lemma BackpressureAppendsNothing(states: seq<State>, acts: seq<Action>, i: nat, c: Corr)
    requires Behaviour(states, acts) && i < |states|
    requires c in states[i].api.calls && states[i].api.calls[c].phase == Finished(NoCapacity)
    ensures forall id | 0 <= id < |states[i].q.tracks| :: states[i].q.tracks[id].author != Some(c)
    ensures c !in states[i].api.waiters && states[i].api.calls[c].promise.NotMade?
  {
    CallHolds(states, acts, i, c);
    SubscribeComesFirst(states, acts, i, c);
  }

  ghost function Recorded(api: Api): set<Corr> {
    set c | c in api.calls && HasRow(api.calls[c].phase)
  }

  lemma RecordedIsRows(api: Api, corrs: seq<Corr>)
    requires TableOk(api) && |corrs| == |api.rows|
    requires forall n | 0 <= n < |api.rows| :: corrs[n] == api.rows[n].corr
    ensures (set c | c in corrs) == Recorded(api)
  {
    forall c
      ensures c in corrs <==> c in Recorded(api)
    {
      if c in corrs {
        var n :| 0 <= n < |corrs| && corrs[n] == c;
        assert api.rows[n] in api.rows;
      }
      if c in Recorded(api) {
        var r :| r in api.rows && r.corr == c;
        var n :| 0 <= n < |api.rows| && api.rows[n] == r;
        assert corrs[n] == c;
      }
    }
  }

  /** The requests whose rows say status s. */
  ghost function RowsSaying(rows: seq<Row>, s: Status): (cs: set<Corr>)
    ensures forall c :: c in cs <==> exists n :: 0 <= n < |rows| && rows[n].corr == c && rows[n].status == s
  {
    if rows == [] then {}
    else
      assert forall n | 0 < n < |rows| :: rows[n] == rows[1..][n - 1];
      (if rows[0].status == s then {rows[0].corr} else {}) + RowsSaying(rows[1..], s)
  }

  lemma {:induction false} CountIsSize(rows: seq<Row>, s: Status)
    requires forall m, n | 0 <= m < n < |rows| :: rows[m].corr != rows[n].corr
    ensures Count(rows, s) == |RowsSaying(rows, s)|
  {
    if rows != [] {
      CountIsSize(rows[1..], s);
      assert rows[0].corr !in RowsSaying(rows[1..], s);
    }
  }

  /** The requests that finished with a response that status s stands for. */
  ghost function Ended(api: Api, s: Status): set<Corr> {
    set c | c in api.calls && HasRow(api.calls[c].phase) && Records(s, api.calls[c].phase.response)
  }

  lemma SayingIsEnded(api: Api, s: Status)
    requires TableOk(api)
    ensures RowsSaying(api.rows, s) == Ended(api, s)
  {
    forall c
      ensures c in RowsSaying(api.rows, s) <==> c in Ended(api, s)
    {
      if c in RowsSaying(api.rows, s) {
        var n :| 0 <= n < |api.rows| && api.rows[n].corr == c && api.rows[n].status == s;
        assert api.rows[n] in api.rows;
      }
      if c in Ended(api, s) {
        var r :| r in api.rows && r.corr == c;
        var n :| 0 <= n < |api.rows| && api.rows[n] == r;
        OneStatus(r.status, s, api.calls[c].phase.response);
      }
    }
  }

  lemma OneStatus(s: Status, t: Status, response: Response)
    requires Records(s, response) && Records(t, response) && response != ServerError
    ensures s == t
  {
  }

  /**
   Each status total is the number of finished requests with such a response, and the four sum to all
   that got to write a row.
   */
  lemma TotalsBalance(states: seq<State>, acts: seq<Action>, i: nat)
    requires Behaviour(states, acts) && i < |states|
    ensures var rows := states[i].api.rows;
            && (forall s: Status :: Count(rows, s) == |Ended(states[i].api, s)|)
            && Count(rows, SUCCESS) + Count(rows, ERROR) + Count(rows, TIMEOUT) + Count(rows, NO_WORKER)
                 == |Recorded(states[i].api)|
  {
    assert TableOk(states[i].api) by {
      RunInv(states, acts, i);
    }
    var rows := states[i].api.rows;
    var corrs := seq(|rows|, n requires 0 <= n < |rows| => rows[n].corr);
    CountsSum(rows);
    DistinctSize(corrs);
    RecordedIsRows(states[i].api, corrs);
    forall s: Status
      ensures Count(rows, s) == |Ended(states[i].api, s)|
    {
      CountIsSize(rows, s);
      SayingIsEnded(states[i].api, s);
    }
  }
}
