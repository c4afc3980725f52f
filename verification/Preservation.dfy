/** Every action keeps the invariant, and what each action leaves of the state before it. */
module Preservation {
  import opened Platform
  import opened Wire
  import opened InvocationStream
  import opened Registry
  import opened Calls
  import opened Protocol
  import opened Invariants

  // ---- a request's step ----

  lemma AppendLater(q: Queue, now: nat, fields: Fields, author: Option<Corr>)
    ensures Later(q, now, q.Append(fields, author, now))
  {
  }

  lemma AppendKeepsRuns(q: Queue, fields: Fields, author: Option<Corr>, now: nat)
    requires ResultsOk(q) && |q.tracks| == |q.entries|
    ensures ResultsOk(q.Append(fields, author, now))
  {
  }

  lemma AppendNoStarts(q: Queue, fields: Fields, author: Option<Corr>, now: nat, w: WorkerId)
    ensures StartsBy(q, q.Append(fields, author, now), w)
  {
  }

  ghost function Served(s: State, c: Corr, act: CallAct): Api
    requires CallEnabled(s.api, c, act, s.now)
  {
    CallStep(s.cfg, s.api, c, act, s.now, s.registry, |s.q.entries|)
  }

  lemma ServeApi(s: State, c: Corr, act: CallAct)
    requires CallsOk(s.cfg, s.api, s.now) && TableOk(s.api) && Enabled(s, Serve(c, act))
    ensures var api := Served(s, c, act);
            CallsOk(s.cfg, api, s.now) && TableOk(api) && RepliesGrow(s.api.calls, api.calls)
  {
    CallStepOk(s.cfg, s.api, c, act, s.now, s.registry, |s.q.entries|);
    if act.Record? {
      assert CallOk(s.cfg, s.api.calls[c], c in s.api.waiters, c in s.api.subs, s.now);
    }
    CallStepTableOk(s.cfg, s.api, c, act, s.now, s.registry, |s.q.entries|);
    CallStepLater(s.cfg, s.api, c, act, s.now, s.registry, |s.q.entries|);
  }

  ghost function ServedQueue(s: State, c: Corr, act: CallAct): Queue
    requires CallEnabled(s.api, c, act, s.now)
  {
    Apply(s, Serve(c, act)).q
  }

  lemma ServeQueue(s: State, c: Corr, act: CallAct)
    requires QueueOk(s.q, s.cfg.claimIdleMs, s.now) && ResultsOk(s.q) && Enabled(s, Serve(c, act))
    ensures var r := ServedQueue(s, c, act);
            QueueOk(r, s.cfg.claimIdleMs, s.now) && ResultsOk(r) && Later(s.q, s.now, r) && r.group == s.q.group
  {
    if Appends(act) {
      AppendLater(s.q, s.now, Encode(c, s.api.calls[c].job), Some(c));
      AppendOk(s.q, s.cfg.claimIdleMs, s.now, Encode(c, s.api.calls[c].job), Some(c));
      AppendKeepsRuns(s.q, Encode(c, s.api.calls[c].job), Some(c), s.now);
    } else {
      LaterSelf(s.q, s.now);
    }
  }

  /** A step that appends gives its own call the entry; any other leaves entry and log alone. */
  lemma ServeEntries(cfg: Config, k: Call, waiting: bool, subscribed: bool, act: CallAct, now: nat, hash: Hash,
                     next: nat)
    requires CallOk(cfg, k, waiting, subscribed, now) && ActEnabled(k, act, now)
    ensures var m := CallAfter(cfg, k, waiting, act, now, hash, next);
            && m.job == k.job && m.published == k.published
            && (if Appends(act) then k.entry.None? && !k.promise.NotMade? && m.entry == Some(next)
                else m.entry == k.entry)
            && (!k.promise.NotMade? ==> !m.promise.NotMade? && m.registeredAt == k.registeredAt)
  {
  }

  /** How the calls change: c as ServeEntries says, the others not at all. */
  lemma ServeCalls(s: State, c: Corr, act: CallAct)
    requires CallsOk(s.cfg, s.api, s.now) && Enabled(s, Serve(c, act))
    ensures var calls := Served(s, c, act).calls;
            && calls.Keys == s.api.calls.Keys + {c}
            && (forall d | d in s.api.calls && d != c :: calls[d] == s.api.calls[d])
            && (c !in s.api.calls ==> calls[c].entry.None? && calls[c].published == [] && !Appends(act))
            && (c in s.api.calls ==>
                  var k, m := s.api.calls[c], calls[c];
                  && m.job == k.job && m.published == k.published
                  && (if Appends(act) then k.entry.None? && !k.promise.NotMade? && m.entry == Some(|s.q.entries|)
                      else m.entry == k.entry)
                  && (!k.promise.NotMade? ==> !m.promise.NotMade? && m.registeredAt == k.registeredAt))
  {
    if !act.Arrive? {
      ServeEntries(s.cfg, s.api.calls[c], c in s.api.waiters, c in s.api.subs, act, s.now, s.registry, |s.q.entries|);
    }
  }

  lemma AppendLinks(base: nat, q: Queue, calls: map<Corr, Call>, c: Corr, after: map<Corr, Call>, now: nat)
    requires LinksOk(base, q, calls) && c in calls && IsUuid(c) && q.group.Some? && q.group.value.start <= |q.entries|
    requires after.Keys == calls.Keys && forall d | d in calls && d != c :: after[d] == calls[d]
    requires calls[c].entry.None? && after[c].entry == Some(|q.entries|) && after[c].job == calls[c].job
    requires !after[c].promise.NotMade? && after[c].registeredAt <= now
    ensures LinksOk(base, q.Append(Encode(c, calls[c].job), Some(c), now), after)
  {
    var r := q.Append(Encode(c, calls[c].job), Some(c), now);
    forall id | 0 <= id < |r.tracks|
      ensures AuthorOk(base, r, after, id)
    {
      if id < |q.tracks| {
        assert AuthorOk(base, q, calls, id);
      }
    }
    forall d | d in after && after[d].entry.Some?
      ensures after[d].entry.value < |r.tracks| && r.tracks[after[d].entry.value].author == Some(d)
    {
    }
  }

  lemma KeepLinks(base: nat, q: Queue, calls: map<Corr, Call>, c: Corr, after: map<Corr, Call>)
    requires LinksOk(base, q, calls)
    requires after.Keys == calls.Keys + {c} && forall d | d in calls && d != c :: after[d] == calls[d]
    requires c in calls ==>
               && after[c].entry == calls[c].entry && after[c].job == calls[c].job
               && (!calls[c].promise.NotMade? ==>
                     !after[c].promise.NotMade? && after[c].registeredAt == calls[c].registeredAt)
    requires c !in calls ==> after[c].entry.None?
    ensures LinksOk(base, q, after)
  {
    forall id | 0 <= id < |q.tracks|
      ensures AuthorOk(base, q, after, id)
    {
      assert AuthorOk(base, q, calls, id);
    }
  }

  lemma ServeLinks(s: State, c: Corr, act: CallAct)
    requires CallsOk(s.cfg, s.api, s.now) && LinksOk(s.base, s.q, s.api.calls) && GateOk(s.q, s.api.calls)
    requires QueueOk(s.q, s.cfg.claimIdleMs, s.now) && Enabled(s, Serve(c, act))
    ensures LinksOk(s.base, ServedQueue(s, c, act), Served(s, c, act).calls)
  {
    ServeCalls(s, c, act);
    if Appends(act) {
      assert CallOk(s.cfg, s.api.calls[c], c in s.api.waiters, c in s.api.subs, s.now);
      assert s.q.group.Some?;
      AppendLinks(s.base, s.q, s.api.calls, c, Served(s, c, act).calls, s.now);
    } else {
      KeepLinks(s.base, s.q, s.api.calls, c, Served(s, c, act).calls);
    }
  }

  lemma ServeReplies(s: State, c: Corr, act: CallAct)
    requires Inv(s) && Enabled(s, Serve(c, act))
    ensures RepliesOk(ServedQueue(s, c, act), Served(s, c, act).calls)
  {
    var r, calls := ServedQueue(s, c, act), Served(s, c, act).calls;
    ServeQueue(s, c, act);
    ServeCalls(s, c, act);
    forall d, i | d in calls && 0 <= i < |calls[d].published|
      ensures ReplyOk(r, calls[d], calls[d].published[i])
    {
      assert ReplyOk(s.q, s.api.calls[d], s.api.calls[d].published[i]);
      ReplyLater(s.q, s.now, s.api.calls[d], s.api.calls[d].published[i], r, calls[d]);
    }
  }

  /** Without a group the registry is empty, so a request's copy of it is, and no request is admitted. */
  lemma GateHolds(cfg: Config, k: Call, waiting: bool, act: CallAct, now: nat, next: nat)
    requires BehindGate(k.phase) && ActEnabled(k, act, now)
    ensures BehindGate(CallAfter(cfg, k, waiting, act, now, map[], next).phase)
  {
  }

  lemma ServeGate(s: State, c: Corr, act: CallAct)
    requires RegistryOk(s) && GateOk(s.q, s.api.calls) && Enabled(s, Serve(c, act))
    ensures GateOk(ServedQueue(s, c, act), Served(s, c, act).calls)
  {
    if s.q.group.None? && !act.Arrive? {
      assert s.registry == map[];
      GateHolds(s.cfg, s.api.calls[c], c in s.api.waiters, act, s.now, |s.q.entries|);
    }
  }

  lemma ServeFleet(s: State, c: Corr, act: CallAct, w: WorkerId)
    requires Inv(s) && Enabled(s, Serve(c, act)) && w in s.fleet
    ensures WorkerOk(ServedQueue(s, c, act), Served(s, c, act).calls, s.cfg.claimIdleMs, s.now, w, s.fleet[w])
  {
    ServeApi(s, c, act);
    ServeQueue(s, c, act);
    if Appends(act) {
      AppendNoStarts(s.q, Encode(c, s.api.calls[c].job), Some(c), s.now, w + 1);
    }
    BystanderOk(s.q, s.api.calls, s.cfg.claimIdleMs, s.now, w, s.fleet[w],
                ServedQueue(s, c, act), Served(s, c, act).calls, s.now, w + 1);
  }

  lemma ServeAcks(s: State, c: Corr, act: CallAct)
    requires Inv(s) && Enabled(s, Serve(c, act))
    ensures AcksOk(ServedQueue(s, c, act), Served(s, c, act).calls)
  {
    ServeApi(s, c, act);
    ServeQueue(s, c, act);
    AcksLater(s.q, s.api.calls, s.now, ServedQueue(s, c, act), Served(s, c, act).calls);
  }

  lemma ServeInv(s: State, c: Corr, act: CallAct)
    requires Inv(s) && Enabled(s, Serve(c, act))
    ensures Inv(Apply(s, Serve(c, act)))
  {
    ServeApi(s, c, act);
    ServeQueue(s, c, act);
    ServeLinks(s, c, act);
    ServeReplies(s, c, act);
    ServeGate(s, c, act);
    ServeAcks(s, c, act);
    forall w | w in s.fleet
      ensures WorkerOk(ServedQueue(s, c, act), Served(s, c, act).calls, s.cfg.claimIdleMs, s.now, w, s.fleet[w])
    {
      ServeFleet(s, c, act, w);
    }
  }

  // ---- a worker's step ----

  lemma WorkQueue(s: State, w: WorkerId, act: WorkerAct)
    requires Inv(s) && Enabled(s, Work(w, act))
    ensures var r := QueueAfter(s, w, act);
            QueueOk(r, s.cfg.claimIdleMs, s.now) && Later(s.q, s.now, r) && StartsBy(s.q, r, w)
  {
    var gap := s.cfg.claimIdleMs;
    if act.EnsureGroup? {
      CreateGroupOk(s.q, gap, s.now);
    } else if act.Claim? {
      var id := s.fleet[w].pc.sweep.rows[s.fleet[w].pc.next].id;
      if Claimable(s, id) {
        ClaimOk(s.q, gap, s.now, id, w);
        ClaimLater(s.q, gap, s.now, id, w);
      }
    } else if act.ReadNew? {
      ReadNewOk(s.q, gap, s.now, w);
      ReadNewLater(s.q, gap, s.now, w);
    } else if HandlesMessage(act) {
      assert WorkerOk(s.q, s.api.calls, gap, s.now, w, s.fleet[w]);
      HandleQueue(s, w, act);
    } else {
      LaterSelf(s.q, s.now);
      assert QueueAfter(s, w, act) == s.q;
    }
  }

  lemma HandleQueue(s: State, w: WorkerId, act: WorkerAct)
    requires QueueOk(s.q, s.cfg.claimIdleMs, s.now) && Enabled(s, Work(w, act)) && HandlesMessage(act)
    requires PcOk(s.q, s.api.calls, s.cfg.claimIdleMs, s.now, w, s.fleet[w].pc)
    ensures var r := QueueAfter(s, w, act);
            QueueOk(r, s.cfg.claimIdleMs, s.now) && Later(s.q, s.now, r) && StartsBy(s.q, r, w)
  {
    var gap := s.cfg.claimIdleMs;
    var t := s.fleet[w].pc.task;
    if act.Start? {
      BeginTurnOk(s.q, gap, s.now, t.id, t.turn);
      BeginLater(s.q, s.now, t.id, t.turn, w);
    } else if act.Finish? {
      var result := Result(t.turn, Decode(s.q.entries[t.id]), act.outcome);
      EndTurnOk(s.q, gap, s.now, t.id, result);
      EndLater(s.q, s.now, t.id, result, w);
    } else if act.Ack? {
      AckOk(s.q, gap, s.now, t.id);
      AckLater(s.q, s.now, t.id, w);
    } else {
      LaterSelf(s.q, s.now);
    }
  }

  lemma BeginLater(q: Queue, now: nat, id: nat, turn: nat, w: WorkerId)
    requires id < |q.tracks| && turn < |q.tracks[id].deliveries| && q.tracks[id].deliveries[turn].worker == w
    ensures Later(q, now, q.BeginTurn(id, turn)) && StartsBy(q, q.BeginTurn(id, turn), w)
  {
  }

  lemma EndLater(q: Queue, now: nat, id: nat, result: Result, w: WorkerId)
    requires id < |q.tracks|
    ensures Later(q, now, q.EndTurn(id, result)) && StartsBy(q, q.EndTurn(id, result), w)
  {
  }

  lemma AckLater(q: Queue, now: nat, id: nat, w: WorkerId)
    ensures Later(q, now, q.Ack(id)) && StartsBy(q, q.Ack(id), w)
  {
  }

  predicate HandlesMessage(act: WorkerAct) {
    act.Start? || act.Finish? || act.Publish? || act.Ack?
  }

  lemma ClaimLater(q: Queue, gap: nat, now: nat, id: nat, w: WorkerId)
    requires QueueOk(q, gap, now) && q.IsIdle(id, gap, now)
    ensures Later(q, now, q.Claim(id, w, now)) && StartsBy(q, q.Claim(id, w, now), w)
  {
    assert PlacedOk(q.group.value, id, q.tracks[id]);
  }

  lemma ReadNewLater(q: Queue, gap: nat, now: nat, w: WorkerId)
    requires QueueOk(q, gap, now) && q.CanRead()
    ensures Later(q, now, q.ReadNew(w, now)) && StartsBy(q, q.ReadNew(w, now), w)
  {
    assert PlacedOk(q.group.value, q.group.value.cursor, q.tracks[q.group.value.cursor]);
  }

  /** The channel a worker publishes on is that of the request that appended the entry. */
  lemma AuthorIsTarget(s: State, id: nat)
    requires Inv(s) && id < |s.q.tracks| && s.q.tracks[id].deliveries != []
    ensures s.q.tracks[id].author.Some?
    ensures Decode(s.q.entries[id]).corr == s.q.tracks[id].author
    ensures s.q.tracks[id].author.value in s.api.calls
    ensures s.api.calls[s.q.tracks[id].author.value].entry == Some(id)
  {
    assert AuthorOk(s.base, s.q, s.api.calls, id);
    assert PlacedOk(s.q.group.value, id, s.q.tracks[id]);
    var c := s.q.tracks[id].author.value;
    DecodeNames(c, s.api.calls[c].job);
  }

  lemma WorkApi(s: State, w: WorkerId, act: WorkerAct)
    requires Inv(s) && Enabled(s, Work(w, act))
    ensures var api := ApiAfter(s, w, act);
            && CallsOk(s.cfg, api, s.now) && TableOk(api) && RepliesGrow(s.api.calls, api.calls)
            && api.calls.Keys == s.api.calls.Keys
            && forall c | c in api.calls :: SameButReplies(s.api.calls[c], api.calls[c])
  {
    if act.Publish? {
      PublishIs(s, w, act.lost);
      var t := s.fleet[w].pc.task;
      var c := s.q.tracks[t.id].author.value;
      var reply := Reply(s.fleet[w].pc.outcome, t.id, t.turn, s.now);
      PublishOk(s.cfg, s.api, c, reply, s.now);
      PublishTableOk(s.api, c, reply);
      PublishOnlyAdds(s.api, c, reply);
    } else {
      assert ApiAfter(s, w, act) == s.api;
    }
  }

  lemma PublishOnlyAdds(api: Api, c: Corr, reply: Reply)
    ensures var after := Calls.Publish(api, c, reply);
            && RepliesGrow(api.calls, after.calls) && after.calls.Keys == api.calls.Keys
            && forall d | d in after.calls :: SameButReplies(api.calls[d], after.calls[d])
  {
  }

  /** A worker's PUBLISH goes to the dispatch that appended the entry. */
  lemma PublishIs(s: State, w: WorkerId, lost: bool)
    requires Inv(s) && Enabled(s, Work(w, Publish(lost)))
    ensures var t := s.fleet[w].pc.task;
            && t.id < |s.q.tracks| && t.turn < |s.q.tracks[t.id].deliveries|
            && s.q.tracks[t.id].author.Some?
            && var c := s.q.tracks[t.id].author.value;
            && c in s.api.calls && s.api.calls[c].entry == Some(t.id)
            && ApiAfter(s, w, Publish(lost)) == Calls.Publish(s.api, c, Reply(s.fleet[w].pc.outcome, t.id, t.turn, s.now))
  {
    assert WorkerOk(s.q, s.api.calls, s.cfg.claimIdleMs, s.now, w, s.fleet[w]);
    AuthorIsTarget(s, s.fleet[w].pc.task.id);
  }

  ghost predicate SameButReplies(k: Call, m: Call) {
    m.(published := k.published, inbox := k.inbox) == k
  }

  lemma PublishAdds(q: Queue, api: Api, c: Corr, reply: Reply)
    requires c in api.calls && reply.id < |q.tracks| && q.tracks[reply.id].author == Some(c)
    ensures WasPublished(q, Calls.Publish(api, c, reply).calls, reply.id, reply.turn, reply.outcome)
  {
    var after := Calls.Publish(api, c, reply).calls[c].published;
    assert after[|api.calls[c].published|] == reply;
  }

  /** Publishing leaves a reply for the run on the channel of the entry's dispatch. */
  lemma PublishLeavesReply(s: State, w: WorkerId, lost: bool)
    requires Inv(s) && Enabled(s, Work(w, Publish(lost)))
    ensures var t := s.fleet[w].pc.task;
            WasPublished(s.q, ApiAfter(s, w, Publish(lost)).calls, t.id, t.turn, s.fleet[w].pc.outcome)
  {
    PublishIs(s, w, lost);
    var t := s.fleet[w].pc.task;
    PublishAdds(s.q, s.api, s.q.tracks[t.id].author.value, Reply(s.fleet[w].pc.outcome, t.id, t.turn, s.now));
  }

  lemma PendingRowsOk(q: Queue, gap: nat, now: nat, from: nat, limit: nat)
    requires QueueOk(q, gap, now) && q.group.Some?
    ensures ListingOk(q, gap, now, q.PendingIdle(gap, now, from, limit), now)
  {
    var rows := q.PendingIdle(gap, now, from, limit);
    RowsFrom(q, gap, now, from, limit);
    forall j | 0 <= j < |rows|
      ensures StaleOk(q, gap, rows[j], now)
    {
      assert rows[j] in rows;
      assert PlacedOk(q.group.value, rows[j].id, q.tracks[rows[j].id]);
    }
  }

  /** A claim that is refused finds the entry acknowledged or delivered to someone in the meantime. */
  lemma RefusedIsDealt(s: State, row: Stale, at: nat)
    requires QueueOk(s.q, s.cfg.claimIdleMs, s.now) && StaleOk(s.q, s.cfg.claimIdleMs, row, at) && at <= s.now
    requires !Claimable(s, row.id)
    ensures Dealt(s.q, row)
  {
    assert PlacedOk(s.q.group.value, row.id, s.q.tracks[row.id]);
  }

  /** A claim attempted deals with its row, granted or refused. */
  lemma ClaimDeals(s: State, w: WorkerId, row: Stale, at: nat)
    requires QueueOk(s.q, s.cfg.claimIdleMs, s.now) && StaleOk(s.q, s.cfg.claimIdleMs, row, at) && at <= s.now
    ensures Dealt(if Claimable(s, row.id) then s.q.Claim(row.id, w, s.now) else s.q, row)
  {
    if !Claimable(s, row.id) {
      RefusedIsDealt(s, row, at);
    }
  }

  lemma ClaimMoves(s: State, w: WorkerId, id: nat)
    requires QueueOk(s.q, s.cfg.claimIdleMs, s.now) && id < |s.q.tracks|
    ensures var r := if Claimable(s, id) then s.q.Claim(id, w, s.now) else s.q;
            && Later(s.q, s.now, r) && |r.tracks| == |s.q.tracks|
            && (Claimable(s, id) ==>
                  && r.tracks[id].deliveries == s.q.tracks[id].deliveries + [Delivery(w, s.now)]
                  && |s.q.tracks[id].deliveries| !in r.tracks[id].starts)
  {
    if Claimable(s, id) {
      ClaimLater(s.q, s.cfg.claimIdleMs, s.now, id, w);
      assert TrackOk(s.q.tracks[id], s.cfg.claimIdleMs, s.now);
    } else {
      LaterSelf(s.q, s.now);
    }
  }

  lemma ClaimSelf(s: State, w: WorkerId, lost: bool)
    requires QueueOk(s.q, s.cfg.claimIdleMs, s.now) && Enabled(s, Work(w, Claim(lost)))
    requires PcOk(s.q, s.api.calls, s.cfg.claimIdleMs, s.now, w, s.fleet[w].pc)
    ensures var r := QueueAfter(s, w, Claim(lost));
            PcOk(r, s.api.calls, s.cfg.claimIdleMs, s.now, w, WorkerAfter(s, w, Claim(lost)).pc)
  {
    var gap := s.cfg.claimIdleMs;
    var sweep, next := s.fleet[w].pc.sweep, s.fleet[w].pc.next;
    var row := sweep.rows[next];
    var r := if Claimable(s, row.id) then s.q.Claim(row.id, w, s.now) else s.q;
    ClaimMoves(s, w, row.id);
    assert StaleOk(s.q, gap, row, sweep.at);
    ClaimDeals(s, w, row, sweep.at);
    SweepLater(s.q, gap, s.now, w, sweep, next, r, s.now);
    NextRow(r, gap, s.now, w, sweep, next);
  }

  lemma NextRow(q: Queue, gap: nat, now: nat, w: WorkerId, sweep: Sweep, next: nat)
    requires SweepOk(q, gap, now, w, sweep, next) && next < |sweep.rows| && Dealt(q, sweep.rows[next])
    ensures SweepOk(q, gap, now, w, sweep, next + 1)
  {
  }

  lemma ReadSelf(s: State, w: WorkerId, lost: bool)
    requires QueueOk(s.q, s.cfg.claimIdleMs, s.now) && Enabled(s, Work(w, ReadNew(lost)))
    ensures var r := QueueAfter(s, w, ReadNew(lost));
            PcOk(r, s.api.calls, s.cfg.claimIdleMs, s.now, w, WorkerAfter(s, w, ReadNew(lost)).pc)
  {
    var id := s.q.group.value.cursor;
    assert PlacedOk(s.q.group.value, id, s.q.tracks[id]);
    assert TrackOk(s.q.tracks[id], s.cfg.claimIdleMs, s.now);
  }

  lemma StartSelf(q: Queue, calls: map<Corr, Call>, gap: nat, now: nat, w: WorkerId, t: Task)
    requires PcOk(q, calls, gap, now, w, Received(t))
    ensures PcOk(q.BeginTurn(t.id, t.turn), calls, gap, now, w, Executing(t))
  {
    BeginLater(q, now, t.id, t.turn, w);
    TaskLater(q, gap, now, w, t, q.BeginTurn(t.id, t.turn), now);
  }

  lemma FinishSelf(q: Queue, calls: map<Corr, Call>, gap: nat, now: nat, w: WorkerId, t: Task, o: Outcome)
    requires PcOk(q, calls, gap, now, w, Executing(t)) && t.id < |q.entries|
    ensures PcOk(q.EndTurn(t.id, Result(t.turn, Decode(q.entries[t.id]), o)), calls, gap, now, w, Executed(t, o))
  {
    var result := Result(t.turn, Decode(q.entries[t.id]), o);
    EndLater(q, now, t.id, result, w);
    TaskLater(q, gap, now, w, t, q.EndTurn(t.id, result), now);
  }

  lemma AckSelf(q: Queue, calls: map<Corr, Call>, gap: nat, now: nat, w: WorkerId, t: Task, o: Outcome)
    requires PcOk(q, calls, gap, now, w, Published(t, o))
    ensures PcOk(q.Ack(t.id), calls, gap, now, w, Back(t.back))
  {
    AckLater(q, now, t.id, w);
    TaskLater(q, gap, now, w, t, q.Ack(t.id), now);
  }

  lemma PublishSelf(s: State, w: WorkerId, lost: bool, calls: map<Corr, Call>)
    requires Enabled(s, Work(w, Publish(lost)))
    requires PcOk(s.q, s.api.calls, s.cfg.claimIdleMs, s.now, w, s.fleet[w].pc)
    requires WasPublished(s.q, calls, s.fleet[w].pc.task.id, s.fleet[w].pc.task.turn, s.fleet[w].pc.outcome)
    ensures PcOk(s.q, calls, s.cfg.claimIdleMs, s.now, w, WorkerAfter(s, w, Publish(lost)).pc)
  {
  }

  lemma HandleSelf(s: State, w: WorkerId, act: WorkerAct)
    requires Enabled(s, Work(w, act)) && HandlesMessage(act) && !act.Publish?
    requires PcOk(s.q, s.api.calls, s.cfg.claimIdleMs, s.now, w, s.fleet[w].pc)
    ensures PcOk(QueueAfter(s, w, act), s.api.calls, s.cfg.claimIdleMs, s.now, w, WorkerAfter(s, w, act).pc)
  {
    var pc, gap := s.fleet[w].pc, s.cfg.claimIdleMs;
    match act
    case Start => StartSelf(s.q, s.api.calls, gap, s.now, w, pc.task);
    case Finish(o) => FinishSelf(s.q, s.api.calls, gap, s.now, w, pc.task, o);
    case Ack(_) => AckSelf(s.q, s.api.calls, gap, s.now, w, pc.task, pc.outcome);
  }

  predicate Sweeps(act: WorkerAct) {
    act.ReadPending? || act.ReadRegistry? || act.Judge? || act.Skip? || act.EndSweep?
  }

  lemma SweepSelf(s: State, w: WorkerId, act: WorkerAct)
    requires QueueOk(s.q, s.cfg.claimIdleMs, s.now) && Enabled(s, Work(w, act)) && Sweeps(act)
    requires PcOk(s.q, s.api.calls, s.cfg.claimIdleMs, s.now, w, s.fleet[w].pc)
    ensures PcOk(s.q, s.api.calls, s.cfg.claimIdleMs, s.now, w, WorkerAfter(s, w, act).pc)
  {
    if act.ReadPending? {
      PendingRowsOk(s.q, s.cfg.claimIdleMs, s.now, s.q.group.value.start, SWEEP_LIMIT);
    }
  }

  /** Whatever else a worker does leaves its pc as it is or at a place about which nothing is claimed. */
  lemma OtherSelf(s: State, w: WorkerId, act: WorkerAct)
    requires Enabled(s, Work(w, act)) && !HandlesMessage(act) && !Sweeps(act) && !act.Claim? && !act.ReadNew?
    ensures var pc := WorkerAfter(s, w, act).pc;
            (w in s.fleet && pc == s.fleet[w].pc) || pc.Booting? || pc.GroupReady? || pc.FirstBeat? || pc.LoopHead?
            || pc.Listing? || pc.LoopLeft? || pc.Gone?
  {
  }

  lemma PlainPc(s: State, w: WorkerId, act: WorkerAct)
    requires QueueOk(s.q, s.cfg.claimIdleMs, s.now) && Enabled(s, Work(w, act))
    requires w in s.fleet ==> PcOk(s.q, s.api.calls, s.cfg.claimIdleMs, s.now, w, s.fleet[w].pc)
    requires !act.Claim? && !act.ReadNew? && !act.Publish?
    ensures PcOk(QueueAfter(s, w, act), s.api.calls, s.cfg.claimIdleMs, s.now, w, WorkerAfter(s, w, act).pc)
  {
    if HandlesMessage(act) {
      HandleSelf(s, w, act);
    } else if Sweeps(act) {
      SweepSelf(s, w, act);
    } else {
      OtherSelf(s, w, act);
      if !act.EnsureGroup? {
        assert QueueAfter(s, w, act) == s.q;
      }
    }
  }

  lemma WorkPc(s: State, w: WorkerId, act: WorkerAct)
    requires Inv(s) && Enabled(s, Work(w, act))
    ensures PcOk(QueueAfter(s, w, act), ApiAfter(s, w, act).calls, s.cfg.claimIdleMs, s.now, w, WorkerAfter(s, w, act).pc)
  {
    PcBefore(s, w);
    if act.Claim? {
      ClaimSelf(s, w, act.lost);
    } else if act.ReadNew? {
      ReadSelf(s, w, act.lost);
    } else if act.Publish? {
      PublishLeavesReply(s, w, act.lost);
      PublishSelf(s, w, act.lost, ApiAfter(s, w, act).calls);
    } else {
      PlainPc(s, w, act);
    }
  }

  lemma PcBefore(s: State, w: WorkerId)
    requires FleetOk(s)
    ensures w in s.fleet ==> PcOk(s.q, s.api.calls, s.cfg.claimIdleMs, s.now, w, s.fleet[w].pc)
  {
    if w in s.fleet {
      assert WorkerOk(s.q, s.api.calls, s.cfg.claimIdleMs, s.now, w, s.fleet[w]);
    }
  }

  /** The acts that change what FieldsOk says of inFlight and of the heartbeats on their way. */
  predicate Counts(act: WorkerAct) {
    act.Start? || act.Finish? || act.SampleBeat? || act.LandBeat? || act.LoseBeat?
  }

  lemma CountFields(s: State, w: WorkerId, act: WorkerAct)
    requires Enabled(s, Work(w, act)) && Counts(act) && FieldsOk(s.fleet[w], s.q.group.Some?, s.now)
    ensures FieldsOk(WorkerAfter(s, w, act), s.q.group.Some?, s.now)
  {
  }

  lemma OtherFields(s: State, w: WorkerId, act: WorkerAct)
    requires Enabled(s, Work(w, act)) && !Counts(act)
    requires w in s.fleet ==> FieldsOk(s.fleet[w], s.q.group.Some?, s.now)
    ensures FieldsOk(WorkerAfter(s, w, act), act.EnsureGroup? || s.q.group.Some?, s.now)
  {
  }

  lemma GroupAfter(s: State, w: WorkerId, act: WorkerAct)
    requires Enabled(s, Work(w, act))
    ensures QueueAfter(s, w, act).group.Some? <==> act.EnsureGroup? || s.q.group.Some?
  {
  }

  lemma WorkFields(s: State, w: WorkerId, act: WorkerAct)
    requires Enabled(s, Work(w, act))
    requires w in s.fleet ==> FieldsOk(s.fleet[w], s.q.group.Some?, s.now)
    ensures FieldsOk(WorkerAfter(s, w, act), QueueAfter(s, w, act).group.Some?, s.now)
  {
    GroupAfter(s, w, act);
    if Counts(act) {
      CountFields(s, w, act);
    } else {
      OtherFields(s, w, act);
    }
  }

  lemma WorkSelf(s: State, w: WorkerId, act: WorkerAct)
    requires Inv(s) && Enabled(s, Work(w, act))
    ensures WorkerOk(QueueAfter(s, w, act), ApiAfter(s, w, act).calls, s.cfg.claimIdleMs, s.now, w, WorkerAfter(s, w, act))
  {
    WorkPc(s, w, act);
    if w in s.fleet {
      assert WorkerOk(s.q, s.api.calls, s.cfg.claimIdleMs, s.now, w, s.fleet[w]);
    }
    WorkFields(s, w, act);
  }

  predicate ChangesPel(act: WorkerAct) {
    act.Claim? || act.ReadNew? || act.Ack?
  }

  lemma WorkOwners(s: State, w: WorkerId, act: WorkerAct)
    requires QueueOk(s.q, s.cfg.claimIdleMs, s.now) && OwnersOk(s.q, s.fleet) && Enabled(s, Work(w, act))
    ensures OwnersOk(QueueAfter(s, w, act), s.fleet[w := WorkerAfter(s, w, act)])
  {
    if ChangesPel(act) {
      PelOwners(s, w, act);
    } else {
      KeptOwners(s, w, act);
    }
  }

  lemma PelOwners(s: State, w: WorkerId, act: WorkerAct)
    requires QueueOk(s.q, s.cfg.claimIdleMs, s.now) && OwnersOk(s.q, s.fleet)
    requires Enabled(s, Work(w, act)) && ChangesPel(act)
    ensures OwnersOk(QueueAfter(s, w, act), s.fleet[w := WorkerAfter(s, w, act)])
  {
  }

  lemma KeptOwners(s: State, w: WorkerId, act: WorkerAct)
    requires OwnersOk(s.q, s.fleet) && Enabled(s, Work(w, act)) && !ChangesPel(act)
    ensures OwnersOk(QueueAfter(s, w, act), s.fleet[w := WorkerAfter(s, w, act)])
  {
    var r, wk := QueueAfter(s, w, act), WorkerAfter(s, w, act);
    assert s.q.group.Some? ==> r.group == s.q.group;
    if w in s.fleet {
      assert forall id :: Holds(s.fleet[w].pc, id) && !wk.faulted ==> Holds(wk.pc, id);
    }
  }

  lemma WorkLinks(s: State, w: WorkerId, act: WorkerAct)
    requires Inv(s) && Enabled(s, Work(w, act))
    ensures LinksOk(s.base, QueueAfter(s, w, act), ApiAfter(s, w, act).calls)
  {
    var r, calls := QueueAfter(s, w, act), ApiAfter(s, w, act).calls;
    WorkQueue(s, w, act);
    WorkApi(s, w, act);
    assert |r.tracks| == |s.q.tracks| && r.entries == s.q.entries;
    forall id | 0 <= id < |r.tracks|
      ensures AuthorOk(s.base, r, calls, id)
    {
      assert TrackLater(s.q.tracks[id], s.now, r.tracks[id]);
      assert AuthorOk(s.base, s.q, s.api.calls, id);
      if s.q.tracks[id].author.Some? {
        assert SameButReplies(s.api.calls[s.q.tracks[id].author.value], calls[s.q.tracks[id].author.value]);
      }
    }
    forall c | c in calls && calls[c].entry.Some?
      ensures calls[c].entry.value < |r.tracks| && r.tracks[calls[c].entry.value].author == Some(c)
    {
      assert SameButReplies(s.api.calls[c], calls[c]);
      assert TrackLater(s.q.tracks[calls[c].entry.value], s.now, r.tracks[calls[c].entry.value]);
    }
  }

  lemma PublishReplies(q: Queue, api: Api, c: Corr, reply: Reply)
    requires RepliesOk(q, api.calls) && c in api.calls && ReplyOk(q, api.calls[c], reply)
    ensures RepliesOk(q, Calls.Publish(api, c, reply).calls)
  {
    var calls := Calls.Publish(api, c, reply).calls;
    forall d, i | d in calls && 0 <= i < |calls[d].published|
      ensures ReplyOk(q, calls[d], calls[d].published[i])
    {
      if i < |api.calls[d].published| {
        assert ReplyOk(q, api.calls[d], api.calls[d].published[i]);
      }
    }
  }

  lemma RanReplyOk(q: Queue, gap: nat, now: nat, w: WorkerId, t: Task, o: Outcome, k: Call)
    requires QueueOk(q, gap, now) && TaskOk(q, gap, now, w, t) && Ran(q, t, o) && k.entry == Some(t.id)
    ensures ReplyOk(q, k, Reply(o, t.id, t.turn, now))
  {
    assert TrackOk(q.tracks[t.id], gap, now);
  }

  /** What a worker about to publish brings with it. */
  lemma ReplyInHand(s: State, w: WorkerId, lost: bool)
    requires Inv(s) && Enabled(s, Work(w, Publish(lost)))
    ensures QueueOk(s.q, s.cfg.claimIdleMs, s.now) && RepliesOk(s.q, s.api.calls)
    ensures var pc := s.fleet[w].pc;
            TaskOk(s.q, s.cfg.claimIdleMs, s.now, w, pc.task) && Ran(s.q, pc.task, pc.outcome)
  {
    PcBefore(s, w);
  }

  lemma PublishKeeps(q: Queue, api: Api, gap: nat, now: nat, w: WorkerId, t: Task, o: Outcome, c: Corr)
    requires QueueOk(q, gap, now) && RepliesOk(q, api.calls) && TaskOk(q, gap, now, w, t) && Ran(q, t, o)
    requires c in api.calls && api.calls[c].entry == Some(t.id)
    ensures RepliesOk(q, Calls.Publish(api, c, Reply(o, t.id, t.turn, now)).calls)
  {
    RanReplyOk(q, gap, now, w, t, o, api.calls[c]);
    PublishReplies(q, api, c, Reply(o, t.id, t.turn, now));
  }

  lemma PublishKeepsReplies(s: State, w: WorkerId, lost: bool)
    requires Inv(s) && Enabled(s, Work(w, Publish(lost)))
    ensures RepliesOk(s.q, ApiAfter(s, w, Publish(lost)).calls)
  {
    PublishIs(s, w, lost);
    ReplyInHand(s, w, lost);
    var pc := s.fleet[w].pc;
    PublishKeeps(s.q, s.api, s.cfg.claimIdleMs, s.now, w, pc.task, pc.outcome, s.q.tracks[pc.task.id].author.value);
  }

  lemma WorkReplies(s: State, w: WorkerId, act: WorkerAct)
    requires Inv(s) && Enabled(s, Work(w, act))
    ensures RepliesOk(QueueAfter(s, w, act), ApiAfter(s, w, act).calls)
  {
    if act.Publish? {
      PublishKeepsReplies(s, w, act.lost);
    } else {
      WorkQueue(s, w, act);
      RepliesLater(s.q, s.api.calls, s.now, QueueAfter(s, w, act));
      assert ApiAfter(s, w, act) == s.api;
    }
  }

  lemma AckAcks(q: Queue, calls: map<Corr, Call>, now: nat, id: nat, turn: nat, o: Outcome)
    requires AcksOk(q, calls) && WasPublished(q, calls, id, turn, o)
    ensures AcksOk(q.Ack(id), calls)
  {
    var r := q.Ack(id);
    AckLater(q, now, id, 0);
    forall m | 0 <= m < |r.tracks| && r.tracks[m].acked
      ensures exists turn, o :: WasPublished(r, calls, m, turn, o)
    {
      if m == id {
        PublishedLater(q, calls, now, m, turn, o, r, calls);
      } else {
        var turn', o' :| WasPublished(q, calls, m, turn', o');
        PublishedLater(q, calls, now, m, turn', o', r, calls);
      }
    }
  }

  lemma WorkAcks(s: State, w: WorkerId, act: WorkerAct)
    requires Inv(s) && Enabled(s, Work(w, act))
    ensures AcksOk(QueueAfter(s, w, act), ApiAfter(s, w, act).calls)
  {
    if act.Ack? {
      var wk := s.fleet[w];
      assert WorkerOk(s.q, s.api.calls, s.cfg.claimIdleMs, s.now, w, wk);
      AckAcks(s.q, s.api.calls, s.now, wk.pc.task.id, wk.pc.task.turn, wk.pc.outcome);
    } else {
      WorkQueue(s, w, act);
      WorkApi(s, w, act);
      WorkNoAcks(s, w, act);
      AcksLater(s.q, s.api.calls, s.now, QueueAfter(s, w, act), ApiAfter(s, w, act).calls);
    }
  }

  lemma WorkNoAcks(s: State, w: WorkerId, act: WorkerAct)
    requires Enabled(s, Work(w, act)) && !act.Ack? && QueueOk(s.q, s.cfg.claimIdleMs, s.now)
    ensures var r := QueueAfter(s, w, act);
            |r.tracks| == |s.q.tracks| && forall id | 0 <= id < |r.tracks| :: r.tracks[id].acked == s.q.tracks[id].acked
  {
  }

  lemma EndTurnResults(q: Queue, id: nat, result: Result)
    requires ResultsOk(q) && id < |q.tracks| && id < |q.entries| && result.input == Decode(q.entries[id])
    requires result.input.event.None? ==> result.outcome.Failure? && result.outcome.durationMs == 0
    ensures ResultsOk(q.EndTurn(id, result))
  {
  }

  lemma WorkResults(s: State, w: WorkerId, act: WorkerAct)
    requires QueueOk(s.q, s.cfg.claimIdleMs, s.now) && ResultsOk(s.q) && Enabled(s, Work(w, act))
    ensures ResultsOk(QueueAfter(s, w, act))
  {
    if act.Finish? {
      var t := s.fleet[w].pc.task;
      EndTurnResults(s.q, t.id, Result(t.turn, Decode(s.q.entries[t.id]), act.outcome));
    } else {
      SameResults(s, w, act);
    }
  }

  lemma SameResults(s: State, w: WorkerId, act: WorkerAct)
    requires ResultsOk(s.q) && |s.q.tracks| == |s.q.entries| && Enabled(s, Work(w, act)) && !act.Finish?
    ensures ResultsOk(QueueAfter(s, w, act))
  {
    var r := QueueAfter(s, w, act);
    assert r.entries == s.q.entries && |r.tracks| == |s.q.tracks|;
    assert forall id | 0 <= id < |r.tracks| :: r.tracks[id].results == s.q.tracks[id].results;
    assert forall id | 0 <= id < |r.tracks| :: ResultsOf(s.q.tracks[id], s.q.entries[id]);
  }

  lemma WorkRegistry(s: State, w: WorkerId, act: WorkerAct)
    requires Inv(s) && Enabled(s, Work(w, act))
    ensures RegistryOk(Apply(s, Work(w, act)))
  {
    if w in s.fleet {
      assert WorkerOk(s.q, s.api.calls, s.cfg.claimIdleMs, s.now, w, s.fleet[w]);
    }
  }

  lemma WorkBystanders(s: State, w: WorkerId, act: WorkerAct)
    requires Inv(s) && Enabled(s, Work(w, act))
    ensures forall v | v in s.fleet && v != w ::
              WorkerOk(QueueAfter(s, w, act), ApiAfter(s, w, act).calls, s.cfg.claimIdleMs, s.now, v, s.fleet[v])
  {
    WorkQueue(s, w, act);
    WorkApi(s, w, act);
    forall v | v in s.fleet && v != w
      ensures WorkerOk(QueueAfter(s, w, act), ApiAfter(s, w, act).calls, s.cfg.claimIdleMs, s.now, v, s.fleet[v])
    {
      BystanderOk(s.q, s.api.calls, s.cfg.claimIdleMs, s.now, v, s.fleet[v],
                  QueueAfter(s, w, act), ApiAfter(s, w, act).calls, s.now, w);
    }
  }

  lemma WorkInv(s: State, w: WorkerId, act: WorkerAct)
    requires Inv(s) && Enabled(s, Work(w, act))
    ensures Inv(Apply(s, Work(w, act)))
  {
    WorkQueue(s, w, act);
    WorkApi(s, w, act);
    WorkSelf(s, w, act);
    WorkBystanders(s, w, act);
    WorkOwners(s, w, act);
    WorkRegistry(s, w, act);
    WorkLinks(s, w, act);
    WorkReplies(s, w, act);
    WorkAcks(s, w, act);
    WorkResults(s, w, act);
  }

  // ---- every action, every run ----

  lemma StepInv(s: State, a: Action)
    requires Inv(s) && Enabled(s, a)
    ensures Inv(Apply(s, a))
  {
    match a
    case Tick(ms) => TickInv(s, ms);
    case Work(w, act) => WorkInv(s, w, act);
    case Serve(c, act) => ServeInv(s, c, act);
  }

  /** Every state of every run satisfies the invariant. */
  lemma {:induction false} RunInv(states: seq<State>, acts: seq<Action>, i: nat)
    requires Behaviour(states, acts) && i < |states|
    ensures Inv(states[i])
  {
    if i == 0 {
      InitInv(states[0]);
    } else {
      RunInv(states, acts, i - 1);
      StepInv(states[i - 1], acts[i - 1]);
    }
  }
}
