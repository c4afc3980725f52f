/**
 Every job in the log can still be begun: from any reachable state, whatever has crashed or failed
 so far, the protocol has a way to go on in which the job's handling starts.
 */
module Progress {
  import opened Platform
  import opened InvocationStream
  import opened Registry
  import opened Protocol
  import opened Invariants
  import opened Preservation
  import opened History

  // ---- ways to go on ----

  /** Taking these steps leads from s to t. */
  ghost predicate Leads(s: State, path: seq<Action>, t: State)
    decreases |path|
  {
    if path == [] then s == t
    else Enabled(s, path[0]) && Leads(Apply(s, path[0]), path[1..], t)
  }

  lemma {:induction false} LeadsOn(s: State, path: seq<Action>, t: State, more: seq<Action>, u: State)
    requires Leads(s, path, t) && Leads(t, more, u)
    ensures Leads(s, path + more, u)
    decreases |path|
  {
    if path == [] {
      assert path + more == more;
    } else {
      LeadsOn(Apply(s, path[0]), path[1..], t, more, u);
      assert (path + more)[1..] == path[1..] + more;
    }
  }

  /** One step more. */
  lemma Next(s: State, path: seq<Action>, t: State, a: Action)
    requires Leads(s, path, t) && Enabled(t, a)
    ensures Leads(s, path + [a], Apply(t, a))
  {
    assert Leads(Apply(t, a), [], Apply(t, a));
    assert [a][1..] == [];
    LeadsOn(s, path, t, [a], Apply(t, a));
  }

  lemma {:induction false} LeadsInv(s: State, path: seq<Action>, t: State)
    requires Inv(s) && Leads(s, path, t)
    ensures Inv(t)
    decreases |path|
  {
    if path != [] {
      StepInv(s, path[0]);
      LeadsInv(Apply(s, path[0]), path[1..], t);
    }
  }

  /** A run can be continued along any path from its end. */
  lemma {:induction false} Continue(states: seq<State>, acts: seq<Action>, path: seq<Action>, t: State)
    returns (states': seq<State>, acts': seq<Action>)
    requires Behaviour(states, acts) && Leads(states[|acts|], path, t)
    ensures Behaviour(states', acts') && states <= states' && acts <= acts' && states'[|acts'|] == t
    decreases |path|
  {
    states', acts' := states, acts;
    if path != [] {
      var u := Apply(states[|acts|], path[0]);
      ExtendRun(states, acts, path[0], u);
      states', acts' := Continue(states + [u], acts + [path[0]], path[1..], t);
    }
  }

  // ---- a worker with nobody in its way ----

  ghost predicate At(s: State, w: WorkerId, pc: Pc) {
    w in s.fleet && s.fleet[w].alive && s.fleet[w].running && s.fleet[w].pc == pc
  }

  /** Nobody else is healthy, and every pending entry but those besides is another's and idle. */
  ghost predicate Quiet(s: State, w: WorkerId, besides: set<nat>) {
    && s.q.group.Some?
    && (forall v | v in s.registry && v != w :: !Fresh(s.registry[v], s.now))
    && (forall id | id in s.q.group.value.pel && id !in besides ::
          s.q.group.value.pel[id].owner != w && s.q.IsIdle(id, s.cfg.claimIdleMs, s.now))
  }

  /** The log and what has been acknowledged of it are the same. */
  ghost predicate SameAcks(q: Queue, r: Queue) {
    && |r.tracks| == |q.tracks| && AckedIds(r) == AckedIds(q)
    && q.group.Some? && r.group.Some? && r.group.value.start == q.group.value.start
  }

  lemma SomeRow(q: Queue, idle: nat, now: nat, from: nat, limit: nat, id: nat)
    requires q.group.Some? && limit > 0 && from <= id < q.group.value.cursor && q.IsIdle(id, idle, now)
    ensures q.PendingIdle(idle, now, from, limit) != []
    decreases q.group.value.cursor - from
  {
    if !q.IsIdle(from, idle, now) {
      SomeRow(q, idle, now, from + 1, limit, id);
    }
  }

  /** The first row listed is of the lowest idle id. */
  lemma {:induction false} FirstRowIsLowest(q: Queue, idle: nat, now: nat, from: nat, limit: nat, n: nat)
    requires q.group.Some? && q.PendingIdle(idle, now, from, limit) != []
    requires from <= n < q.PendingIdle(idle, now, from, limit)[0].id
    ensures !q.IsIdle(n, idle, now)
    decreases q.group.value.cursor - from
  {
    if n != from && !q.IsIdle(from, idle, now) {
      FirstRowIsLowest(q, idle, now, from + 1, limit, n);
    }
  }

  /** Every entry of the group below x has been acknowledged. */
  ghost predicate LowerAcked(q: Queue, x: nat)
    requires q.group.Some?
  {
    forall n: nat | q.group.value.start <= n < x :: n in AckedIds(q)
  }

  /** Entries delivered and no longer pending are acknowledged. */
  lemma NotPendingIsAcked(s: State, x: nat)
    requires Inv(s) && s.q.group.Some? && x <= s.q.group.value.cursor
    requires forall n: nat | s.q.group.value.start <= n < x :: n !in s.q.group.value.pel
    ensures LowerAcked(s.q, x)
  {
    forall n: nat | s.q.group.value.start <= n < x
      ensures n in AckedIds(s.q)
    {
      assert PlacedOk(s.q.group.value, n, s.q.tracks[n]);
    }
  }

  /** Steps that change neither log nor registry keep the peace. */
  lemma QuietStep(s: State, w: WorkerId, act: WorkerAct, besides: set<nat>)
    requires Enabled(s, Work(w, act)) && Quiet(s, w, besides)
    requires act.Enter? || act.ReadPending? || act.ReadRegistry? || act.Judge?
    ensures var t := Apply(s, Work(w, act));
            t == s.(fleet := s.fleet[w := WorkerAfter(s, w, act)]) && Quiet(t, w, besides)
  {
  }

  /** At its loop head, w lists what is pending and idle. */
  lemma Lists(s: State, w: WorkerId) returns (path: seq<Action>, t: State)
    requires At(s, w, LoopHead) && Quiet(s, w, {})
    ensures Leads(s, path, t)
    ensures var rows := s.q.PendingIdle(s.cfg.claimIdleMs, s.now, s.q.group.value.start, SWEEP_LIMIT);
            && At(t, w, if rows == [] then Reading else SawPending(rows, s.now))
            && t == s.(fleet := t.fleet) && Quiet(t, w, {})
  {
    assert Leads(s, [], s);
    QuietStep(s, w, Enter, {});
    Next(s, [], s, Work(w, Enter));
    var a := Apply(s, Work(w, Enter));
    QuietStep(a, w, ReadPending, {});
    Next(s, [] + [Work(w, Enter)], a, Work(w, ReadPending));
    path, t := [] + [Work(w, Enter)] + [Work(w, ReadPending)], Apply(a, Work(w, ReadPending));
  }

  /** With rows listed, w reads the registry and comes to its first row. */
  lemma ComesToRow(s: State, w: WorkerId, rows: seq<Stale>) returns (path: seq<Action>, t: State)
    requires At(s, w, SawPending(rows, s.now)) && Quiet(s, w, {})
    ensures Leads(s, path, t) && At(t, w, Sweeping(Sweep(rows, s.now, s.registry, s.now), 0))
    ensures t == s.(fleet := t.fleet) && Quiet(t, w, {})
  {
    assert Leads(s, [], s);
    QuietStep(s, w, ReadRegistry, {});
    Next(s, [], s, Work(w, ReadRegistry));
    var a := Apply(s, Work(w, ReadRegistry));
    QuietStep(a, w, Judge, {});
    Next(s, [] + [Work(w, ReadRegistry)], a, Work(w, Judge));
    path, t := [] + [Work(w, ReadRegistry)] + [Work(w, Judge)], Apply(a, Work(w, Judge));
  }

  /** w holds entry x, which it has just been given, and nothing else. */
  ghost predicate Holding(s: State, w: WorkerId, x: nat) {
    && w in s.fleet && s.fleet[w].alive && s.fleet[w].running
    && s.fleet[w].pc.Received? && s.fleet[w].pc.task.id == x
    && Quiet(s, w, {x}) && x in s.q.group.value.pel && x < |s.q.tracks| && !s.q.tracks[x].acked
  }

  lemma DeliveredAcks(q: Queue, id: nat, w: WorkerId, now: nat)
    requires q.group.Some? && id < |q.tracks|
    ensures SameAcks(q, q.Delivered(id, w, now))
  {
    var r := q.Delivered(id, w, now);
    assert forall k | 0 <= k < |q.tracks| :: r.tracks[k].acked == q.tracks[k].acked;
  }

  lemma FirstRowLowerAcked(s: State, w: WorkerId, rows: seq<Stale>)
    requires Inv(s) && Quiet(s, w, {}) && rows != []
    requires rows == s.q.PendingIdle(s.cfg.claimIdleMs, s.now, s.q.group.value.start, SWEEP_LIMIT)
    ensures LowerAcked(s.q, rows[0].id)
  {
    var g := s.q.group.value;
    RowsFrom(s.q, s.cfg.claimIdleMs, s.now, g.start, SWEEP_LIMIT);
    assert rows[0] in rows;
    forall n: nat | g.start <= n < rows[0].id
      ensures n !in g.pel
    {
      FirstRowIsLowest(s.q, s.cfg.claimIdleMs, s.now, g.start, SWEEP_LIMIT, n);
    }
    NotPendingIsAcked(s, rows[0].id);
  }

  /** The first row's owner is neither w nor healthy, so w claims its entry, and is granted it. */
  lemma ClaimsFirst(s: State, w: WorkerId, rows: seq<Stale>) returns (x: nat)
    requires Inv(s) && At(s, w, Sweeping(Sweep(rows, s.now, s.registry, s.now), 0)) && Quiet(s, w, {})
    requires rows != [] && rows == s.q.PendingIdle(s.cfg.claimIdleMs, s.now, s.q.group.value.start, SWEEP_LIMIT)
    ensures Enabled(s, Work(w, Claim(false))) && x == rows[0].id
    ensures var t := Apply(s, Work(w, Claim(false)));
            Holding(t, w, x) && SameAcks(s.q, t.q)
  {
    x := rows[0].id;
    RowsFrom(s.q, s.cfg.claimIdleMs, s.now, s.q.group.value.start, SWEEP_LIMIT);
    assert rows[0] in rows;
    assert PlacedOk(s.q.group.value, x, s.q.tracks[x]);
    DeliveredAcks(s.q, x, w, s.now);
  }

  /** With nothing pending w reads the next entry. */
  lemma ReadsNext(s: State, w: WorkerId) returns (x: nat)
    requires Inv(s) && At(s, w, Reading) && Quiet(s, w, {}) && s.q.CanRead()
    ensures Enabled(s, Work(w, ReadNew(false))) && x == s.q.group.value.cursor
    ensures var t := Apply(s, Work(w, ReadNew(false)));
            Holding(t, w, x) && SameAcks(s.q, t.q)
  {
    var g := s.q.group.value;
    x := g.cursor;
    assert PlacedOk(g, x, s.q.tracks[x]);
    DeliveredAcks(s.q.(group := Some(g.(cursor := g.cursor + 1))), x, w, s.now);
  }

  /** If anything is pending or unread, w gets hold of the lowest entry not yet acknowledged. */
  lemma Takes(s: State, w: WorkerId) returns (path: seq<Action>, t: State, x: nat)
    requires Inv(s) && At(s, w, LoopHead) && Quiet(s, w, {})
    requires s.q.group.value.pel != map[] || s.q.CanRead()
    ensures Leads(s, path, t) && Holding(t, w, x) && SameAcks(s.q, t.q) && LowerAcked(s.q, x)
  {
    var rows := s.q.PendingIdle(s.cfg.claimIdleMs, s.now, s.q.group.value.start, SWEEP_LIMIT);
    var a;
    path, a := Lists(s, w);
    if rows == [] {
      NonePending(s, w);
      NotPendingIsAcked(s, s.q.group.value.cursor);
      LeadsInv(s, path, a);
      x := ReadsNext(a, w);
      t := Apply(a, Work(w, ReadNew(false)));
      Next(s, path, a, Work(w, ReadNew(false)));
      path := path + [Work(w, ReadNew(false))];
    } else {
      FirstRowLowerAcked(s, w, rows);
      var more, b := ComesToRow(a, w, rows);
      LeadsOn(s, path, a, more, b);
      path := path + more;
      LeadsInv(s, path, b);
      x := ClaimsFirst(b, w, rows);
      t := Apply(b, Work(w, Claim(false)));
      Next(s, path, b, Work(w, Claim(false)));
      path := path + [Work(w, Claim(false))];
    }
  }

  lemma NonePending(s: State, w: WorkerId)
    requires Inv(s) && Quiet(s, w, {})
    requires s.q.PendingIdle(s.cfg.claimIdleMs, s.now, s.q.group.value.start, SWEEP_LIMIT) == []
    ensures s.q.group.value.pel == map[]
  {
    var g := s.q.group.value;
    forall id | id in g.pel
      ensures false
    {
      assert PlacedOk(g, id, s.q.tracks[id]);
      SomeRow(s.q, s.cfg.claimIdleMs, s.now, g.start, SWEEP_LIMIT, id);
    }
    assert g.pel == map[];
  }

  // ---- handling what w holds ----

  /** Handling x starts. */
  lemma Begins(s: State, w: WorkerId, x: nat)
    requires Holding(s, w, x)
    ensures Enabled(s, Work(w, Start))
    ensures var t := Apply(s, Work(w, Start));
            && x < |t.q.tracks| && t.q.tracks[x].starts != [] && SameAcks(s.q, t.q)
            && At(t, w, Executing(s.fleet[w].pc.task)) && Quiet(t, w, {x}) && x in t.q.group.value.pel
  {
    var t := Apply(s, Work(w, Start));
    assert forall k | 0 <= k < |s.q.tracks| :: t.q.tracks[k].acked == s.q.tracks[k].acked;
  }

  lemma Finishes(s: State, w: WorkerId, task: Task, o: Outcome)
    requires At(s, w, Executing(task)) && Quiet(s, w, {task.id}) && task.id in s.q.group.value.pel
    requires task.id < |s.q.tracks| == |s.q.entries| && o.Failure? && o.durationMs == 0
    ensures Enabled(s, Work(w, Finish(o)))
    ensures var t := Apply(s, Work(w, Finish(o)));
            && At(t, w, Executed(task, o)) && Quiet(t, w, {task.id}) && SameAcks(s.q, t.q)
            && task.id in t.q.group.value.pel && |t.q.tracks| == |t.q.entries|
  {
    var t := Apply(s, Work(w, Finish(o)));
    assert forall k | 0 <= k < |s.q.tracks| :: t.q.tracks[k].acked == s.q.tracks[k].acked;
  }

  lemma Publishes(s: State, w: WorkerId, task: Task, o: Outcome)
    requires At(s, w, Executed(task, o)) && Quiet(s, w, {task.id}) && task.id < |s.q.entries|
    ensures Enabled(s, Work(w, Publish(false)))
    ensures var t := Apply(s, Work(w, Publish(false)));
            At(t, w, Published(task, o)) && Quiet(t, w, {task.id}) && t.q == s.q
  {
  }

  /** The XACK is carried out, and w is back at its loop head because its answer is lost. */
  lemma Acknowledges(s: State, w: WorkerId, task: Task, o: Outcome)
    requires At(s, w, Published(task, o)) && Quiet(s, w, {task.id})
    requires task.id in s.q.group.value.pel && task.id < |s.q.tracks|
    ensures Enabled(s, Work(w, Ack(true)))
    ensures var t := Apply(s, Work(w, Ack(true)));
            && At(t, w, LoopHead) && Quiet(t, w, {}) && |t.q.tracks| == |s.q.tracks|
            && t.q.group.value.start == s.q.group.value.start && AckedIds(t.q) == AckedIds(s.q) + {task.id}
  {
  }

  /** What w is executing comes to an end, is answered and acknowledged. */
  lemma Settles(s: State, w: WorkerId, task: Task) returns (path: seq<Action>, t: State)
    requires At(s, w, Executing(task)) && Quiet(s, w, {task.id}) && task.id in s.q.group.value.pel
    requires task.id < |s.q.tracks| == |s.q.entries|
    ensures Leads(s, path, t) && At(t, w, LoopHead) && Quiet(t, w, {})
    ensures |t.q.tracks| == |s.q.tracks| && t.q.group.value.start == s.q.group.value.start
    ensures AckedIds(t.q) == AckedIds(s.q) + {task.id}
  {
    var o := Failure("", 0);
    assert Leads(s, [], s);
    Finishes(s, w, task, o);
    Next(s, [], s, Work(w, Finish(o)));
    var a := Apply(s, Work(w, Finish(o)));
    Publishes(a, w, task, o);
    Next(s, [] + [Work(w, Finish(o))], a, Work(w, WorkerAct.Publish(false)));
    var b := Apply(a, Work(w, WorkerAct.Publish(false)));
    Acknowledges(b, w, task, o);
    Next(s, [] + [Work(w, Finish(o))] + [Work(w, WorkerAct.Publish(false))], b, Work(w, Ack(true)));
    path := [] + [Work(w, Finish(o))] + [Work(w, WorkerAct.Publish(false))] + [Work(w, Ack(true))];
    t := Apply(b, Work(w, Ack(true)));
  }

  // ---- one entry after another ----

  ghost function Unacked(q: Queue): nat {
    |Range(0, |q.tracks|) - AckedIds(q)|
  }

  lemma FewerUnacked(q: Queue, r: Queue, x: nat)
    requires |r.tracks| == |q.tracks| && x < |q.tracks| && !q.tracks[x].acked && AckedIds(r) == AckedIds(q) + {x}
    ensures Unacked(r) < Unacked(q)
  {
    var before := Range(0, |q.tracks|) - AckedIds(q);
    assert Range(0, |r.tracks|) - AckedIds(r) == before - {x};
    assert x in before;
  }

  /** An entry that was acknowledged has been begun. */
  lemma AckedWasBegun(s: State, id: nat)
    requires Inv(s) && id < |s.q.tracks| && s.q.tracks[id].acked
    ensures s.q.tracks[id].starts != []
  {
    var turn, o :| WasPublished(s.q, s.api.calls, id, turn, o);
    var k := s.api.calls[s.q.tracks[id].author.value];
    var n :| 0 <= n < |k.published| && k.published[n].id == id && k.published[n].turn == turn && k.published[n].outcome == o;
    assert ReplyOk(s.q, k, k.published[n]);
    assert TrackOk(s.q.tracks[id], s.cfg.claimIdleMs, s.now);
  }

  /** An entry the group has yet to be done with is pending or to be read. */
  lemma WorkIsLeft(s: State, id: nat)
    requires Inv(s) && s.q.group.Some? && s.q.group.value.start <= id < |s.q.tracks| && !s.q.tracks[id].acked
    ensures s.q.group.value.pel != map[] || s.q.CanRead()
  {
    assert PlacedOk(s.q.group.value, id, s.q.tracks[id]);
  }

  lemma TakesAndBegins(s: State, w: WorkerId) returns (path: seq<Action>, t: State, task: Task)
    requires Inv(s) && At(s, w, LoopHead) && Quiet(s, w, {})
    requires s.q.group.value.pel != map[] || s.q.CanRead()
    ensures Leads(s, path, t) && Inv(t) && SameAcks(s.q, t.q) && LowerAcked(t.q, task.id)
    ensures At(t, w, Executing(task)) && Quiet(t, w, {task.id}) && task.id in t.q.group.value.pel
    ensures task.id < |t.q.tracks| && t.q.tracks[task.id].starts != [] && !t.q.tracks[task.id].acked
  {
    var x;
    path, t, x := Takes(s, w);
    task := t.fleet[w].pc.task;
    Begins(t, w, x);
    Next(s, path, t, Work(w, Start));
    path, t := path + [Work(w, Start)], Apply(t, Work(w, Start));
    LeadsInv(s, path, t);
  }

  /** w is at id's job, and every entry before it has been acknowledged. */
  ghost predicate Reached(t: State, w: WorkerId, id: nat) {
    && id < |t.q.tracks| && t.q.tracks[id].starts != []
    && w in t.fleet && t.fleet[w].pc.Executing? && t.fleet[w].pc.task.id == id
    && t.q.group.Some? && LowerAcked(t.q, id)
  }

  lemma SameUnacked(q: Queue, r: Queue, id: nat)
    requires SameAcks(q, r) && id < |q.tracks|
    ensures Unacked(r) == Unacked(q) && (r.tracks[id].acked <==> q.tracks[id].acked)
  {
    assert r.tracks[id].acked <==> id in AckedIds(r);
    assert q.tracks[id].acked <==> id in AckedIds(q);
  }

  lemma OneMoreAcked(q: Queue, r: Queue, x: nat, id: nat)
    requires |r.tracks| == |q.tracks| && x < |q.tracks| && !q.tracks[x].acked && AckedIds(r) == AckedIds(q) + {x}
    requires id < |q.tracks| && !q.tracks[id].acked && id != x
    ensures Unacked(r) < Unacked(q) && !r.tracks[id].acked
  {
    FewerUnacked(q, r, x);
    assert id !in AckedIds(r);
  }

  /** The job in hand, another than id's, is brought to its end. */
  lemma SettlesOther(s: State, w: WorkerId, task: Task, id: nat) returns (path: seq<Action>, t: State)
    requires At(s, w, Executing(task)) && Quiet(s, w, {task.id}) && task.id in s.q.group.value.pel
    requires task.id < |s.q.tracks| == |s.q.entries| && !s.q.tracks[task.id].acked
    requires s.q.group.value.start <= id < |s.q.tracks| && !s.q.tracks[id].acked && task.id != id
    ensures Leads(s, path, t) && At(t, w, LoopHead) && Quiet(t, w, {})
    ensures t.q.group.value.start <= id < |t.q.tracks| && !t.q.tracks[id].acked && Unacked(t.q) < Unacked(s.q)
  {
    path, t := Settles(s, w, task);
    OneMoreAcked(s.q, t.q, task.id, id);
  }

  /** One job more: either it is id's, or fewer entries are left and w is where it was. */
  lemma Round(s: State, w: WorkerId, id: nat) returns (path: seq<Action>, t: State)
    requires Inv(s) && At(s, w, LoopHead) && Quiet(s, w, {})
    requires s.q.group.value.start <= id < |s.q.tracks| && !s.q.tracks[id].acked
    ensures Leads(s, path, t) && Inv(t)
    ensures || Reached(t, w, id)
            || (At(t, w, LoopHead) && Quiet(t, w, {}) && t.q.group.value.start <= id < |t.q.tracks| && !t.q.tracks[id].acked
                && Unacked(t.q) < Unacked(s.q))
  {
    WorkIsLeft(s, id);
    var task;
    path, t, task := TakesAndBegins(s, w);
    SameUnacked(s.q, t.q, id);
    if task.id != id {
      var more, u := SettlesOther(t, w, task, id);
      LeadsOn(s, path, t, more, u);
      path, t := path + more, u;
      LeadsInv(s, path, t);
    }
  }

  /** Alone, w gets to every entry not yet acknowledged: those before it are acknowledged first, one by one. */
  lemma {:induction false} GetsTo(s: State, w: WorkerId, id: nat) returns (path: seq<Action>, t: State)
    requires Inv(s) && At(s, w, LoopHead) && Quiet(s, w, {})
    requires s.q.group.value.start <= id < |s.q.tracks| && !s.q.tracks[id].acked
    ensures Leads(s, path, t) && Reached(t, w, id)
    decreases Unacked(s.q)
  {
    path, t := Round(s, w, id);
    if !Reached(t, w, id) {
      var more, u := GetsTo(t, w, id);
      LeadsOn(s, path, t, more, u);
      path, t := path + more, u;
    }
  }

  // ---- getting there ----

  lemma UnusedId(ids: set<WorkerId>) returns (w: WorkerId)
    ensures w !in ids
  {
    w := 0;
    var seen: set<nat> := {};
    while w in ids
      invariant seen == Range(0, w) && seen <= ids
      decreases ids - seen
    {
      seen := seen + {w};
      w := w + 1;
    }
  }

  /** A new worker w has started up, and its first heartbeat has landed. */
  lemma Boots(s: State, w: WorkerId) returns (path: seq<Action>, t: State)
    requires s.q.group.Some? && w !in s.fleet
    ensures Leads(s, path, t) && At(t, w, LoopHead)
    ensures t.q == s.q && t.now == s.now && t.cfg == s.cfg
    ensures forall v | v in t.registry && v != w :: v in s.registry && t.registry[v] == s.registry[v]
  {
    assert Leads(s, [], s);
    Next(s, [], s, Work(w, Boot));
    var a := Apply(s, Work(w, Boot));
    Next(s, [] + [Work(w, Boot)], a, Work(w, EnsureGroup));
    var b := Apply(a, Work(w, EnsureGroup));
    assert b.q == s.q;
    var more;
    more, t := Heartbeats(b, w);
    LeadsOn(s, [] + [Work(w, Boot)] + [Work(w, EnsureGroup)], b, more, t);
    path := [] + [Work(w, Boot)] + [Work(w, EnsureGroup)] + more;
  }

  lemma Heartbeats(s: State, w: WorkerId) returns (path: seq<Action>, t: State)
    requires w in s.fleet && s.fleet[w].alive && s.fleet[w].pc.GroupReady? && s.fleet[w].outbox == []
    ensures Leads(s, path, t) && At(t, w, LoopHead)
    ensures t.q == s.q && t.now == s.now && t.cfg == s.cfg
    ensures forall v | v in t.registry && v != w :: v in s.registry && t.registry[v] == s.registry[v]
  {
    assert Leads(s, [], s);
    Next(s, [], s, Work(w, SampleBeat));
    var a := Apply(s, Work(w, SampleBeat));
    Next(s, [] + [Work(w, SampleBeat)], a, Work(w, LandBeat));
    var b := Apply(a, Work(w, LandBeat));
    assert b.fleet[w].outbox == [];
    Next(s, [] + [Work(w, SampleBeat)] + [Work(w, LandBeat)], b, Work(w, BeginLoop));
    path, t := [] + [Work(w, SampleBeat)] + [Work(w, LandBeat)] + [Work(w, BeginLoop)], Apply(b, Work(w, BeginLoop));
  }

  /** After a long enough silence a worker that was just started is alone. */
  lemma SilenceIsQuiet(before: State, s: State, w: WorkerId, ms: nat)
    requires Inv(before) && before.q.group.Some? && w !in before.fleet
    requires s.q == before.q && s.now == before.now && s.cfg == before.cfg
    requires forall v | v in s.registry && v != w :: v in before.registry && s.registry[v] == before.registry[v]
    requires STALE_AFTER_MS < ms && s.cfg.claimIdleMs <= ms
    ensures Quiet(s.(now := s.now + ms), w, {})
  {
    var g := s.q.group.value;
    forall id | id in g.pel
      ensures g.pel[id].owner != w && g.pel[id].at <= s.now
    {
      assert PlacedOk(g, id, s.q.tracks[id]);
      assert TrackOk(s.q.tracks[id], s.cfg.claimIdleMs, s.now);
    }
  }

  /** From any reachable state some continuation begins the handling of any entry the group covers. */
  lemma CanBegin(states: seq<State>, acts: seq<Action>, id: nat) returns (states': seq<State>, acts': seq<Action>)
    requires Behaviour(states, acts) && states[|acts|].q.group.Some?
    requires states[|acts|].q.group.value.start <= id < |states[|acts|].q.tracks|
    ensures Behaviour(states', acts') && states <= states' && acts <= acts'
    ensures id < |states'[|acts'|].q.tracks| && states'[|acts'|].q.tracks[id].starts != []
  {
    var s := states[|acts|];
    RunInv(states, acts, |acts|);
    var w := UnusedId(s.fleet.Keys);
    var path, t := Boots(s, w);
    var ms := STALE_AFTER_MS + 1 + s.cfg.claimIdleMs;
    SilenceIsQuiet(s, t, w, ms);
    Next(s, path, t, Tick(ms));
    path, t := path + [Tick(ms)], Apply(t, Tick(ms));
    LeadsInv(s, path, t);
    if t.q.tracks[id].acked {
      AckedWasBegun(t, id);
    } else {
      var more, u := GetsTo(t, w, id);
      LeadsOn(s, path, t, more, u);
      path, t := path + more, u;
    }
    states', acts' := Continue(states, acts, path, t);
  }
}
