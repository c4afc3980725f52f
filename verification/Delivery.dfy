/** Theorems about the queue: no job is lost, none runs too often, and acknowledging comes last. */
module Delivery {
  import opened Platform
  import opened Wire
  import opened InvocationStream
  import opened Calls
  import opened Protocol
  import opened Invariants
  import opened Preservation
  import opened History

  /**
   Bounded duplication. Whatever the interleaving, two deliveries of one message are at least
   claimIdleMs apart for every step between them, and its handling has begun at most
   1 + floor((now - first delivery) / claimIdleMs) times.
   */
  lemma BoundedDuplication(states: seq<State>, acts: seq<Action>, i: nat, id: nat)
    requires Behaviour(states, acts) && i < |states|
    requires id < |states[i].q.tracks| && states[i].cfg.claimIdleMs > 0
    ensures var t, gap := states[i].q.tracks[id], states[i].cfg.claimIdleMs;
            && (forall m, n | 0 <= m <= n < |t.deliveries| ::
                  t.deliveries[m].at + (n - m) * gap <= t.deliveries[n].at <= states[i].now)
            && (t.starts != [] ==> t.deliveries != [])
            && (t.deliveries != [] ==> |t.starts| <= 1 + (states[i].now - t.deliveries[0].at) / gap)
  {
    RunInv(states, acts, i);
    var t, gap, now := states[i].q.tracks[id], states[i].cfg.claimIdleMs, states[i].now;
    assert TrackOk(t, gap, now);
    forall m, n | 0 <= m <= n < |t.deliveries|
      ensures t.deliveries[m].at + (n - m) * gap <= t.deliveries[n].at
    {
      DeliveriesApart(t, gap, now, m, n);
    }
    if t.starts != [] {
      assert t.starts[0] in t.starts;
    }
    BoundedStarts(t, gap, now);
  }

  /**
   What XPENDING lists and XCLAIM grants: an entry delivered and unacknowledged whose last delivery
   is claimIdleMs old.
   */
  lemma IdleIffOverdue(states: seq<State>, acts: seq<Action>, i: nat, id: nat)
    requires Behaviour(states, acts) && i < |states| && id < |states[i].q.tracks|
    ensures var t, gap := states[i].q.tracks[id], states[i].cfg.claimIdleMs;
            states[i].q.IsIdle(id, gap, states[i].now) <==>
              t.deliveries != [] && !t.acked && t.deliveries[|t.deliveries| - 1].at + gap <= states[i].now
  {
    RunInv(states, acts, i);
    var q := states[i].q;
    assert q.group.Some? ==> PlacedOk(q.group.value, id, q.tracks[id]);
  }

  /**
   No lost job: acknowledged, pending (under one owner) and undelivered entries share out the log
   from the group's start.
   */
  lemma NoLostJob(states: seq<State>, acts: seq<Action>, i: nat)
    requires Behaviour(states, acts) && i < |states| && states[i].q.group.Some?
    ensures var q, g := states[i].q, states[i].q.group.value;
            && g.pel.Keys !! AckedIds(q) !! Range(g.cursor, |q.entries|)
            && g.pel.Keys + AckedIds(q) + Range(g.cursor, |q.entries|) == Range(g.start, |q.entries|)
            && forall id | id in g.pel :: g.pel[id].owner in states[i].fleet
  {
    RunInv(states, acts, i);
    Partition(states[i].q, states[i].cfg.claimIdleMs, states[i].now);
  }

  /** Acknowledged is final: such an entry is never delivered or claimed again, and never pending again. */
  lemma AckedIsFinal(states: seq<State>, acts: seq<Action>, i: nat, j: nat, id: nat)
    requires Behaviour(states, acts) && i <= j < |states|
    requires id < |states[i].q.tracks| && states[i].q.tracks[id].acked
    ensures id < |states[j].q.tracks| && states[j].q.tracks[id].acked
    ensures states[j].q.tracks[id].deliveries == states[i].q.tracks[id].deliveries
    ensures states[j].q.group.Some? && id !in states[j].q.group.value.pel
  {
    RunAfter(states, acts, i, j);
    RunInv(states, acts, j);
    var t := states[j];
    assert TrackLater(states[i].q.tracks[id], states[i].now, t.q.tracks[id]);
    assert t.q.group.Some? ==> PlacedOk(t.q.group.value, id, t.q.tracks[id]);
  }

  /**
   At least once, with a reply: when any worker, owner or not, is about to XACK an entry, that
   entry's run has come to an outcome and the outcome has been published on the channel of the
   dispatch that appended the entry.
   */
  lemma ReplyBeforeAck(states: seq<State>, acts: seq<Action>, i: nat, w: WorkerId, lost: bool)
    requires Behaviour(states, acts) && i < |acts| && acts[i] == Work(w, Ack(lost))
    ensures var s := states[i];
            var t, o := s.fleet[w].pc.task, s.fleet[w].pc.outcome;
            && Ran(s.q, t, o)
            && t.turn < |s.q.tracks[t.id].deliveries| && s.q.tracks[t.id].deliveries[t.turn].worker == w
            && s.q.tracks[t.id].author.Some?
            && var c := s.q.tracks[t.id].author.value;
            && c in s.api.calls && s.api.calls[c].entry == Some(t.id)
            && ReplyFor(s.api.calls[c].published, t.id, t.turn, o)
  {
    RunInv(states, acts, i);
    var s := states[i];
    assert WorkerOk(s.q, s.api.calls, s.cfg.claimIdleMs, s.now, w, s.fleet[w]);
    AuthorIsTarget(s, s.fleet[w].pc.task.id);
  }

  /** Only an XACK makes an entry acknowledged, so ReplyBeforeAck covers every acknowledged entry. */
  lemma OnlyAckAcks(states: seq<State>, acts: seq<Action>, i: nat, id: nat)
    requires Behaviour(states, acts) && i < |acts|
    requires id < |states[i + 1].q.tracks| && states[i + 1].q.tracks[id].acked
    requires id < |states[i].q.tracks| ==> !states[i].q.tracks[id].acked
    ensures exists w, lost :: acts[i] == Work(w, Ack(lost)) && states[i].fleet[w].pc.task.id == id
  {
    RunInv(states, acts, i);
    match acts[i]
    case Tick(_) =>
    case Serve(c, act) =>
    case Work(w, act) =>
      if act.Ack? {
        assert acts[i] == Work(w, Ack(act.lost));
      } else {
        WorkNoAcks(states[i], w, act);
      }
  }

  /** In every state an acknowledged entry has been run to an outcome that its own dispatch's channel carried. */
  lemma AckedWasAnswered(states: seq<State>, acts: seq<Action>, i: nat, id: nat)
    requires Behaviour(states, acts) && i < |states|
    requires id < |states[i].q.tracks| && states[i].q.tracks[id].acked
    ensures exists c, turn, o ::
              && states[i].q.tracks[id].author == Some(c) && c in states[i].api.calls
              && ReplyFor(states[i].api.calls[c].published, id, turn, o)
              && id < |states[i].q.entries| && Result(turn, Decode(states[i].q.entries[id]), o) in states[i].q.tracks[id].results
  {
    RunInv(states, acts, i);
    var s := states[i];
    var turn, o :| WasPublished(s.q, s.api.calls, id, turn, o);
    var c := s.q.tracks[id].author.value;
    var n :| 0 <= n < |s.api.calls[c].published| && s.api.calls[c].published[n].id == id
             && s.api.calls[c].published[n].turn == turn && s.api.calls[c].published[n].outcome == o;
    assert ReplyOk(s.q, s.api.calls[c], s.api.calls[c].published[n]);
  }

  /** Every job appended through invoke lies at or after the group's start, so the group will deliver it. */
  lemma AdmittedIsDeliverable(states: seq<State>, acts: seq<Action>, i: nat, c: Corr)
    requires Behaviour(states, acts) && i < |states|
    requires c in states[i].api.calls && states[i].api.calls[c].entry.Some?
    ensures states[i].q.group.Some?
    ensures states[i].q.group.value.start <= states[i].api.calls[c].entry.value < |states[i].q.entries|
  {
    RunInv(states, acts, i);
    assert AuthorOk(states[i].base, states[i].q, states[i].api.calls, states[i].api.calls[c].entry.value);
  }

  // ---- queue depth ----

  /** Conservation: lag + pending + acknowledged is what was appended since the group's start. */
  lemma LagBalances(states: seq<State>, acts: seq<Action>, i: nat)
    requires Behaviour(states, acts) && i < |states| && states[i].q.group.Some?
    ensures var q, g := states[i].q, states[i].q.group.value;
            && q.Lag() + |g.pel| + |AckedIds(q)| == |q.entries| - g.start
            && q.Lag() == |Range(g.cursor, |q.entries|)|
            && forall id | 0 <= id < |q.tracks| && g.start <= id :: id >= g.cursor <==> q.tracks[id].deliveries == []
  {
    RunInv(states, acts, i);
    var q, g := states[i].q, states[i].q.group.value;
    Conservation(q, states[i].cfg.claimIdleMs, states[i].now);
    RangeSize(g.cursor, |q.entries|);
    forall id | 0 <= id < |q.tracks| && g.start <= id
      ensures id >= g.cursor <==> q.tracks[id].deliveries == []
    {
      assert PlacedOk(g, id, q.tracks[id]);
    }
  }

  lemma WorkLag(s: State, w: WorkerId, act: WorkerAct)
    requires QueueOk(s.q, s.cfg.claimIdleMs, s.now) && Enabled(s, Work(w, act))
    ensures QueueAfter(s, w, act).Lag() - s.q.Lag() == if act.ReadNew? then -1 else 0
  {
  }

  /** Whoever appends has been admitted, so the group exists. */
  lemma AppendLag(s: State, c: Corr, act: CallAct)
    requires Inv(s) && Enabled(s, Serve(c, act)) && Appends(act)
    ensures ServedQueue(s, c, act).Lag() == s.q.Lag() + 1
  {
    assert !BehindGate(s.api.calls[c].phase);
  }

  /** Only an append raises the lag, only a first delivery lowers it, by one each; claims and acks do not touch it. */
  lemma LagMoves(states: seq<State>, acts: seq<Action>, i: nat)
    requires Behaviour(states, acts) && i < |acts|
    ensures var a := acts[i];
            states[i + 1].q.Lag() - states[i].q.Lag() ==
              if a.Serve? && Appends(a.request) then 1
              else if a.Work? && a.act.ReadNew? then -1
              else 0
  {
    RunInv(states, acts, i);
    match acts[i]
    case Tick(_) =>
    case Work(w, act) => WorkLag(states[i], w, act);
    case Serve(c, act) =>
      if Appends(act) {
        AppendLag(states[i], c, act);
      }
  }
}
