/**
 A job can stay pending for as long as its owner lives: a worker whose PUBLISH or XACK failed goes on
 without the entry but still owns it, skips its own rows, and is not robbed while it is healthy.
 */
module Retention {
  import opened Platform
  import opened InvocationStream
  import opened Protocol
  import opened Invariants
  import opened History
  import opened Recovery

  /** d owns entry id, and no worker has it in hand, d no more than any other. */
  ghost predicate LeftWith(s: State, d: WorkerId, id: nat) {
    id in Owned(s.q, d) && forall v | v in s.fleet :: !Holds(s.fleet[v].pc, id)
  }

  /** Step m is a claim that is granted. */
  ghost predicate Grants(s: State, a: Action) {
    a.Work? && a.act.Claim? && Enabled(s, a) && Claimable(s, RowAt(s, a.w).id)
  }

  /**
   The claim at step m comes within claimIdleMs of its sweep's listing, and d's heartbeats had landed
   in time for that sweep.
   */
  ghost predicate PromptAndFresh(states: seq<State>, acts: seq<Action>, m: nat, d: WorkerId)
    requires Behaviour(states, acts) && m < |acts| && Grants(states[m], acts[m])
  {
    var w := acts[m].w;
    var sweep := states[m].fleet[w].pc.sweep;
    && states[m].now < sweep.at + states[m].cfg.claimIdleMs
    && forall k: nat | k < m && CopiedAt(states, acts, k, w, sweep.hash) :: !NoFreshBeat(states, acts, k, d, sweep.judgedAt)
  }

  /** From i up to j every claim that is granted is prompt and finds d's heartbeats fresh. */
  ghost predicate NobodyTakesFor(states: seq<State>, acts: seq<Action>, i: nat, j: nat, d: WorkerId)
    requires Behaviour(states, acts) && j <= |acts|
  {
    forall m: nat | i <= m < j && Grants(states[m], acts[m]) :: PromptAndFresh(states, acts, m, d)
  }

  /** Only being given an entry puts it into a worker's hands. */
  lemma HandsMove(s: State, w: WorkerId, act: WorkerAct, id: nat)
    requires Enabled(s, Work(w, act)) && Holds(WorkerAfter(s, w, act).pc, id)
    ensures w in s.fleet
    ensures || Holds(s.fleet[w].pc, id)
            || (act.ReadNew? && s.q.group.value.cursor == id)
            || (act.Claim? && Claimable(s, RowAt(s, w).id) && RowAt(s, w).id == id)
  {
  }

  /** An entry that is neither claimed nor let go of by whoever has it in hand stays as it is. */
  lemma EntryStays(s: State, w: WorkerId, act: WorkerAct, id: nat)
    requires QueueOk(s.q, s.cfg.claimIdleMs, s.now) && Enabled(s, Work(w, act))
    requires s.q.group.Some? && id in s.q.group.value.pel && (w in s.fleet ==> !Holds(s.fleet[w].pc, id))
    requires act.Claim? && Claimable(s, RowAt(s, w).id) ==> RowAt(s, w).id != id
    ensures var r := QueueAfter(s, w, act);
            && r.group.Some? && id in r.group.value.pel && r.group.value.pel[id] == s.q.group.value.pel[id]
            && id < |s.q.tracks| && id < |r.tracks| && r.tracks[id].deliveries == s.q.tracks[id].deliveries
    ensures s.q.group.Some? && act.ReadNew? ==> s.q.group.value.cursor != id
  {
    assert PlacedOk(s.q.group.value, id, s.q.tracks[id]);
  }

  lemma StepLeaves(s: State, a: Action, d: WorkerId, id: nat)
    requires QueueOk(s.q, s.cfg.claimIdleMs, s.now) && Enabled(s, a) && LeftWith(s, d, id)
    requires Grants(s, a) ==> RowAt(s, a.w).id != id
    ensures LeftWith(Apply(s, a), d, id)
    ensures id < |s.q.tracks| && id < |Apply(s, a).q.tracks|
    ensures Apply(s, a).q.tracks[id].deliveries == s.q.tracks[id].deliveries
  {
    if a.Work? {
      EntryStays(s, a.w, a.act, id);
      if Holds(WorkerAfter(s, a.w, a.act).pc, id) {
        HandsMove(s, a.w, a.act, id);
      }
    }
  }

  /** A prompt claim that finds d's heartbeats fresh is of another's entry. */
  lemma GrantIsOfAnother(states: seq<State>, acts: seq<Action>, m: nat, d: WorkerId, id: nat)
    requires Behaviour(states, acts) && m < |acts| && LeftWith(states[m], d, id)
    requires Grants(states[m], acts[m]) && PromptAndFresh(states, acts, m, d)
    ensures RowAt(states[m], acts[m].w).id != id
  {
    var w := acts[m].w;
    FreshOwnerKeepsEntry(states, acts, m, w, acts[m].act.lost, d);
  }

  lemma LeavesAt(states: seq<State>, acts: seq<Action>, m: nat, d: WorkerId, id: nat)
    requires Behaviour(states, acts) && m < |acts| && LeftWith(states[m], d, id)
    requires Grants(states[m], acts[m]) ==> PromptAndFresh(states, acts, m, d)
    ensures LeftWith(states[m + 1], d, id) && id < |states[m].q.tracks| && id < |states[m + 1].q.tracks|
    ensures states[m + 1].q.tracks[id].deliveries == states[m].q.tracks[id].deliveries
  {
    RunQueueOk(states, acts, m);
    if Grants(states[m], acts[m]) {
      GrantIsOfAnother(states, acts, m, d, id);
    }
    StepLeaves(states[m], acts[m], d, id);
  }

  /** Between i and j entry id was given to nobody, and it is still left with d. */
  ghost predicate StillLeft(states: seq<State>, i: nat, j: nat, d: WorkerId, id: nat)
    requires i < |states| && j < |states|
  {
    && LeftWith(states[j], d, id) && id < |states[i].q.tracks| && id < |states[j].q.tracks|
    && states[j].q.tracks[id].deliveries == states[i].q.tracks[id].deliveries && !states[j].q.tracks[id].acked
  }

  lemma PendingIsUnacked(states: seq<State>, acts: seq<Action>, j: nat, d: WorkerId, id: nat)
    requires Behaviour(states, acts) && j < |states| && id in Owned(states[j].q, d)
    ensures id < |states[j].q.tracks| && !states[j].q.tracks[id].acked
  {
    RunQueueOk(states, acts, j);
    assert PlacedOk(states[j].q.group.value, id, states[j].q.tracks[id]);
  }

  lemma StillLeftNext(states: seq<State>, acts: seq<Action>, i: nat, j: nat, d: WorkerId, id: nat)
    requires Behaviour(states, acts) && i < j < |states| && StillLeft(states, i, j - 1, d, id)
    requires Grants(states[j - 1], acts[j - 1]) ==> PromptAndFresh(states, acts, j - 1, d)
    ensures StillLeft(states, i, j, d, id)
  {
    LeavesAt(states, acts, j - 1, d, id);
    PendingIsUnacked(states, acts, j, d, id);
  }

  /**
   Retention: an entry its owner no longer handles stays pending with that owner, undelivered to
   anyone, for as long as the claims that are granted are prompt and find the owner's heartbeats
   fresh. No number of sweeps, by the owner or by others, changes that.
   */
  lemma {:induction false} LiveOwnerKeepsFailedEntry(states: seq<State>, acts: seq<Action>, i: nat, j: nat,
                                                     d: WorkerId, id: nat)
    requires Behaviour(states, acts) && i <= j < |states| && LeftWith(states[i], d, id)
    requires NobodyTakesFor(states, acts, i, j, d)
    ensures StillLeft(states, i, j, d, id)
    decreases j
  {
    if i == j {
      PendingIsUnacked(states, acts, i, d, id);
    } else {
      LiveOwnerKeepsFailedEntry(states, acts, i, j - 1, d, id);
      StillLeftNext(states, acts, i, j, d, id);
    }
  }

  /**
   How it comes to that: the PUBLISH or the XACK of the one worker that has the entry in hand is not
   carried out, or the PUBLISH's answer is lost.
   */
  lemma FailureLeavesEntry(states: seq<State>, acts: seq<Action>, i: nat, d: WorkerId, act: WorkerAct, id: nat)
    requires Behaviour(states, acts) && i < |acts| && acts[i] == Work(d, act) && (act.Fault? || act == WorkerAct.Publish(true))
    requires id in Owned(states[i].q, d)
    requires forall v | v in states[i].fleet && v != d :: !Holds(states[i].fleet[v].pc, id)
    ensures LeftWith(states[i + 1], d, id)
  {
  }
}
