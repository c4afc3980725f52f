/** What a run never takes back: two-state facts about a step, and the same between any two states of a run. */
module History {
  import opened Platform
  import opened Wire
  import opened InvocationStream
  import opened Calls
  import opened Protocol
  import opened Invariants
  import opened Preservation

  /** Everything t keeps of an earlier state s. */
  ghost predicate After(s: State, t: State) {
    && s.now <= t.now && t.cfg == s.cfg && t.base == s.base
    && Later(s.q, s.now, t.q)
    && ApiLater(s.api, t.api)
    && forall w | w in s.fleet :: w in t.fleet && (!s.fleet[w].alive ==> !t.fleet[w].alive)
  }

  lemma PublishLater(api: Api, c: Corr, reply: Reply)
    ensures ApiLater(api, Calls.Publish(api, c, reply))
  {
  }

  lemma WorkApiLater(s: State, w: WorkerId, act: WorkerAct)
    requires Enabled(s, Work(w, act))
    ensures ApiLater(s.api, ApiAfter(s, w, act))
  {
    if act.Publish? {
      var t := s.fleet[w].pc.task;
      match Decode(s.q.entries[t.id]).corr
      case None =>
      case Some(c) => PublishLater(s.api, c, Reply(s.fleet[w].pc.outcome, t.id, t.turn, s.now));
    }
  }

  lemma WorkAfter(s: State, w: WorkerId, act: WorkerAct)
    requires Inv(s) && Enabled(s, Work(w, act))
    ensures Later(s.q, s.now, QueueAfter(s, w, act)) && ApiLater(s.api, ApiAfter(s, w, act))
  {
    WorkQueue(s, w, act);
    WorkApiLater(s, w, act);
  }

  lemma StepAfter(s: State, a: Action)
    requires Inv(s) && Enabled(s, a)
    ensures After(s, Apply(s, a))
  {
    match a
    case Tick(_) =>
      LaterSelf(s.q, s.now);
    case Work(w, act) =>
      WorkAfter(s, w, act);
    case Serve(c, act) =>
      ServeQueue(s, c, act);
      CallStepLater(s.cfg, s.api, c, act, s.now, s.registry, |s.q.entries|);
  }

  lemma AfterTransitive(s: State, t: State, u: State)
    requires After(s, t) && After(t, u)
    ensures After(s, u)
  {
    LaterTransitive(s.q, s.now, t.q, t.now, u.q);
    ApiLaterTransitive(s.api, t.api, u.api);
  }

  lemma AfterSelf(s: State)
    ensures After(s, s)
  {
    LaterSelf(s.q, s.now);
  }

  lemma {:induction false} RunAfter(states: seq<State>, acts: seq<Action>, i: nat, j: nat)
    requires Behaviour(states, acts) && i <= j < |states|
    ensures After(states[i], states[j])
    decreases j
  {
    if i == j {
      AfterSelf(states[i]);
    } else {
      RunAfter(states, acts, i, j - 1);
      RunInv(states, acts, j - 1);
      StepAfter(states[j - 1], acts[j - 1]);
      AfterTransitive(states[i], states[j - 1], states[j]);
    }
  }

  lemma RunQueueOk(states: seq<State>, acts: seq<Action>, i: nat)
    requires Behaviour(states, acts) && i < |states|
    ensures QueueOk(states[i].q, states[i].cfg.claimIdleMs, states[i].now)
  {
    RunInv(states, acts, i);
  }

  lemma RunLater(states: seq<State>, acts: seq<Action>, i: nat, j: nat)
    requires Behaviour(states, acts) && i <= j < |states|
    ensures states[i].now <= states[j].now && Later(states[i].q, states[i].now, states[j].q)
  {
    RunAfter(states, acts, i, j);
  }

  lemma DeadStaysDead(states: seq<State>, acts: seq<Action>, i: nat, j: nat, d: WorkerId)
    requires Behaviour(states, acts) && i <= j < |states| && d in states[i].fleet && !states[i].fleet[d].alive
    ensures d in states[j].fleet && !states[j].fleet[d].alive
  {
    RunAfter(states, acts, i, j);
  }

  /** A run can go on with any step that is enabled at its end. */
  lemma ExtendRun(states: seq<State>, acts: seq<Action>, a: Action, t: State)
    requires Behaviour(states, acts) && Enabled(states[|acts|], a) && t == Apply(states[|acts|], a)
    ensures Behaviour(states + [t], acts + [a])
  {
    var states', acts' := states + [t], acts + [a];
    forall i | 0 <= i < |acts'|
      ensures Enabled(states'[i], acts'[i]) && states'[i + 1] == Apply(states'[i], acts'[i])
    {
      if i < |acts| {
        assert states'[i] == states[i] && states'[i + 1] == states[i + 1] && acts'[i] == acts[i];
      }
    }
  }
}
