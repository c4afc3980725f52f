/** What a request's response says about its job: which call failed, and whether anything ran or can still run. */
module Rejections {
  import opened Platform
  import opened InvocationStream
  import opened Registry
  import opened Calls
  import opened Protocol
  import opened Invariants
  import opened Preservation
  import opened History
  import opened Settlement
  import opened Progress

  // ---- which call failed ----

  /** A Redis call of dispatch that threw, whether or not Redis had carried it out. */
  predicate Throws(act: CallAct) {
    act.SubscribeError? || act.AddError? || act.UnsubscribeError?
  }

  /** The ones after which no entry will ever be made. */
  predicate PreventsEntry(act: CallAct) {
    act.SubscribeError? || act == AddError(false)
  }

  ghost predicate Threw(acts: seq<Action>, i: nat, c: Corr)
    requires i <= |acts|
  {
    exists m :: 0 <= m < i && acts[m].Serve? && acts[m].c == c && Throws(acts[m].request)
  }

  ghost predicate Prevented(acts: seq<Action>, i: nat, c: Corr)
    requires i <= |acts|
  {
    exists m :: 0 <= m < i && acts[m].Serve? && acts[m].c == c && PreventsEntry(acts[m].request)
  }

  ghost predicate RegistryThrew(acts: seq<Action>, i: nat, c: Corr)
    requires i <= |acts|
  {
    exists m :: 0 <= m < i && acts[m] == Serve(c, CapacityError)
  }

  /** The ends a dispatch comes to, and its finally. */
  predicate ThrowsOut(p: Phase) {
    p == Leaving(None) || p == Recording(NoReply) || p == Finished(NoReply)
  }

  /** How a request's place in its code shows which of its calls threw. */
  ghost predicate Tells(k: Call, threw: bool, prevented: bool, registryThrew: bool) {
    && (threw ==> ThrowsOut(k.phase))
    && (prevented ==> k.entry.None? && threw)
    && (k.entry.None? && !prevented ==> BeforeDispatch(k.phase) || k.phase.Subscribing? || k.phase.Adding?)
    && (k.promise.Resolved? && ThrowsOut(k.phase) ==> threw)
    && (ThrowsOut(k.phase) && !threw ==> k.promise.Rejected?)
    && (registryThrew <==> k.phase == Finished(ServerError))
  }

  lemma TellsStep(cfg: Config, k: Call, waiting: bool, subscribed: bool, act: CallAct, now: nat, hash: Hash, next: nat,
                  threw: bool, prevented: bool, registryThrew: bool)
    requires CallOk(cfg, k, waiting, subscribed, now) && ActEnabled(k, act, now)
    requires Tells(k, threw, prevented, registryThrew)
    ensures Tells(CallAfter(cfg, k, waiting, act, now, hash, next),
                  threw || Throws(act), prevented || PreventsEntry(act), registryThrew || act.CapacityError?)
  {
  }

  lemma ThrewMore(acts: seq<Action>, i: nat, c: Corr)
    requires i < |acts|
    ensures var own := acts[i].Serve? && acts[i].c == c;
            && (Threw(acts, i + 1, c) <==> Threw(acts, i, c) || (own && Throws(acts[i].request)))
            && (Prevented(acts, i + 1, c) <==> Prevented(acts, i, c) || (own && PreventsEntry(acts[i].request)))
            && (RegistryThrew(acts, i + 1, c) <==> RegistryThrew(acts, i, c) || (own && acts[i].request.CapacityError?))
  {
    if Threw(acts, i, c) {
      var m :| 0 <= m < i && acts[m].Serve? && acts[m].c == c && Throws(acts[m].request);
      assert 0 <= m < i + 1;
    }
    if Prevented(acts, i, c) {
      var m :| 0 <= m < i && acts[m].Serve? && acts[m].c == c && PreventsEntry(acts[m].request);
      assert 0 <= m < i + 1;
    }
    if RegistryThrew(acts, i, c) {
      var m :| 0 <= m < i && acts[m] == Serve(c, CapacityError);
      assert 0 <= m < i + 1;
    }
    assert acts[i] == Serve(c, CapacityError) <==> acts[i].Serve? && acts[i].c == c && acts[i].request.CapacityError?;
  }

  lemma ThrewOn(acts: seq<Action>, a: Action, c: Corr)
    ensures Threw(acts + [a], |acts| + 1, c) <==>
            Threw(acts, |acts|, c) || (a.Serve? && a.c == c && Throws(a.request))
  {
    var more := acts + [a];
    ThrewMore(more, |acts|, c);
    assert forall m | 0 <= m < |acts| :: more[m] == acts[m];
  }

  /** Before a request arrives none of its calls can have thrown. */
  lemma NoneThrewYet(states: seq<State>, acts: seq<Action>, i: nat, c: Corr)
    requires Behaviour(states, acts) && i < |states| && c !in states[i].api.calls
    ensures !Threw(acts, i, c) && !Prevented(acts, i, c) && !RegistryThrew(acts, i, c)
  {
    forall m | 0 <= m < i && acts[m].Serve? && acts[m].c == c
      ensures acts[m].request.Arrive?
    {
      if !acts[m].request.Arrive? {
        CallBetween(states, acts, m, i, c);
        assert false;
      }
    }
  }

  ghost predicate TellsAt(states: seq<State>, acts: seq<Action>, i: nat, c: Corr)
    requires Behaviour(states, acts) && i < |states| && c in states[i].api.calls
  {
    Tells(states[i].api.calls[c], Threw(acts, i, c), Prevented(acts, i, c), RegistryThrew(acts, i, c))
  }

  lemma TellsOn(states: seq<State>, acts: seq<Action>, i: nat, c: Corr)
    requires Behaviour(states, acts) && i < |acts| && c in states[i].api.calls && TellsAt(states, acts, i, c)
    ensures c in states[i + 1].api.calls && TellsAt(states, acts, i + 1, c)
  {
    var s := states[i];
    ThrewMore(acts, i, c);
    match acts[i]
    case Tick(_) =>
    case Work(w, act) => WorkVerdicts(states, acts, i, w, act, c);
    case Serve(d, act) =>
      if d == c {
        CallHolds(states, acts, i, c);
        TellsStep(s.cfg, s.api.calls[c], c in s.api.waiters, c in s.api.subs, act, s.now, s.registry, |s.q.entries|,
                  Threw(acts, i, c), Prevented(acts, i, c), RegistryThrew(acts, i, c));
      }
  }

  lemma {:induction false} RunTells(states: seq<State>, acts: seq<Action>, i: nat, c: Corr)
    requires Behaviour(states, acts) && i < |states| && c in states[i].api.calls
    ensures TellsAt(states, acts, i, c)
  {
    if c in states[i - 1].api.calls {
      RunTells(states, acts, i - 1, c);
      TellsOn(states, acts, i - 1, c);
    } else {
      NoneThrewYet(states, acts, i - 1, c);
      ThrewMore(acts, i - 1, c);
      Arrives(states[i - 1], acts[i - 1], c);
    }
  }

  lemma Arrives(s: State, a: Action, c: Corr)
    requires Enabled(s, a) && c !in s.api.calls && c in Apply(s, a).api.calls
    ensures a.Serve? && a.c == c && a.request.Arrive? && Apply(s, a).api.calls[c] == NewCall(a.request.job)
  {
  }

  /** The escaping error is the one thing a finished request reports exactly when its registry read threw. */
  lemma ServerErrorIffRegistryThrew(states: seq<State>, acts: seq<Action>, i: nat, c: Corr)
    requires Behaviour(states, acts) && i < |states| && c in states[i].api.calls
    ensures states[i].api.calls[c].phase == Finished(ServerError) <==> RegistryThrew(acts, i, c)
  {
    RunTells(states, acts, i, c);
  }

  /**
   A finished request returned its outcome exactly when its promise was resolved and none of
   dispatch's Redis calls threw.
   */
  lemma AnsweredIffNothingThrew(states: seq<State>, acts: seq<Action>, i: nat, c: Corr)
    requires Behaviour(states, acts) && i < |states| && c in states[i].api.calls
    requires states[i].api.calls[c].phase.Finished?
    ensures var k := states[i].api.calls[c];
            k.phase.response.Answered? <==> k.promise.Resolved? && !Threw(acts, i, c)
  {
    RunTells(states, acts, i, c);
    CallHolds(states, acts, i, c);
  }

  /**
   When an outcome that reached the caller's own promise ends as NO_WORKER all the same: exactly
   when a Redis call of its dispatch threw, which was the UNSUBSCRIBE or an XADD that had been
   carried out.
   */
  lemma OutcomeLostIffThrew(states: seq<State>, acts: seq<Action>, i: nat, c: Corr)
    requires Behaviour(states, acts) && i < |states| && c in states[i].api.calls
    requires states[i].api.calls[c].phase.Finished? && states[i].api.calls[c].promise.Resolved?
    ensures states[i].api.calls[c].phase.response == NoReply <==> Threw(acts, i, c)
    ensures !Prevented(acts, i, c)
  {
    RunTells(states, acts, i, c);
    CallHolds(states, acts, i, c);
  }

  // ---- what NO_WORKER means ----

  /** Handling of c's job has begun. */
  ghost predicate Begun(s: State, c: Corr) {
    exists id :: 0 <= id < |s.q.tracks| && s.q.tracks[id].author == Some(c) && s.q.tracks[id].starts != []
  }

  /** c's job has not begun, and in no continuation of the run will it. */
  ghost predicate NeverBegins(states: seq<State>, acts: seq<Action>, c: Corr)
    requires Behaviour(states, acts)
  {
    forall states', acts' | Behaviour(states', acts') && states <= states' && acts <= acts' :: !Begun(states'[|acts'|], c)
  }

  predicate TurnedAway(p: Phase) {
    p == Finished(NoCapacity) || p == Finished(NoReply)
  }

  /**
   Why a request that was turned away has no entry: it was never let through, or its SUBSCRIBE threw,
   or its XADD was not carried out.
   */
  lemma NoEntryIff(states: seq<State>, acts: seq<Action>, i: nat, c: Corr)
    requires Behaviour(states, acts) && i < |states| && c in states[i].api.calls && TurnedAway(states[i].api.calls[c].phase)
    ensures states[i].api.calls[c].entry.None? <==>
            states[i].api.calls[c].phase == Finished(NoCapacity) || Prevented(acts, i, c)
  {
    RunTells(states, acts, i, c);
    CallHolds(states, acts, i, c);
  }

  lemma PreventedStays(acts: seq<Action>, i: nat, j: nat, c: Corr)
    requires i <= j <= |acts| && Prevented(acts, i, c)
    ensures Prevented(acts, j, c)
  {
    var m :| 0 <= m < i && acts[m].Serve? && acts[m].c == c && PreventsEntry(acts[m].request);
    assert 0 <= m < j;
  }

  /** Without an entry by then, there is none at any later state, so nothing begins. */
  lemma NoEntryNoBegin(states: seq<State>, acts: seq<Action>, i: nat, j: nat, c: Corr)
    requires Behaviour(states, acts) && i <= j < |states| && c in states[i].api.calls
    requires TurnedAway(states[i].api.calls[c].phase) && states[i].api.calls[c].entry.None?
    ensures !Begun(states[j], c)
  {
    NoEntryIff(states, acts, i, c);
    CallBetween(states, acts, i, j, c);
    if Prevented(acts, i, c) {
      PreventedStays(acts, i, j, c);
    }
    NoEntryIff(states, acts, j, c);
    RunInv(states, acts, j);
    var s := states[j];
    forall id | 0 <= id < |s.q.tracks|
      ensures s.q.tracks[id].author != Some(c)
    {
      assert AuthorOk(s.base, s.q, s.api.calls, id);
    }
  }

  /** With an entry, some continuation begins it. */
  lemma EntryCanBegin(states: seq<State>, acts: seq<Action>, c: Corr)
    requires Behaviour(states, acts) && c in states[|acts|].api.calls && states[|acts|].api.calls[c].entry.Some?
    ensures !NeverBegins(states, acts, c)
  {
    RunInv(states, acts, |acts|);
    var s := states[|acts|];
    var id := s.api.calls[c].entry.value;
    assert AuthorOk(s.base, s.q, s.api.calls, id);
    var states', acts' := CanBegin(states, acts, id);
    assert states'[|acts|] == s;
    RunAfter(states', acts', |acts|, |acts'|);
    assert TrackLater(s.q.tracks[id], s.now, states'[|acts'|].q.tracks[id]);
    assert Begun(states'[|acts'|], c);
  }

  /**
   When NO_WORKER means that nothing ran. The job of a request turned away with NO_WORKER never
   runs, now or later, exactly when its XADD was not carried out: no capacity, a SUBSCRIBE that
   threw, or an XADD that threw before Redis had it. In every other case it may have run already,
   and if not the run has a way to go on in which it does.
   */
  lemma NoWorkerMeansNothingRanIff(states: seq<State>, acts: seq<Action>, c: Corr)
    requires Behaviour(states, acts) && c in states[|acts|].api.calls && TurnedAway(states[|acts|].api.calls[c].phase)
    ensures NeverBegins(states, acts, c) <==>
            states[|acts|].api.calls[c].phase == Finished(NoCapacity) || Prevented(acts, |acts|, c)
  {
    NoEntryIff(states, acts, |acts|, c);
    if states[|acts|].api.calls[c].entry.None? {
      forall states', acts' | Behaviour(states', acts') && states <= states' && acts <= acts'
        ensures !Begun(states'[|acts'|], c)
      {
        assert states'[|acts|] == states[|acts|];
        NoEntryNoBegin(states', acts', |acts|, |acts'|, c);
      }
    } else {
      EntryCanBegin(states, acts, c);
    }
  }

  // ---- what is left subscribed ----

  /** A SUBSCRIBE of c's that threw although it had been carried out, or an UNSUBSCRIBE that was not carried out. */
  ghost predicate LeftBehind(acts: seq<Action>, i: nat, c: Corr)
    requires i <= |acts|
  {
    exists m :: 0 <= m < i && (acts[m] == Serve(c, SubscribeError(true)) || acts[m] == Serve(c, UnsubscribeError(false)))
  }

  predicate LeavesBehind(act: CallAct) {
    act == SubscribeError(true) || act == UnsubscribeError(false)
  }

  /** Where a request is in its code, and whether its channel is subscribed. */
  ghost predicate SubscribedFits(k: Call, subscribed: bool, left: bool) {
    if BeforeDispatch(k.phase) || k.phase.Subscribing? then !subscribed && !left
    else if InTry(k.phase) then subscribed && !left
    else subscribed <==> left
  }

  lemma SubscribedStep(cfg: Config, k: Call, waiting: bool, subscribed: bool, act: CallAct, now: nat, hash: Hash,
                       next: nat, left: bool)
    requires ActEnabled(k, act, now) && SubscribedFits(k, subscribed, left)
    requires k.phase.Recording? ==> k.phase.response != ServerError
    ensures SubscribedFits(CallAfter(cfg, k, waiting, act, now, hash, next),
                           SubscribedAfter(subscribed, act), left || LeavesBehind(act))
  {
  }

  lemma LeftMore(acts: seq<Action>, i: nat, c: Corr)
    requires i < |acts|
    ensures LeftBehind(acts, i + 1, c) <==>
            LeftBehind(acts, i, c) || (acts[i].Serve? && acts[i].c == c && LeavesBehind(acts[i].request))
  {
    if LeftBehind(acts, i, c) {
      var m :| 0 <= m < i && (acts[m] == Serve(c, SubscribeError(true)) || acts[m] == Serve(c, UnsubscribeError(false)));
      assert 0 <= m < i + 1;
    }
    if acts[i].Serve? && acts[i].c == c && LeavesBehind(acts[i].request) {
      assert acts[i] == Serve(c, SubscribeError(true)) || acts[i] == Serve(c, UnsubscribeError(false));
    }
  }

  ghost predicate SubscribedAt(states: seq<State>, acts: seq<Action>, i: nat, c: Corr)
    requires i < |states| == |acts| + 1
  {
    if c in states[i].api.calls then SubscribedFits(states[i].api.calls[c], c in states[i].api.subs, LeftBehind(acts, i, c))
    else c !in states[i].api.subs && !LeftBehind(acts, i, c)
  }

  /** What a step does to c's subscription and to where c is in its code. */
  lemma SubsMove(s: State, a: Action, c: Corr)
    requires Enabled(s, a)
    ensures var t := Apply(s, a);
            && (a.Serve? && a.c == c && !a.request.Arrive? ==>
                  (c in t.api.subs <==> SubscribedAfter(c in s.api.subs, a.request)))
            && (!a.Serve? || a.c != c || a.request.Arrive? ==> (c in t.api.subs <==> c in s.api.subs))
            && (!a.Serve? || a.c != c ==>
                  (c in t.api.calls <==> c in s.api.calls) && (c in s.api.calls ==> t.api.calls[c].phase == s.api.calls[c].phase))
  {
  }

  lemma SubscribedNext(states: seq<State>, acts: seq<Action>, i: nat, c: Corr)
    requires Behaviour(states, acts) && 0 < i < |states| && SubscribedAt(states, acts, i - 1, c)
    ensures SubscribedAt(states, acts, i, c)
  {
    var s, a := states[i - 1], acts[i - 1];
    SubsMove(s, a, c);
    LeftMore(acts, i - 1, c);
    if a.Serve? && a.c == c && !a.request.Arrive? {
      CallHolds(states, acts, i - 1, c);
      SubscribedStep(s.cfg, s.api.calls[c], c in s.api.waiters, c in s.api.subs, a.request, s.now, s.registry, |s.q.entries|,
                     LeftBehind(acts, i - 1, c));
    }
  }

  lemma {:induction false} RunSubscribed(states: seq<State>, acts: seq<Action>, i: nat, c: Corr)
    requires Behaviour(states, acts) && i < |states|
    ensures SubscribedAt(states, acts, i, c)
  {
    if i > 0 {
      RunSubscribed(states, acts, i - 1, c);
      SubscribedNext(states, acts, i, c);
    }
  }

  /**
   dispatch cleans up after itself: a finished request's channel is still subscribed exactly when its
   SUBSCRIBE threw although it had been carried out, or its UNSUBSCRIBE was not carried out.
   */
  lemma StillSubscribedIff(states: seq<State>, acts: seq<Action>, i: nat, c: Corr)
    requires Behaviour(states, acts) && i < |states| && c in states[i].api.calls && states[i].api.calls[c].phase.Finished?
    ensures c in states[i].api.subs <==>
            exists m :: 0 <= m < i &&
              (acts[m] == Serve(c, SubscribeError(true)) || acts[m] == Serve(c, UnsubscribeError(false)))
  {
    RunSubscribed(states, acts, i, c);
  }
}
