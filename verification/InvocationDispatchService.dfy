/**
 InvocationDispatchService, written as the class it is. Several of its dispatches may be under way
 at once, beside those of other API processes; each await lets all of them, the workers and the
 clock do anything the protocol allows.
 */
module DispatchServices {
  import opened Platform
  import opened Wire
  import opened Calls
  import opened Protocol
  import opened Settlement
  import opened Rejections
  import opened World

  /** The map from channels to resolvers holds exactly the registered waiters among mine, each under its own channel. */
  ghost predicate Mirrors(waiters: map<string, Corr>, mine: set<Corr>, registered: set<Corr>) {
    && (forall channel | channel in waiters ::
          channel == Channel(waiters[channel]) && waiters[channel] in mine && waiters[channel] in registered)
    && (forall c | c in mine && c in registered :: Channel(c) in waiters && waiters[Channel(c)] == c)
  }

  lemma MirrorsSet(waiters: map<string, Corr>, mine: set<Corr>, registered: set<Corr>, c: Corr)
    requires Mirrors(waiters, mine, registered)
    ensures Mirrors(waiters[Channel(c) := c], mine + {c}, registered + {c})
  {
    forall d | d in mine && d in registered && d != c
      ensures Channel(d) != Channel(c)
    {
      if Channel(d) == Channel(c) {
        ChannelsDiffer(d, c);
      }
    }
    if Channel(c) in waiters {
      ChannelsDiffer(waiters[Channel(c)], c);
    }
  }

  lemma MirrorsDelete(waiters: map<string, Corr>, mine: set<Corr>, registered: set<Corr>, c: Corr)
    requires Mirrors(waiters, mine, registered)
    ensures Mirrors(waiters - {Channel(c)}, mine, registered - {c})
  {
    forall d | d in mine && d in registered && d != c
      ensures Channel(d) != Channel(c)
    {
      if Channel(d) == Channel(c) {
        ChannelsDiffer(d, c);
      }
    }
  }

  /** What a step of call d does to the set of registered waiters. */
  lemma WaitersMove(s: State, d: Corr, act: CallAct)
    requires Enabled(s, Serve(d, act))
    ensures var after := Apply(s, Serve(d, act)).api.waiters;
            && after - {d} == s.api.waiters - {d}
            && (act.Register? ==> after == s.api.waiters + {d})
            && (act.OnMessage? || act.OnTimer? ==> after == s.api.waiters - {d})
            && (!act.Register? && !act.OnMessage? && !act.OnTimer? ==> after == s.api.waiters)
  {
  }

  lemma MirrorsOthers(waiters: map<string, Corr>, mine: set<Corr>, registered: set<Corr>, after: set<Corr>, d: Corr)
    requires Mirrors(waiters, mine, registered) && d !in mine && after - {d} == registered - {d}
    ensures Mirrors(waiters, mine, after)
  {
    forall c | c in mine
      ensures c in after <==> c in registered
    {
      assert c in after <==> c in after - {d};
      assert c in registered <==> c in registered - {d};
    }
  }

  /** A step that is not of request c's own code leaves that request where it is. */
  lemma PhaseStays(s: State, a: Action, c: Corr)
    requires Enabled(s, a) && c in s.api.calls
    requires a.Serve? && a.c == c ==> a.request.OnMessage? || a.request.OnTimer?
    ensures c in Apply(s, a).api.calls
    ensures Apply(s, a).api.calls[c].phase == s.api.calls[c].phase
    ensures Apply(s, a).api.calls[c].job == s.api.calls[c].job
  {
  }

  lemma NoneLost(s: State, a: Action)
    requires Enabled(s, a)
    ensures s.api.calls.Keys <= Apply(s, a).api.calls.Keys
  {
  }

  function ResponseFor(result: Option<Outcome>): Response {
    match result
    case Some(o) => Answered(o)
    case None => NoReply
  }

  class InvocationDispatchService {
    const redis: System
    var waiters: map<string, Corr>
    var mine: set<Corr>   // history: the dispatches begun in this process

    ghost predicate Coupled()
      reads this, redis
    {
      redis.Valid() && mine <= redis.s.api.calls.Keys && Mirrors(waiters, mine, redis.s.api.waiters)
    }

    twostate predicate Extends()
      reads this, redis
    {
      old(redis.states) <= redis.states && old(redis.acts) <= redis.acts && old(redis.step) <= redis.step && old(mine) <= mine
    }

    /** An await in request c leaves that request where it is in its code. */
    twostate predicate Paused(c: Corr)
      reads this, redis
      requires old(c in redis.s.api.calls)
    {
      && Coupled() && Extends() && (c in mine <==> old(c in mine))
      && c in redis.s.api.calls
      && redis.s.api.calls[c].phase == old(redis.s.api.calls[c].phase)
      && redis.s.api.calls[c].job == old(redis.s.api.calls[c].job)
      && (Failed(c) <==> old(Failed(c)))
    }

    /** Some Redis call of request c's dispatch has thrown. */
    ghost predicate Failed(c: Corr)
      reads redis
    {
      Threw(redis.acts, |redis.acts|, c)
    }

    constructor (redis: System)
      requires redis.Valid()
      ensures this.redis == redis && Coupled() && waiters == map[] && mine == {}
    {
      this.redis, waiters, mine := redis, map[], {};
    }

    /** The message handler: a resolver still in the map is taken out and called; a later message finds none. */
    method OnMessage(c: Corr)
      requires Coupled() && c in mine && redis.s.api.calls[c].inbox != []
      modifies this, redis
      ensures Coupled() && Extends() && mine == old(mine) && waiters == old(waiters) - {Channel(c)}
      ensures Enabled(old(redis.s), Serve(c, CallAct.OnMessage))
      ensures redis.s == Apply(old(redis.s), Serve(c, CallAct.OnMessage))
      ensures redis.acts == old(redis.acts) + [Serve(c, CallAct.OnMessage)]
      ensures redis.s.api.calls[c].inbox == old(redis.s.api.calls[c].inbox)[1..]
      ensures redis.s.api.calls[c].promise ==
              if Channel(c) in old(waiters) then Resolved(old(redis.s.api.calls[c].inbox[0].outcome))
              else old(redis.s.api.calls[c].promise)
    {
      var channel := Channel(c);
      MirrorsDelete(waiters, mine, redis.s.api.waiters, c);
      WaitersMove(redis.s, c, CallAct.OnMessage);
      Registered(c);
      if channel in waiters {
        waiters := waiters - {channel};
      }
      redis.Do(Serve(c, CallAct.OnMessage));
    }

    /** The timer, which nothing clears: past its deadline it rejects a waiter that is still there. */
    method OnTimer(c: Corr)
      requires Coupled() && c in mine && CallEnabled(redis.s.api, c, CallAct.OnTimer, redis.s.now)
      modifies this, redis
      ensures Coupled() && Extends() && mine == old(mine) && waiters == old(waiters) - {Channel(c)}
      ensures redis.s == Apply(old(redis.s), Serve(c, CallAct.OnTimer))
      ensures redis.acts == old(redis.acts) + [Serve(c, CallAct.OnTimer)]
      ensures redis.s.api.calls[c].promise ==
              if Channel(c) in old(waiters) then Rejected else old(redis.s.api.calls[c].promise)
    {
      var channel := Channel(c);
      MirrorsDelete(waiters, mine, redis.s.api.waiters, c);
      WaitersMove(redis.s, c, CallAct.OnTimer);
      Registered(c);
      if channel in waiters {
        waiters := waiters - {channel};
      }
      redis.Do(Serve(c, CallAct.OnTimer));
    }

    lemma Registered(c: Corr)
      requires Coupled() && c in mine
      ensures Channel(c) in waiters <==> c in redis.s.api.waiters
      ensures Channel(c) !in waiters ==> waiters - {Channel(c)} == waiters
    {
      if Channel(c) in waiters {
        ChannelsDiffer(waiters[Channel(c)], c);
      }
    }

    /** new Promise: the waiter is registered and the timer set, before anything is awaited. */
    method Enroll(c: Corr)
      requires Coupled() && c in redis.s.api.calls && redis.s.api.calls[c].phase.Admitted?
      modifies this, redis
      ensures Coupled() && Extends() && mine == old(mine) + {c} && waiters == old(waiters)[Channel(c) := c]
      ensures Enabled(old(redis.s), Serve(c, Register))
      ensures redis.s == Apply(old(redis.s), Serve(c, Register)) && redis.acts == old(redis.acts) + [Serve(c, Register)]
      ensures redis.s.api.calls[c].deadline == redis.s.now +
                match redis.s.cfg.dispatchTimeoutMs
                case Some(ms) => ms
                case None => redis.s.api.calls[c].job.timeoutMs + 5000
    {
      MirrorsSet(waiters, mine, redis.s.api.waiters, c);
      WaitersMove(redis.s, c, Register);
      waiters := waiters[Channel(c) := c];
      mine := mine + {c};
      redis.Do(Serve(c, Register));
    }

    /** Steps that are neither request c's own nor one of this service's handlers. */
    predicate Foreign(a: Action, c: Corr)
      reads this
    {
      a.Serve? ==> a.c != c && (a.c in mine ==> !a.request.Register? && !a.request.OnMessage? && !a.request.OnTimer?)
    }

    method Other(a: Action, c: Corr)
      requires Coupled() && c in redis.s.api.calls && Foreign(a, c) && Enabled(redis.s, a)
      modifies redis
      ensures Paused(c) && redis.acts == old(redis.acts) + [a]
    {
      PhaseStays(redis.s, a, c);
      StaysMirrored(a, c);
      NoneLost(redis.s, a);
      ThrewOn(redis.acts, a, c);
      redis.Do(a);
    }

    lemma StaysMirrored(a: Action, c: Corr)
      requires Coupled() && Foreign(a, c) && Enabled(redis.s, a)
      ensures Mirrors(waiters, mine, Apply(redis.s, a).api.waiters)
    {
      if a.Serve? {
        WaitersMove(redis.s, a.c, a.request);
        if a.c !in mine {
          MirrorsOthers(waiters, mine, redis.s.api.waiters, Apply(redis.s, a).api.waiters, a.c);
        }
      }
    }

    /** A step of one of this service's handlers. */
    predicate Handled(a: Action)
      reads this
    {
      a.Serve? && a.c in mine && (a.request.OnMessage? || a.request.OnTimer?)
    }

    /** One turn of the event loop, or one step elsewhere; here says that a dispatch begins in this process. */
    method Turn(a: Action, here: bool, c: Corr)
      requires Coupled() && c in redis.s.api.calls && Enabled(redis.s, a)
      modifies this, redis
      ensures Paused(c)
      ensures old(Foreign(a, c) || Handled(a)) ==> redis.acts == old(redis.acts) + [a]
    {
      if Foreign(a, c) {
        if here && a.Serve? && a.request.Register? {
          PhaseStays(redis.s, a, c);
          ThrewOn(redis.acts, a, c);
          Enroll(a.c);
        } else {
          Other(a, c);
        }
      } else if a.Serve? && a.c in mine && a.request.OnMessage? {
        PhaseStays(redis.s, a, c);
        ThrewOn(redis.acts, Serve(a.c, CallAct.OnMessage), c);
        OnMessage(a.c);
      } else if a.Serve? && a.c in mine && a.request.OnTimer? {
        PhaseStays(redis.s, a, c);
        ThrewOn(redis.acts, Serve(a.c, CallAct.OnTimer), c);
        OnTimer(a.c);
      }
    }

    /** An await in request c. */
    method Await(c: Corr)
      requires Coupled() && c in redis.s.api.calls
      modifies this, redis
      ensures Paused(c)
    {
      var turns: nat := *;
      while turns > 0
        invariant Paused(c)
      {
        var a: Action := *;
        var here: bool := *;
        if Enabled(redis.s, a) {
          Turn(a, here, c);
        }
        turns := turns - 1;
      }
    }

    // ---- dispatch ----

    /** A part of request c's own code is over. */
    twostate predicate Went(c: Corr)
      reads this, redis
      requires old(c in redis.s.api.calls)
    {
      && Coupled() && Extends() && c in mine && c in redis.s.api.calls
      && redis.s.api.calls[c].job == old(redis.s.api.calls[c].job)
    }

    /** Request c's own next step, which leaves waiters alone. */
    method Step(c: Corr, act: CallAct)
      requires Coupled() && Enabled(redis.s, Serve(c, act))
      requires !act.Register? && !act.OnMessage? && !act.OnTimer?
      modifies redis
      ensures Coupled() && Extends() && Enabled(old(redis.s), Serve(c, act)) && redis.s == Apply(old(redis.s), Serve(c, act))
      ensures redis.acts == old(redis.acts) + [Serve(c, act)] && redis.states == old(redis.states) + [redis.s]
    {
      WaitersMove(redis.s, c, act);
      NoneLost(redis.s, Serve(c, act));
      redis.Do(Serve(c, act));
    }

    method Subscribe(c: Corr) returns (threw: bool)
      requires Coupled() && c in mine && redis.s.api.calls[c].phase.Subscribing?
      modifies this, redis
      ensures Went(c)
      ensures redis.s.api.calls[c].phase == if threw then Recording(NoReply) else Adding
      ensures Failed(c) <==> old(Failed(c)) || threw
      ensures threw ==> redis.Disturbed(old(redis.step))
    {
      Await(c);
      ghost var n := redis.step;
      var fate := redis.Fate();
      threw := fate != Done;
      ThrewOn(redis.acts, Serve(c, if threw then SubscribeError(fate == Lost) else CallAct.Subscribe), c);
      Step(c, if threw then SubscribeError(fate == Lost) else CallAct.Subscribe);
      assert threw ==> redis.oracle.fate(n) != Done;
    }

    method Add(c: Corr) returns (threw: bool)
      requires Coupled() && c in mine && redis.s.api.calls[c].phase.Adding?
      modifies this, redis
      ensures Went(c)
      ensures redis.s.api.calls[c].phase == if threw then Leaving(None) else Awaiting
      ensures Failed(c) <==> old(Failed(c)) || threw
      ensures threw ==> redis.Disturbed(old(redis.step))
    {
      Await(c);
      ghost var n := redis.step;
      var fate := redis.Fate();
      threw := fate != Done;
      ThrewOn(redis.acts, Serve(c, if threw then AddError(fate == Lost) else CallAct.Add), c);
      Step(c, if threw then AddError(fate == Lost) else CallAct.Add);
      assert threw ==> redis.oracle.fate(n) != Done;
    }

    method ReachDeadline(c: Corr)
      requires Coupled() && c in mine && redis.s.api.calls[c].phase.Awaiting?
      modifies redis
      ensures Coupled() && Extends() && redis.s.api == old(redis.s.api) && (Failed(c) <==> old(Failed(c)))
      ensures CallEnabled(redis.s.api, c, CallAct.OnTimer, redis.s.now)
    {
      OnCall(c);
      var deadline := redis.s.api.calls[c].deadline;
      if redis.s.now < deadline {
        ThrewOn(redis.acts, Tick(deadline - redis.s.now), c);
        redis.Do(Tick(deadline - redis.s.now));
      }
    }

    /** The clock comes to request c's deadline, and its timer fires. */
    method Expire(c: Corr)
      requires Coupled() && c in mine && redis.s.api.calls[c].phase.Awaiting? && Channel(c) in waiters
      modifies this, redis
      ensures Went(c) && redis.s.api.calls[c].phase == Awaiting && Channel(c) !in waiters
      ensures Failed(c) <==> old(Failed(c))
    {
      ReachDeadline(c);
      ThrewOn(redis.acts, Serve(c, CallAct.OnTimer), c);
      OnTimer(c);
    }

    /** A call of this process has its waiter in the map exactly while its promise is unsettled. */
    lemma OnCall(c: Corr)
      requires Coupled() && c in mine && c in redis.s.api.calls
      ensures Channel(c) in waiters <==> redis.s.api.calls[c].promise.Unsettled?
      ensures redis.s.api.calls[c].promise.NotMade? <==> BeforeDispatch(redis.s.api.calls[c].phase)
      ensures AnswerFits(redis.s.api.calls[c])
    {
      Registered(c);
      CallHolds(redis.states, redis.acts, |redis.acts|, c);
    }

    /** A reply that has arrived before the deadline is handled before the timer can be. */
    method HandleArrived(c: Corr)
      requires Coupled() && c in mine && redis.s.api.calls[c].phase.Awaiting?
      requires redis.s.api.calls[c].inbox != []
      modifies this, redis
      ensures Went(c) && redis.s.api.calls[c].phase == Awaiting && (Failed(c) <==> old(Failed(c)))
      ensures redis.s.api.calls[c].promise ==
              if old(Channel(c) in waiters) then Resolved(old(redis.s.api.calls[c].inbox[0].outcome))
              else old(redis.s.api.calls[c].promise)
    {
      ThrewOn(redis.acts, Serve(c, CallAct.OnMessage), c);
      OnMessage(c);
    }

    /**
     await resultPromise: a message settles it, or in the end the timer does. If a reply is there when
     the wait begins, before the deadline, that reply is the result.
     */
    method AwaitResult(c: Corr) returns (result: Option<Outcome>)
      requires Coupled() && c in mine && redis.s.api.calls[c].phase.Awaiting?
      modifies this, redis
      ensures Went(c) && redis.s.api.calls[c].phase == Leaving(result)
      ensures redis.s.api.calls[c].promise == match result { case Some(o) => Resolved(o) case None => Rejected }
      ensures Failed(c) <==> old(Failed(c))
      ensures old(Channel(c) in waiters && redis.s.api.calls[c].inbox != [] && redis.s.now < redis.s.api.calls[c].deadline) ==>
                result == Some(old(redis.s.api.calls[c].inbox[0].outcome))
    {
      if redis.s.api.calls[c].inbox != [] && redis.s.now < redis.s.api.calls[c].deadline {
        HandleArrived(c);
      }
      ghost var i := redis.step;
      Waits(c);
      if Settled(redis.states[i].api.calls[c].promise) {
        SettledOnce(redis.states, redis.acts, i, |redis.acts|, c);
      }
      result := Resume(c);
      if Settled(redis.states[i].api.calls[c].promise) {
        SettledOnce(redis.states, redis.acts, i, |redis.acts|, c);
      }
    }

    /** Until a message or the timer has settled the promise. */
    method Waits(c: Corr)
      requires Coupled() && c in mine && redis.s.api.calls[c].phase.Awaiting?
      modifies this, redis
      ensures Went(c) && redis.s.api.calls[c].phase == Awaiting && Channel(c) !in waiters
      ensures Failed(c) <==> old(Failed(c))
    {
      Await(c);
      if Channel(c) in waiters {
        if redis.s.api.calls[c].inbox != [] {
          HandleArrived(c);
          OnCall(c);
        } else {
          Expire(c);
        }
      }
    }

    method Resume(c: Corr) returns (result: Option<Outcome>)
      requires Coupled() && c in mine && redis.s.api.calls[c].phase.Awaiting? && Channel(c) !in waiters
      modifies redis
      ensures Went(c) && redis.s.api.calls[c].phase == Leaving(result)
      ensures redis.s.api.calls[c].promise == match result { case Some(o) => Resolved(o) case None => Rejected }
      ensures Failed(c) <==> old(Failed(c))
    {
      OnCall(c);
      ThrewOn(redis.acts, Serve(c, CallAct.Resume), c);
      Step(c, CallAct.Resume);
      result := redis.s.api.calls[c].phase.result;
    }

    /** finally: an UNSUBSCRIBE that throws takes the place of the result. */
    method Unsubscribe(c: Corr, result: Option<Outcome>) returns (threw: bool)
      requires Coupled() && c in mine && redis.s.api.calls[c].phase == Leaving(result)
      modifies this, redis
      ensures Went(c) && redis.s.api.calls[c].phase == Recording(ResponseFor(if threw then None else result))
      ensures !threw ==> c !in redis.s.api.subs
      ensures old(Settled(redis.s.api.calls[c].promise)) ==>
                redis.s.api.calls[c].promise == old(redis.s.api.calls[c].promise)
      ensures Failed(c) <==> old(Failed(c)) || threw
      ensures threw ==> redis.Disturbed(old(redis.step))
    {
      ghost var i := |redis.acts|;
      Await(c);
      ghost var n := redis.step;
      var fate := redis.Fate();
      threw := fate != Done;
      ThrewOn(redis.acts, Serve(c, if threw then UnsubscribeError(fate == Lost) else CallAct.Unsubscribe), c);
      Step(c, if threw then UnsubscribeError(fate == Lost) else CallAct.Unsubscribe);
      assert threw ==> redis.oracle.fate(n) != Done;
      if Settled(redis.states[i].api.calls[c].promise) {
        SettledOnce(redis.states, redis.acts, i, |redis.acts|, c);
      }
    }

    lemma NotFailedYet(c: Corr)
      requires Coupled() && c in redis.s.api.calls && redis.s.api.calls[c].phase.Admitted?
      ensures !Failed(c)
    {
      RunTells(redis.states, redis.acts, |redis.acts|, c);
    }

    method Begin(c: Corr)
      requires Coupled() && c in redis.s.api.calls && redis.s.api.calls[c].phase.Admitted?
      modifies this, redis
      ensures Went(c) && redis.s.api.calls[c].phase == Subscribing && !Failed(c)
    {
      NotFailedYet(c);
      ThrewOn(redis.acts, Serve(c, Register), c);
      Enroll(c);
    }

    /** The try block and its finally. */
    method Exchange(c: Corr) returns (threw: bool, result: Option<Outcome>)
      requires Coupled() && c in mine && redis.s.api.calls[c].phase.Adding?
      modifies this, redis
      ensures Went(c) && redis.s.api.calls[c].phase == Recording(ResponseFor(result))
      ensures threw ==> result.None?
      ensures !threw ==> c !in redis.s.api.subs
      ensures !threw ==>
                redis.s.api.calls[c].promise == match result { case Some(o) => Resolved(o) case None => Rejected }
      ensures Failed(c) <==> old(Failed(c)) || threw
      ensures threw ==> redis.Disturbed(old(redis.step))
    {
      result := None;
      threw := Add(c);
      if !threw {
        result := AwaitResult(c);
      }
      var lost := Unsubscribe(c, result);
      if lost {
        threw, result := true, None;
      }
    }

    lemma SettledHere(c: Corr, result: Option<Outcome>)
      requires Coupled() && c in mine && c in redis.s.api.calls
      requires redis.s.api.calls[c].promise == match result { case Some(o) => Resolved(o) case None => Rejected }
      ensures Channel(c) !in waiters
      ensures result.Some? ==> RanFor(redis.s, c, result.value)
    {
      OnCall(c);
      if result.Some? {
        ResolvedByOwnRun(redis.states, redis.acts, |redis.acts|, c, result.value);
      }
    }

    /**
     dispatch; None is a throw, and failed says whether one of its Redis calls threw. Unless one
     did, the promise was settled by a message or by the timer, its waiter and its subscription are
     gone, and that is what the caller gets. An outcome is never anything but that of a run of this dispatch's own job.
     */
    method Dispatch(c: Corr) returns (result: Option<Outcome>, ghost failed: bool)
      requires Coupled() && c in redis.s.api.calls && redis.s.api.calls[c].phase.Admitted?
      modifies this, redis
      ensures Went(c) && redis.s.api.calls[c].phase == Recording(ResponseFor(result))
      ensures !failed ==>
                && redis.s.api.calls[c].promise == (match result { case Some(o) => Resolved(o) case None => Rejected })
                && Channel(c) !in waiters && c !in redis.s.api.subs
      ensures failed ==> redis.Disturbed(old(redis.step))
      ensures result.Some? ==> !failed && RanFor(redis.s, c, result.value)
      ensures failed <==> Failed(c)
    {
      Begin(c);
      result := None;
      var threw := Subscribe(c);
      if !threw {
        threw, result := Exchange(c);
        if !threw {
          SettledHere(c, result);
        }
      }
      failed := threw;
    }
  }
}
