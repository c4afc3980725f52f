/** FunctionsService.invoke: the lookups' answers, admission, dispatch, and the row that accounts for it. */
module FunctionsServices {
  import opened Platform
  import opened Wire
  import opened Calls
  import opened Settlement
  import opened Rejections
  import opened DispatchServices
  import opened RegistryServices
  import opened World

  /** What the database holds of a function that invoke uses. */
  datatype FunctionRecord = FunctionRecord(timeoutMs: nat, memoryMb: nat)

  /** What a database lookup comes to. */
  datatype Query<T> = Found(value: T) | Absent | LookupFailed

  /** An error from the database, 404, 409, or what came of a request that got past both lookups. */
  datatype HttpReply = DatabaseError | NotFound | NotBuilt | Responded(response: Response)

  class FunctionsService {
    const dispatcher: InvocationDispatchService

    constructor (dispatcher: InvocationDispatchService)
      ensures this.dispatcher == dispatcher
    {
      this.dispatcher := dispatcher;
    }

    ghost function CallOf(c: Corr): Call
      reads this, dispatcher, dispatcher.redis
      requires c in dispatcher.redis.s.api.calls
    {
      dispatcher.redis.s.api.calls[c]
    }

    /** Request c is in order, and of the same job as before. */
    twostate predicate Went(c: Corr)
      reads this, dispatcher, dispatcher.redis
      requires old(c in dispatcher.redis.s.api.calls)
    {
      && dispatcher.Coupled() && dispatcher.Extends() && c in dispatcher.redis.s.api.calls
      && CallOf(c).job == old(CallOf(c).job)
    }

    /** Request c read the registry at step m and judged that copy at step n. */
    ghost predicate JudgedAt(c: Corr, m: nat, n: nat, spare: bool)
      reads dispatcher, dispatcher.redis
    {
      var r := dispatcher.redis;
      && m < n < |r.acts| < |r.states| && r.acts[m] == Protocol.Serve(c, ReadCapacity) && r.acts[n] == Protocol.Serve(c, Decide)
      && (spare <==> exists w | w in r.states[m].registry ::
                       var beat := r.states[m].registry[w];
                       r.states[n].now - beat.lastHeartbeatAt <= 10000 && beat.inFlight < beat.capacity)
    }

    /** hasSpareCapacity: the registry is read, and later judged by the clock of that later moment. */
    method HasSpareCapacity(c: Corr) returns (threw: bool, spare: bool)
      requires dispatcher.Coupled() && c in dispatcher.redis.s.api.calls && CallOf(c).phase.Arrived?
      modifies dispatcher, dispatcher.redis
      ensures Went(c)
      ensures CallOf(c).phase == if threw then Finished(ServerError) else if spare then Admitted else Recording(NoCapacity)
      ensures threw ==> dispatcher.redis.Disturbed(old(dispatcher.redis.step))
      ensures !threw ==> exists m, n: nat :: |old(dispatcher.redis.acts)| <= m && JudgedAt(c, m, n, spare)
    {
      var raw;
      threw, raw := ReadRegistry(c);
      spare := false;
      if !threw {
        ghost var m := |dispatcher.redis.acts| - 1;
        spare := Judge(c, raw, m);
      }
    }

    /** listWorkers' HGETALL: the texts of the registry as it is at that moment. */
    method ReadRegistry(c: Corr) returns (threw: bool, raw: map<WorkerId, string>)
      requires dispatcher.Coupled() && c in dispatcher.redis.s.api.calls && CallOf(c).phase.Arrived?
      modifies dispatcher, dispatcher.redis
      ensures Went(c)
      ensures threw ==> CallOf(c).phase == Finished(ServerError) && dispatcher.redis.Disturbed(old(dispatcher.redis.step))
      ensures var r := dispatcher.redis;
              !threw ==>
                && |old(r.acts)| < |r.acts| < |r.states| && r.acts[|r.acts| - 1] == Protocol.Serve(c, ReadCapacity)
                && CallOf(c).phase == CapacityRead(r.states[|r.acts| - 1].registry)
                && Readable(raw) && AsHash(raw) == r.states[|r.acts| - 1].registry
    {
      dispatcher.Await(c);
      ghost var n := dispatcher.redis.step;
      var fate := dispatcher.redis.Fate();
      threw := fate != Done;
      raw := Stored(dispatcher.redis.s.registry);
      StoredReadsBack(dispatcher.redis.s.registry);
      if threw {
        dispatcher.Step(c, CapacityError);
        assert dispatcher.redis.oracle.fate(n) != Done;
      } else {
        dispatcher.Step(c, ReadCapacity);
      }
    }

    /** The capacity test on that answer, by the clock once it has been waited for. */
    method Judge(c: Corr, raw: map<WorkerId, string>, ghost m: nat) returns (spare: bool)
      requires dispatcher.Coupled() && c in dispatcher.redis.s.api.calls && m < |dispatcher.redis.acts|
      requires dispatcher.redis.acts[m] == Protocol.Serve(c, ReadCapacity)
      requires CallOf(c).phase == CapacityRead(dispatcher.redis.states[m].registry)
      requires Readable(raw) && AsHash(raw) == dispatcher.redis.states[m].registry
      modifies dispatcher, dispatcher.redis
      ensures Went(c) && CallOf(c).phase == if spare then Admitted else Recording(NoCapacity)
      ensures exists n: nat :: JudgedAt(c, m, n, spare)
    {
      dispatcher.Await(c);
      ghost var n := |dispatcher.redis.acts|;
      spare := SpareIn(raw, dispatcher.redis.s.now);
      dispatcher.Step(c, Decide);
      assert JudgedAt(c, m, n, spare);
    }

    /** recordInvocation: one attempt at a row; whether the insert succeeds, the request goes on. */
    method RecordInvocation(c: Corr, response: Response)
      requires dispatcher.Coupled() && c in dispatcher.redis.s.api.calls && CallOf(c).phase == Recording(response)
      modifies dispatcher, dispatcher.redis
      ensures Went(c) && CallOf(c).phase == Finished(response)
      ensures old(Settled(CallOf(c).promise)) ==> CallOf(c).promise == old(CallOf(c).promise)
    {
      ghost var i := dispatcher.redis.step;
      dispatcher.Await(c);
      dispatcher.Step(c, Record);
      if Settled(dispatcher.redis.states[i].api.calls[c].promise) {
        SettledOnce(dispatcher.redis.states, dispatcher.redis.acts, i, |dispatcher.redis.acts|, c);
      }
    }

    /** From the arrival past the two checks to the response. */
    method Serve(c: Corr) returns (response: Response)
      requires dispatcher.Coupled() && c in dispatcher.redis.s.api.calls && CallOf(c).phase.Arrived?
      modifies dispatcher, dispatcher.redis
      ensures Went(c) && CallOf(c).phase == Finished(response)
      ensures response.ServerError? ==> dispatcher.redis.Disturbed(old(dispatcher.redis.step))
      ensures response.NoReply? ==> CallOf(c).promise.Rejected? || dispatcher.redis.Disturbed(old(dispatcher.redis.step))
    {
      var threw, spare := HasSpareCapacity(c);
      if threw {
        response := ServerError;
      } else if !spare {
        response := NoCapacity;
        RecordInvocation(c, response);
      } else {
        var result, _ := dispatcher.Dispatch(c);
        response := ResponseFor(result);
        RecordInvocation(c, response);
      }
    }

    /** What a finished request leaves, and what its caller may rely on. */
    ghost predicate AccountedFor(c: Corr)
      reads this, dispatcher, dispatcher.redis
      requires dispatcher.redis.Valid() && c in dispatcher.redis.s.api.calls && CallOf(c).phase.Finished?
    {
      var response, r := CallOf(c).phase.response, dispatcher.redis;
      && Booked(r.s.api.rows, c, response)
      && (response.Answered? ==> RanFor(r.s, c, response.outcome))
      && (response.NoCapacity? ==> forall id | 0 <= id < |r.s.q.tracks| :: r.s.q.tracks[id].author != Some(c))
      && (response.NoReply? ==> (NeverBegins(r.states, r.acts, c) <==> Prevented(r.acts, |r.acts|, c)))
    }

    lemma Accounts(c: Corr)
      requires dispatcher.Coupled() && c in dispatcher.redis.s.api.calls && CallOf(c).phase.Finished?
      ensures AccountedFor(c)
    {
      var states, acts := dispatcher.redis.states, dispatcher.redis.acts;
      OneRowEach(states, acts, |acts|, c);
      match CallOf(c).phase.response
      case Answered(o) => OwnOutcome(states, acts, |acts|, c, o);
      case NoCapacity => BackpressureAppendsNothing(states, acts, |acts|, c);
      case NoReply => NoWorkerMeansNothingRanIff(states, acts, c);
      case ServerError =>
    }

    /**
     invoke, under the fresh id c. A lookup that fails, an unknown function and one without a version
     have no effect. Any other request gets one row, of the status its caller sees, unless the
     registry read threw; an outcome it returns is that of a run of its own job; backpressure put
     nothing into the log; and a request that got no reply has a job that never runs exactly when
     its SUBSCRIBE threw or its XADD was not carried out.
     */
    method Invoke(c: Corr, record: Query<FunctionRecord>, imageTag: Query<string>, event: Json.Value)
      returns (reply: HttpReply)
      requires dispatcher.Coupled() && c !in dispatcher.redis.s.api.calls && IsUuid(c)
      modifies dispatcher, dispatcher.redis
      ensures dispatcher.Coupled() && dispatcher.Extends()
      ensures reply.DatabaseError? <==> record.LookupFailed? || (record.Found? && imageTag.LookupFailed?)
      ensures reply.NotFound? <==> record.Absent?
      ensures reply.NotBuilt? <==> record.Found? && imageTag.Absent?
      ensures !reply.Responded? ==>
                dispatcher.redis.s == old(dispatcher.redis.s) && dispatcher.waiters == old(dispatcher.waiters)
      ensures reply.Responded? ==>
                && c in dispatcher.redis.s.api.calls && CallOf(c).phase == Finished(reply.response)
                && CallOf(c).job == Job(imageTag.value, event, record.value.timeoutMs, record.value.memoryMb)
                && AccountedFor(c)
                && (reply.response.ServerError? ==> dispatcher.redis.Disturbed(old(dispatcher.redis.step)))
                && (reply.response.NoReply? ==>
                      CallOf(c).promise.Rejected? || dispatcher.redis.Disturbed(old(dispatcher.redis.step)))
    {
      match record
      case LookupFailed => reply := DatabaseError;
      case Absent => reply := NotFound;
      case Found(fn) =>
        match imageTag {
          case LookupFailed => reply := DatabaseError;
          case Absent => reply := NotBuilt;
          case Found(tag) =>
            dispatcher.Step(c, Arrive(Job(tag, event, fn.timeoutMs, fn.memoryMb)));
            var response := Serve(c);
            Accounts(c);
            reply := Responded(response);
        }
    }
  }
}
