/**
 MetricsController: the queue depth, looked up in a flat XINFO GROUPS reply, and the number of
 healthy workers, as one scrape sets them.
 */
module Metrics {
  import opened Platform
  import opened InvocationStream
  import opened Registry
  import opened RegistryServices
  import opened World

  const INVOCATION_CONSUMER_GROUP := "invocation-workers"

  /** One value of a Redis reply. */
  datatype Value = Text(text: string) | Number(n: int) | Nil

  /** groups.find: the first list whose value after "name" is our group's. */
  function FindGroup(groups: seq<seq<Value>>): Option<seq<Value>> {
    if groups == [] then None
    else if Lookup(groups[0], Text("name")) == Some(Text(INVOCATION_CONSUMER_GROUP)) then Some(groups[0])
    else FindGroup(groups[1..])
  }

  /** getConsumerGroupLag, given the reply. */
  function ConsumerGroupLag(groups: seq<seq<Value>>): int {
    match FindGroup(groups)
    case None => 0
    case Some(group) => (
      var lag: Option<Value> := Lookup(group, Text("lag"));
      match lag
      case Some(Number(n)) => n
      case _ => 0)
  }

  // ---- what Redis answers ----

  /** What Redis keeps of one group; lag is nil where Redis cannot tell it. */
  datatype GroupInfo = GroupInfo(name: string, consumers: nat, pending: nat, lastId: string, entriesRead: Option<nat>, lag: Option<nat>)

  function NumberOrNil(n: Option<nat>): Value {
    match n
    case Some(k) => Number(k)
    case None => Nil
  }

  /** Its lines in the reply, flat. */
  function Flat(g: GroupInfo): seq<Value> {
    [Text("name"), Text(g.name), Text("consumers"), Number(g.consumers), Text("pending"), Number(g.pending),
     Text("last-delivered-id"), Text(g.lastId), Text("entries-read"), NumberOrNil(g.entriesRead),
     Text("lag"), NumberOrNil(g.lag)]
  }

  function GroupsReply(infos: seq<GroupInfo>): seq<seq<Value>> {
    if infos == [] then [] else [Flat(infos[0])] + GroupsReply(infos[1..])
  }

  /** A stream id is digits, a dash and digits. */
  predicate StartsLikeId(id: string) {
    id != "" && '0' <= id[0] <= '9'
  }

  /** A true answer about the stream: our group is in it exactly when it exists, and any lag given is its lag. */
  ghost predicate Describes(infos: seq<GroupInfo>, q: Queue) {
    && (forall i, j | 0 <= i < j < |infos| :: infos[i].name != infos[j].name)
    && (q.group.Some? <==> exists i :: 0 <= i < |infos| && infos[i].name == INVOCATION_CONSUMER_GROUP)
    && (forall i | 0 <= i < |infos| && infos[i].name == INVOCATION_CONSUMER_GROUP ::
          && StartsLikeId(infos[i].lastId)
          && infos[i].pending == |q.group.value.pel|
          && (infos[i].lag.Some? ==> infos[i].lag.value == q.Lag()))
  }

  /** Redis could tell our group's lag. */
  ghost predicate LagTold(infos: seq<GroupInfo>) {
    forall i | 0 <= i < |infos| && infos[i].name == INVOCATION_CONSUMER_GROUP :: infos[i].lag.Some?
  }

  lemma NameIsFound(g: GroupInfo)
    ensures Lookup(Flat(g), Text("name")) == Some(Text(g.name))
  {
    FirstAt(Flat(g), Text("name"), 0);
  }

  /** No value before "lag" reads "lag", since neither our group's name nor a stream id does. */
  lemma LagIsFound(g: GroupInfo)
    requires g.name == INVOCATION_CONSUMER_GROUP && StartsLikeId(g.lastId)
    ensures Lookup(Flat(g), Text("lag")) == Some(NumberOrNil(g.lag))
  {
    var f := Flat(g);
    assert |"lag"| == 3 && "lag"[0] == 'l';
    assert |INVOCATION_CONSUMER_GROUP| == 18 && |"name"| == 4 && |"consumers"| == 9 && |"pending"| == 7
        && |"last-delivered-id"| == 17 && |"entries-read"| == 12;
    forall i | 0 <= i < 10
      ensures f[i] != Text("lag")
    {
      if i == 7 {
        assert f[7] == Text(g.lastId);
      }
    }
    FirstAt(f, Text("lag"), 10);
  }

  /** Only our own group is looked at, wherever it stands and whatever other groups are called. */
  lemma {:induction false} FindsOwnGroup(infos: seq<GroupInfo>)
    ensures match FindGroup(GroupsReply(infos))
            case None => forall i | 0 <= i < |infos| :: infos[i].name != INVOCATION_CONSUMER_GROUP
            case Some(group) => exists i :: 0 <= i < |infos| && infos[i].name == INVOCATION_CONSUMER_GROUP && group == Flat(infos[i])
  {
    if infos != [] {
      NameIsFound(infos[0]);
      FindsOwnGroup(infos[1..]);
      assert GroupsReply(infos)[0] == Flat(infos[0]) && GroupsReply(infos)[1..] == GroupsReply(infos[1..]);
      assert forall i | 0 < i < |infos| :: infos[i] == infos[1..][i - 1];
      if infos[0].name != INVOCATION_CONSUMER_GROUP && FindGroup(GroupsReply(infos[1..])).Some? {
        var i :| 0 <= i < |infos[1..]| && infos[1..][i].name == INVOCATION_CONSUMER_GROUP
                 && FindGroup(GroupsReply(infos[1..])).value == Flat(infos[1..][i]);
        assert infos[i + 1] == infos[1..][i];
      }
    }
  }

  lemma LagOf(groups: seq<seq<Value>>, g: GroupInfo)
    requires FindGroup(groups) == Some(Flat(g)) && g.name == INVOCATION_CONSUMER_GROUP && StartsLikeId(g.lastId)
    ensures ConsumerGroupLag(groups) == match g.lag { case Some(n) => n case None => 0 }
  {
    LagIsFound(g);
  }

  /**
   Queue-depth agreement: the gauge's value is the lag of the stream exactly when Redis told the
   lag or there is none; a nil is reported as 0.
   */
  lemma GaugeIsLag(infos: seq<GroupInfo>, q: Queue)
    requires Describes(infos, q)
    ensures ConsumerGroupLag(GroupsReply(infos)) == q.Lag() <==> LagTold(infos) || q.Lag() == 0
    ensures !LagTold(infos) ==> ConsumerGroupLag(GroupsReply(infos)) == 0
  {
    var groups := GroupsReply(infos);
    FindsOwnGroup(infos);
    if FindGroup(groups).Some? {
      var i :| 0 <= i < |infos| && infos[i].name == INVOCATION_CONSUMER_GROUP && FindGroup(groups).value == Flat(infos[i]);
      LagOf(groups, infos[i]);
      assert LagTold(infos) <==> infos[i].lag.Some?;
    } else {
      assert ConsumerGroupLag(groups) == 0;
    }
  }

  // ---- one scrape ----

  ghost function HealthySet(hash: Hash, now: int): set<WorkerId> {
    set w | w in hash && Healthy(hash, w, now)
  }

  /** workers.filter((w) => w.healthy).length */
  function CountHealthy(workers: seq<WorkerStatus>): nat {
    if workers == [] then 0 else (if workers[0].healthy then 1 else 0) + CountHealthy(workers[1..])
  }

  ghost function HealthyOf(workers: seq<WorkerStatus>): (ids: set<WorkerId>)
    ensures forall w :: w in ids <==> exists i :: 0 <= i < |workers| && workers[i].healthy && workers[i].workerId == w
  {
    if workers == [] then {}
    else
      assert forall i | 0 < i < |workers| :: workers[i] == workers[1..][i - 1];
      (if workers[0].healthy then {workers[0].workerId} else {}) + HealthyOf(workers[1..])
  }

  lemma {:induction false} CountIsSize(workers: seq<WorkerStatus>)
    requires forall i, j | 0 <= i < j < |workers| :: workers[i].workerId != workers[j].workerId
    ensures CountHealthy(workers) == |HealthyOf(workers)|
  {
    if workers != [] {
      CountIsSize(workers[1..]);
      assert workers[0].workerId !in HealthyOf(workers[1..]);
    }
  }

  /** The gauge counts the workers of the hash that are healthy at that moment, each once. */
  lemma HealthyGauge(workers: seq<WorkerStatus>, hash: Hash, now: int)
    requires Statuses(workers, hash, now)
    ensures CountHealthy(workers) == |HealthySet(hash, now)|
  {
    CountIsSize(workers);
    forall w
      ensures w in HealthyOf(workers) <==> w in HealthySet(hash, now)
    {
      if w in HealthySet(hash, now) {
        var i :| 0 <= i < |workers| && workers[i].workerId == w;
        assert workers[i].healthy;
      }
    }
    assert HealthyOf(workers) == HealthySet(hash, now);
  }

  class MetricsController {
    const redis: System
    var invocationQueueDepth: int
    var healthyWorkers: nat

    constructor (redis: System)
      ensures this.redis == redis && invocationQueueDepth == 0 && healthyWorkers == 0
    {
      this.redis := redis;
      invocationQueueDepth, healthyWorkers := 0, 0;
    }

    /** XINFO GROUPS; infos is what Redis answers at that moment, which may be that there is no such stream. */
    method GetConsumerGroupLag(infos: Option<seq<GroupInfo>>) returns (threw: bool, lag: int)
      requires infos.Some? ==> Describes(infos.value, redis.s.q)
      ensures threw <==> infos.None?
      ensures !threw && LagTold(infos.value) ==> lag == redis.s.q.Lag()
      ensures !threw && !LagTold(infos.value) ==> lag == 0
    {
      threw, lag := infos.None?, 0;
      if !threw {
        GaugeIsLag(infos.value, redis.s.q);
        lag := ConsumerGroupLag(GroupsReply(infos.value));
      }
    }

    /**
     listWorkers, and how many of them are healthy: HGETALL, which may fail, at one moment, Date.now()
     at a later one.
     */
    method GetHealthyWorkers() returns (threw: bool, count: nat, ghost j: nat)
      requires redis.Valid()
      modifies redis
      ensures redis.Valid() && old(redis.states) <= redis.states && |old(redis.states)| <= j + 1 <= |redis.states|
      ensures threw ==> redis.Disturbed(old(redis.step))
      ensures !threw ==> count == |HealthySet(redis.states[j].registry, redis.s.now)|
    {
      redis.Pass();
      j := |redis.acts|;
      var fate := redis.Fate();
      ghost var n := redis.step;
      threw, count := fate != Done, 0;
      assert threw ==> redis.oracle.fate(n) != Done;
      if !threw {
        var hash := redis.s.registry;
        var raw := Stored(hash);
        StoredReadsBack(hash);
        redis.Pass();
        var workers := StatusesIn(raw, redis.s.now);
        HealthyGauge(workers, hash, redis.s.now);
        count := CountHealthy(workers);
      }
    }

    /**
     getMetrics, where XINFO's answer is Redis's at the moment the scrape reaches it. The depth is the
     lag the stream had at some moment of the scrape, or 0 if Redis could not tell it, and the worker
     count is that of the registry at another such moment; if either read throws, neither gauge is set.
     */
    method GetMetrics(infos: Option<seq<GroupInfo>>) returns (threw: bool, ghost i: nat, ghost j: nat)
      requires redis.Valid() && (infos.Some? ==> Describes(infos.value, redis.s.q))
      modifies this, redis
      ensures redis.Valid() && old(redis.states) <= redis.states
      ensures i < |redis.states| && j < |redis.states| && |old(redis.states)| <= i + 1 && |old(redis.states)| <= j + 1
      ensures infos.None? ==> threw
      ensures threw ==> infos.None? || redis.Disturbed(old(redis.step))
      ensures threw ==> invocationQueueDepth == old(invocationQueueDepth) && healthyWorkers == old(healthyWorkers)
      ensures !threw ==>
                && invocationQueueDepth == (if LagTold(infos.value) then redis.states[i].q.Lag() else 0)
                && healthyWorkers == |HealthySet(redis.states[j].registry, redis.s.now)|
    {
      i := |redis.acts|;
      var noStream, depth := GetConsumerGroupLag(infos);
      var noHash, count;
      noHash, count, j := GetHealthyWorkers();
      threw := noStream || noHash;
      if !threw {
        invocationQueueDepth, healthyWorkers := depth, count;
      }
    }
  }
}
