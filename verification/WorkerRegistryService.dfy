/** WorkerRegistryService over the Redis hash as it is stored: each worker's heartbeat as a JSON text. */
module RegistryServices {
  import opened Platform
  import opened Registry
  import opened JsonObjects
  import opened Protocol
  import opened World

  /** What heartbeat writes: a beat and whose it is. */
  datatype Heartbeat = Heartbeat(workerId: WorkerId, beat: Beat)

  datatype WorkerStatus = WorkerStatus(workerId: WorkerId, beat: Beat, healthy: bool)

  /** The object JSON.stringify is given; an id is written as its digits. */
  function AsJson(info: Heartbeat): Json.Value {
    Json.Obj(
      Json.Members("workerId", Json.Str(Json.PrintNat(info.workerId)),
        Json.Members("capacity", Json.Num(info.beat.capacity),
          Json.Members("inFlight", Json.Num(info.beat.inFlight),
            Json.Members("lastHeartbeatAt", Json.Num(info.beat.lastHeartbeatAt), Json.NoMembers)))))
  }

  /** JSON.parse and the four properties the code reads; None if the text is no heartbeat. */
  function Read(text: string): Option<Heartbeat> {
    match Json.Parse(text)
    case Got(Obj(m), _) => (
      match (Field(m, "workerId"), NatField(m, "capacity"), NatField(m, "inFlight"), NatField(m, "lastHeartbeatAt"))
      case (Some(Str(id)), Some(capacity), Some(inFlight), Some(at)) =>
        if forall c | c in id :: Json.IsDigit(c) then Some(Heartbeat(Json.ReadNat(id), Beat(capacity, inFlight, at))) else None
      case _ => None)
    case _ => None
  }

  /** Every reader of the registry gets back the heartbeat that was sent. */
  lemma ReadWritten(info: Heartbeat)
    ensures Read(Json.Text(AsJson(info))) == Some(info)
  {
    Json.ParseText(AsJson(info));
    Json.ReadPrintedNat(info.workerId);
    FieldsOf(info);
  }

  lemma FieldsOf(info: Heartbeat)
    ensures var m := AsJson(info).members;
            && Field(m, "workerId") == Some(Json.Str(Json.PrintNat(info.workerId)))
            && NatField(m, "capacity") == Some(info.beat.capacity)
            && NatField(m, "inFlight") == Some(info.beat.inFlight)
            && NatField(m, "lastHeartbeatAt") == Some(info.beat.lastHeartbeatAt)
  {
    assert |"workerId"| == 8 && |"capacity"| == 8 && |"inFlight"| == 8 && |"lastHeartbeatAt"| == 15;
    assert "workerId"[0] == 'w' && "capacity"[0] == 'c' && "inFlight"[0] == 'i';
    var m := AsJson(info).members;
    assert Field(m, "capacity") == Field(m.tail, "capacity");
    assert Field(m, "inFlight") == Field(m.tail, "inFlight") == Field(m.tail.tail, "inFlight");
    assert Field(m, "lastHeartbeatAt") == Field(m.tail, "lastHeartbeatAt") == Field(m.tail.tail, "lastHeartbeatAt")
        == Field(m.tail.tail.tail, "lastHeartbeatAt");
  }

  /** Each of these registered workers appears once, as it is in the hash, with the health of this moment. */
  ghost predicate StatusesOf(workers: seq<WorkerStatus>, ids: set<WorkerId>, hash: Hash, now: int) {
    && (forall i | 0 <= i < |workers| ::
          && workers[i].workerId in ids && workers[i].workerId in hash
          && workers[i].beat == hash[workers[i].workerId]
          && (workers[i].healthy <==> Healthy(hash, workers[i].workerId, now)))
    && (forall i, j | 0 <= i < j < |workers| :: workers[i].workerId != workers[j].workerId)
    && (forall w | w in ids :: exists i :: 0 <= i < |workers| && workers[i].workerId == w)
  }

  ghost predicate Statuses(workers: seq<WorkerStatus>, hash: Hash, now: int) {
    StatusesOf(workers, hash.Keys, hash, now)
  }

  lemma OneMoreStatus(workers: seq<WorkerStatus>, ids: set<WorkerId>, hash: Hash, now: int, w: WorkerId)
    requires StatusesOf(workers, ids, hash, now) && w in hash && w !in ids
    ensures StatusesOf(workers + [WorkerStatus(w, hash[w], Fresh(hash[w], now))], ids + {w}, hash, now)
  {
    var more := workers + [WorkerStatus(w, hash[w], Fresh(hash[w], now))];
    forall v | v in ids + {w}
      ensures exists i :: 0 <= i < |more| && more[i].workerId == v
    {
      if v == w {
        assert more[|workers|].workerId == v;
      } else {
        var i :| 0 <= i < |workers| && workers[i].workerId == v;
        assert more[i].workerId == v;
      }
    }
  }

  /** Every value is a heartbeat of the worker it is kept under. */
  ghost predicate Readable(raw: map<WorkerId, string>) {
    forall w | w in raw :: Read(raw[w]).Some? && Read(raw[w]).value.workerId == w
  }

  /** The hash the values stand for. */
  ghost function AsHash(raw: map<WorkerId, string>): Hash
    requires Readable(raw)
  {
    map w | w in raw :: Read(raw[w]).value.beat
  }

  /** The value a heartbeat is stored as. */
  function TextOf(w: WorkerId, beat: Beat): string {
    Json.Text(AsJson(Heartbeat(w, beat)))
  }

  /** What the hash holds once the heartbeats of h have been written. */
  function Stored(h: Hash): map<WorkerId, string> {
    map w | w in h :: TextOf(w, h[w])
  }

  /** Reading the stored hash gives every heartbeat back. */
  lemma StoredReadsBack(h: Hash)
    ensures Readable(Stored(h)) && AsHash(Stored(h)) == h
  {
    forall w | w in h
      ensures Read(Stored(h)[w]) == Some(Heartbeat(w, h[w]))
    {
      ReadWritten(Heartbeat(w, h[w]));
    }
  }

  /** One value of the reply, parsed, with its worker's health. */
  method Status(raw: map<WorkerId, string>, w: WorkerId, now: int) returns (status: WorkerStatus)
    requires Readable(raw) && w in raw
    ensures status == WorkerStatus(w, AsHash(raw)[w], Fresh(AsHash(raw)[w], now))
  {
    var info := Read(raw[w]).value;
    status := WorkerStatus(info.workerId, info.beat, now - info.beat.lastHeartbeatAt <= STALE_AFTER_MS);
  }

  /** Every value of an HGETALL reply judged by the time now; Redis gives them in no particular order. */
  method StatusesIn(raw: map<WorkerId, string>, now: int) returns (workers: seq<WorkerStatus>)
    requires Readable(raw)
    ensures Statuses(workers, AsHash(raw), now)
  {
    workers := [];
    var left := raw.Keys;
    ghost var listed, done := AsHash(raw), {};
    while left != {}
      invariant done + left == raw.Keys && done !! left
      invariant StatusesOf(workers, done, listed, now)
    {
      var w :| w in left;
      var status := Status(raw, w, now);
      OneMoreStatus(workers, done, listed, now, w);
      workers, left, done := workers + [status], left - {w}, done + {w};
    }
  }

  /** The ids of the healthy ones. */
  lemma HealthyIds(workers: seq<WorkerStatus>, hash: Hash, now: int)
    requires Statuses(workers, hash, now)
    ensures forall w :: w in (set st | st in workers && st.healthy :: st.workerId) <==> Healthy(hash, w, now)
  {
    forall w | Healthy(hash, w, now)
      ensures exists st :: st in workers && st.healthy && st.workerId == w
    {
      var i :| 0 <= i < |workers| && workers[i].workerId == w;
      assert workers[i] in workers;
    }
  }

  /** workers.some((w) => w.healthy && w.inFlight < w.capacity) on an HGETALL reply. */
  method SpareIn(raw: map<WorkerId, string>, now: int) returns (spare: bool)
    requires Readable(raw)
    ensures spare <==> exists w | w in raw ::
                         var beat := AsHash(raw)[w]; now - beat.lastHeartbeatAt <= 10000 && beat.inFlight < beat.capacity
  {
    var workers := StatusesIn(raw, now);
    spare := exists i | 0 <= i < |workers| :: workers[i].healthy && workers[i].beat.inFlight < workers[i].beat.capacity;
    SomeIsSome(workers, AsHash(raw), now);
  }

  lemma Hset(raw: map<WorkerId, string>, w: WorkerId, beat: Beat)
    requires Readable(raw)
    ensures Readable(raw[w := TextOf(w, beat)]) && AsHash(raw[w := TextOf(w, beat)]) == AsHash(raw)[w := beat]
  {
    ReadWritten(Heartbeat(w, beat));
  }

  lemma Hdel(raw: map<WorkerId, string>, w: WorkerId)
    requires Readable(raw)
    ensures Readable(raw - {w}) && AsHash(raw - {w}) == AsHash(raw) - {w}
  {
  }

  /** What a step of the protocol does to the registry. */
  lemma RegistryMoves(s: State, a: Action)
    requires Enabled(s, a)
    ensures Apply(s, a).registry ==
            if a.Work? && a.act.LandBeat? then s.registry[a.w := s.fleet[a.w].outbox[0]]
            else if a.Work? && a.act.Deregister? then s.registry - {a.w}
            else s.registry
  {
  }

  class WorkerRegistryService {
    const redis: System
    var hash: map<WorkerId, string>   // workers:registry as Redis stores it

    /** The stored texts stand for the registry the protocol speaks of. */
    ghost predicate Valid()
      reads this, redis
    {
      redis.Valid() && Readable(hash) && AsHash(hash) == redis.s.registry
    }

    constructor (redis: System)
      requires redis.Valid() && redis.s.registry == map[]
      ensures this.redis == redis && Valid()
    {
      this.redis := redis;
      hash := map[];
    }

    /** HSET of the oldest heartbeat worker w has on its way. */
    method Heartbeat(w: WorkerId)
      requires Valid() && w in redis.s.fleet && redis.s.fleet[w].outbox != []
      modifies this, redis
      ensures Valid() && redis.s.registry == old(redis.s.registry)[w := old(redis.s.fleet[w].outbox[0])]
      ensures redis.acts == old(redis.acts) + [Work(w, LandBeat)]
    {
      Hset(hash, w, redis.s.fleet[w].outbox[0]);
      RegistryMoves(redis.s, Work(w, LandBeat));
      hash := hash[w := TextOf(w, redis.s.fleet[w].outbox[0])];
      redis.Do(Work(w, LandBeat));
    }

    /** HDEL */
    method Deregister(w: WorkerId)
      requires Valid() && WorkerEnabled(redis.s, w, WorkerAct.Deregister)
      modifies this, redis
      ensures Valid() && redis.s.registry == old(redis.s.registry) - {w}
      ensures redis.acts == old(redis.acts) + [Work(w, WorkerAct.Deregister)]
    {
      Hdel(hash, w);
      RegistryMoves(redis.s, Work(w, WorkerAct.Deregister));
      hash := hash - {w};
      redis.Do(Work(w, WorkerAct.Deregister));
    }

    /** Every other step of the protocol leaves the stored hash what it is. */
    method Other(a: Action)
      requires Valid() && Enabled(redis.s, a) && (a.Work? ==> !a.act.LandBeat? && !a.act.Deregister?)
      modifies redis
      ensures Valid() && redis.s.registry == old(redis.s.registry) && redis.acts == old(redis.acts) + [a]
    {
      RegistryMoves(redis.s, a);
      redis.Do(a);
    }

    method ListWorkers(now: int) returns (workers: seq<WorkerStatus>)
      requires Valid()
      ensures Statuses(workers, redis.s.registry, now)
    {
      workers := StatusesIn(hash, now);
    }

    /** Is some healthy worker below its capacity? */
    method HasSpareCapacity(now: int) returns (spare: bool)
      requires Valid()
      ensures spare <==> exists w | w in redis.s.registry ::
                           var beat := redis.s.registry[w]; now - beat.lastHeartbeatAt <= 10000 && beat.inFlight < beat.capacity
    {
      spare := SpareIn(hash, now);
    }
  }

  lemma SomeIsSome(workers: seq<WorkerStatus>, hash: Hash, now: int)
    requires Statuses(workers, hash, now)
    ensures (exists i | 0 <= i < |workers| :: workers[i].healthy && workers[i].beat.inFlight < workers[i].beat.capacity)
      <==> Registry.HasSpareCapacity(hash, now)
  {
    if Registry.HasSpareCapacity(hash, now) {
      var w :| w in hash && Healthy(hash, w, now) && Spare(hash[w]);
      var i :| 0 <= i < |workers| && workers[i].workerId == w;
      assert workers[i].healthy;
    }
    if i :| 0 <= i < |workers| && workers[i].healthy && workers[i].beat.inFlight < workers[i].beat.capacity {
      assert Spare(hash[workers[i].workerId]);
    }
  }
}
