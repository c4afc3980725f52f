/**
 The Redis stream invocations:pending and its one consumer group, with only the command
 meanings the code relies on. An entry's id is its position in the log. The tracks are
 history: Redis does not store them, the theorems speak of them.
 */
module InvocationStream {
  import opened Platform
  import opened Wire

  /** One line of the pending entries list. */
  datatype Pending = Pending(owner: WorkerId, at: nat, count: nat)

  /** The consumer group: where '$' put it, the first id never delivered, and what is unacknowledged. */
  datatype Group = Group(start: nat, cursor: nat, pel: map<nat, Pending>)

  /** One row of an XPENDING reply. */
  datatype Stale = Stale(id: nat, owner: WorkerId, count: nat)

  // ---- history of one entry ----

  datatype Delivery = Delivery(worker: WorkerId, at: nat)

  /** What handling the turn-th delivery came to; input is what the worker decoded. */
  datatype Result = Result(turn: nat, input: Decoded, outcome: Outcome)

  datatype Track = Track(
    author: Option<Corr>,
    appendedAt: nat,
    deliveries: seq<Delivery>,
    starts: seq<nat>,        // the turns whose handling began, in order
    results: set<Result>,
    acked: bool)

  datatype Queue = Queue(entries: seq<Fields>, group: Option<Group>, tracks: seq<Track>) {

    /** XADD * */
    function Append(fields: Fields, author: Option<Corr>, now: nat): Queue {
      this.(entries := entries + [fields], tracks := tracks + [Track(author, now, [], [], {}, false)])
    }

    /** XGROUP CREATE ... $ MKSTREAM; BUSYGROUP is swallowed, so an existing group stays. */
    function CreateGroup(): Queue {
      if group.Some? then this else this.(group := Some(Group(|entries|, |entries|, map[])))
    }

    predicate CanRead() {
      group.Some? && group.value.cursor < |entries| && |tracks| == |entries|
    }

    function Delivered(id: nat, w: WorkerId, now: nat): Queue
      requires group.Some? && id < |tracks|
    {
      var t := tracks[id];
      var g := group.value;
      this.(
        group := Some(g.(pel := g.pel[id := Pending(w, now, |t.deliveries| + 1)])),
        tracks := tracks[id := t.(deliveries := t.deliveries + [Delivery(w, now)])])
    }

    /** XREADGROUP COUNT 1 > */
    function ReadNew(w: WorkerId, now: nat): Queue
      requires CanRead()
    {
      var g := group.value;
      this.(group := Some(g.(cursor := g.cursor + 1))).Delivered(g.cursor, w, now)
    }

    predicate IsIdle(id: nat, idle: nat, now: nat) {
      group.Some? && id in group.value.pel && group.value.pel[id].at + idle <= now
    }

    /** XCLAIM min-idle on an entry that is still pending and idle for long enough. */
    function Claim(id: nat, w: WorkerId, now: nat): Queue
      requires group.Some? && id < |tracks|
    {
      Delivered(id, w, now)
    }

    /** XACK: removes the entry whoever asks; nothing happens when it is not pending. */
    function Ack(id: nat): Queue {
      if group.Some? && id in group.value.pel && id < |tracks| then
        this.(group := Some(group.value.(pel := group.value.pel - {id})),
              tracks := tracks[id := tracks[id].(acked := true)])
      else this
    }

    /** XPENDING IDLE idle - + limit, scanning the ids from the given one upwards. */
    function PendingIdle(idle: nat, now: nat, from: nat, limit: nat): (rows: seq<Stale>)
      requires group.Some?
      ensures |rows| <= limit
      decreases group.value.cursor - from
    {
      if from >= group.value.cursor || limit == 0 then []
      else if IsIdle(from, idle, now) then
        var p := group.value.pel[from];
        [Stale(from, p.owner, p.count)] + PendingIdle(idle, now, from + 1, limit - 1)
      else PendingIdle(idle, now, from + 1, limit)
    }

    // ---- history updates ----

    function BeginTurn(id: nat, turn: nat): Queue
      requires id < |tracks|
    {
      this.(tracks := tracks[id := tracks[id].(starts := tracks[id].starts + [turn])])
    }

    function EndTurn(id: nat, result: Result): Queue
      requires id < |tracks|
    {
      this.(tracks := tracks[id := tracks[id].(results := tracks[id].results + {result})])
    }

    // ---- what the metrics read ----

    /** XINFO GROUPS lag: entries not yet delivered to anyone. */
    function Lag(): int {
      if group.Some? then |entries| - group.value.cursor else 0
    }
  }

  // ---- invariant ----

  ghost predicate TrackOk(t: Track, gap: nat, now: nat) {
    && t.appendedAt <= now
    && (forall i | 0 <= i < |t.deliveries| :: t.appendedAt <= t.deliveries[i].at <= now)
    && (forall i, j | 0 <= i < j < |t.deliveries| :: t.deliveries[i].at + gap <= t.deliveries[j].at)
    && (forall k | k in t.starts :: k < |t.deliveries|)
    && (forall i, j | 0 <= i < j < |t.starts| :: t.starts[i] != t.starts[j])
    && (forall r | r in t.results :: r.turn in t.starts)
  }

  ghost predicate PlacedOk(g: Group, id: nat, t: Track) {
    if g.start <= id < g.cursor then
      && t.deliveries != []
      && (id in g.pel <==> !t.acked)
      && (id in g.pel ==>
            var last := t.deliveries[|t.deliveries| - 1];
            g.pel[id] == Pending(last.worker, last.at, |t.deliveries|))
    else
      t.deliveries == [] && !t.acked && id !in g.pel
  }

  ghost predicate QueueOk(q: Queue, gap: nat, now: nat) {
    && |q.tracks| == |q.entries|
    && (forall id | 0 <= id < |q.tracks| :: TrackOk(q.tracks[id], gap, now))
    && (q.group.None? ==> forall id | 0 <= id < |q.tracks| :: q.tracks[id].deliveries == [] && !q.tracks[id].acked)
    && (q.group.Some? ==>
          var g := q.group.value;
          && g.start <= g.cursor <= |q.entries|
          && (forall id | id in g.pel :: id < |q.entries|)
          && (forall id | 0 <= id < |q.tracks| :: PlacedOk(g, id, q.tracks[id])))
  }

  lemma AppendOk(q: Queue, gap: nat, now: nat, fields: Fields, author: Option<Corr>)
    requires QueueOk(q, gap, now)
    ensures QueueOk(q.Append(fields, author, now), gap, now)
  {
  }

  lemma CreateGroupOk(q: Queue, gap: nat, now: nat)
    requires QueueOk(q, gap, now)
    ensures QueueOk(q.CreateGroup(), gap, now)
  {
  }

  lemma ReadNewOk(q: Queue, gap: nat, now: nat, w: WorkerId)
    requires QueueOk(q, gap, now) && q.CanRead()
    ensures QueueOk(q.ReadNew(w, now), gap, now)
  {
  }

  lemma ClaimOk(q: Queue, gap: nat, now: nat, id: nat, w: WorkerId)
    requires QueueOk(q, gap, now) && q.IsIdle(id, gap, now)
    ensures QueueOk(q.Claim(id, w, now), gap, now)
  {
  }

  lemma AckOk(q: Queue, gap: nat, now: nat, id: nat)
    requires QueueOk(q, gap, now)
    ensures QueueOk(q.Ack(id), gap, now)
  {
  }

  lemma BeginTurnOk(q: Queue, gap: nat, now: nat, id: nat, turn: nat)
    requires QueueOk(q, gap, now) && id < |q.tracks|
    requires turn < |q.tracks[id].deliveries| && turn !in q.tracks[id].starts
    ensures QueueOk(q.BeginTurn(id, turn), gap, now)
  {
  }

  lemma EndTurnOk(q: Queue, gap: nat, now: nat, id: nat, result: Result)
    requires QueueOk(q, gap, now) && id < |q.tracks| && result.turn in q.tracks[id].starts
    ensures QueueOk(q.EndTurn(id, result), gap, now)
  {
  }

  lemma TimePassesOk(q: Queue, gap: nat, now: nat, later: nat)
    requires QueueOk(q, gap, now) && now <= later
    ensures QueueOk(q, gap, later)
  {
  }

  // ---- what later states keep of earlier ones ----

  ghost predicate TrackLater(t: Track, now: nat, u: Track) {
    && u.author == t.author && u.appendedAt == t.appendedAt
    && t.deliveries <= u.deliveries
    && (forall i | |t.deliveries| <= i < |u.deliveries| :: now <= u.deliveries[i].at)
    && t.starts <= u.starts
    && t.results <= u.results
    && (t.acked ==> u.acked && u.deliveries == t.deliveries)
  }

  /** Everything q says at time now is still so in r. */
  ghost predicate Later(q: Queue, now: nat, r: Queue) {
    && q.entries <= r.entries
    && |q.tracks| <= |r.tracks|
    && (forall id | 0 <= id < |q.tracks| :: TrackLater(q.tracks[id], now, r.tracks[id]))
    && (q.group.Some? ==>
          r.group.Some? && r.group.value.start == q.group.value.start && q.group.value.cursor <= r.group.value.cursor)
  }

  lemma LaterTransitive(q: Queue, now: nat, r: Queue, at: nat, s: Queue)
    requires Later(q, now, r) && now <= at && Later(r, at, s)
    ensures Later(q, now, s)
  {
    forall id | 0 <= id < |q.tracks|
      ensures TrackLater(q.tracks[id], now, s.tracks[id])
    {
      TrackLaterTransitive(q.tracks[id], now, r.tracks[id], at, s.tracks[id]);
    }
  }

  lemma TrackLaterTransitive(t: Track, now: nat, u: Track, at: nat, v: Track)
    requires TrackLater(t, now, u) && now <= at && TrackLater(u, at, v)
    ensures TrackLater(t, now, v)
  {
    forall i | |t.deliveries| <= i < |v.deliveries|
      ensures now <= v.deliveries[i].at
    {
      if i < |u.deliveries| {
        assert v.deliveries[i] == u.deliveries[i];
      }
    }
  }

  // ---- theorems about the group alone ----

  /** After k claims an entry is at least k idle periods older than its first delivery. */
  lemma {:induction false} DeliveriesApart(t: Track, gap: nat, now: nat, i: nat, j: nat)
    requires TrackOk(t, gap, now) && i <= j < |t.deliveries|
    ensures t.deliveries[i].at + (j - i) * gap <= t.deliveries[j].at
    decreases j
  {
    if i < j {
      DeliveriesApart(t, gap, now, i, j - 1);
      assert (j - i) * gap == (j - 1 - i) * gap + gap;
    }
  }

  lemma DistinctBelow(s: seq<nat>, n: nat)
    requires forall k | k in s :: k < n
    requires forall i, j | 0 <= i < j < |s| :: s[i] != s[j]
    ensures |s| <= n
  {
    var elems := set k | k in s;
    DistinctSize(s);
    RangeSize(0, n);
    assert elems <= Range(0, n);
    SubsetSize(elems, Range(0, n));
  }

  lemma {:induction false} DistinctSize<T>(s: seq<T>)
    requires forall i, j | 0 <= i < j < |s| :: s[i] != s[j]
    ensures |set x | x in s| == |s|
  {
    if s != [] {
      var front, last := s[..|s| - 1], s[|s| - 1];
      DistinctSize(front);
      assert s == front + [last];
      assert (set x | x in s) == (set x | x in front) + {last};
    }
  }

  /** The numbers from lo up to, not including, hi. */
  ghost function Range(lo: nat, hi: nat): (r: set<nat>)
    ensures forall k :: k in r <==> lo <= k < hi
    decreases hi
  {
    if lo >= hi then {} else Range(lo, hi - 1) + {hi - 1}
  }

  lemma {:induction false} RangeSize(lo: nat, hi: nat)
    requires lo <= hi
    ensures |Range(lo, hi)| == hi - lo
    decreases hi
  {
    if lo < hi {
      RangeSize(lo, hi - 1);
    }
  }

  lemma {:induction false} SubsetSize<T>(a: set<T>, b: set<T>)
    requires a <= b
    ensures |a| <= |b|
  {
    if a != {} {
      var x :| x in a;
      SubsetSize(a - {x}, b - {x});
    }
  }

  /** Bounded duplication: handling began at most 1 + floor((now - first delivery) / gap) times. */
  lemma BoundedStarts(t: Track, gap: nat, now: nat)
    requires TrackOk(t, gap, now) && gap > 0
    ensures |t.starts| <= |t.deliveries|
    ensures t.deliveries != [] ==> |t.deliveries| <= 1 + (now - t.deliveries[0].at) / gap
  {
    DistinctBelow(t.starts, |t.deliveries|);
    if t.deliveries != [] {
      var n := |t.deliveries| - 1;
      var d := now - t.deliveries[0].at;
      DeliveriesApart(t, gap, now, 0, n);
      assert n * gap <= d;
      QuotientBound(n, gap, d);
    }
  }

  lemma QuotientBound(n: nat, gap: nat, d: nat)
    requires gap > 0 && n * gap <= d
    ensures n <= d / gap
  {
    var above := d / gap + 1 - n;
    assert d == d / gap * gap + d % gap;
    assert above * gap == d / gap * gap + gap - n * gap;
    PositiveFactor(above, gap);
  }

  lemma PositiveFactor(y: int, gap: nat)
    requires gap > 0 && y * gap > 0
    ensures y > 0
  {
  }

  ghost function AckedIds(q: Queue): set<nat> {
    set id: nat | id < |q.tracks| && q.tracks[id].acked
  }

  /**
   No lost job: the entries from the group's start on are the acknowledged ones, the pending
   ones and the undelivered suffix, and no two of these overlap.
   */
  lemma Partition(q: Queue, gap: nat, now: nat)
    requires QueueOk(q, gap, now) && q.group.Some?
    ensures var g := q.group.value;
            && g.pel.Keys !! AckedIds(q) !! Range(g.cursor, |q.entries|)
            && g.pel.Keys + AckedIds(q) + Range(g.cursor, |q.entries|) == Range(g.start, |q.entries|)
  {
    var g := q.group.value;
    forall id | id in g.pel || id in AckedIds(q)
      ensures g.start <= id < g.cursor
    {
      assert PlacedOk(g, id, q.tracks[id]);
    }
    forall id: nat | g.start <= id < g.cursor
      ensures id in g.pel <==> id !in AckedIds(q)
    {
      assert PlacedOk(g, id, q.tracks[id]);
    }
  }

  /** Conservation: lag + pending + acknowledged is the number of entries since the group's start. */
  lemma Conservation(q: Queue, gap: nat, now: nat)
    requires QueueOk(q, gap, now) && q.group.Some?
    ensures q.Lag() + |q.group.value.pel| + |AckedIds(q)| == |q.entries| - q.group.value.start
  {
    var g := q.group.value;
    Partition(q, gap, now);
    var a, b, c := g.pel.Keys, AckedIds(q), Range(g.cursor, |q.entries|);
    assert |a + b| == |a| + |b|;
    assert |(a + b) + c| == |a + b| + |c|;
    RangeSize(g.cursor, |q.entries|);
    RangeSize(g.start, |q.entries|);
    assert |g.pel| == |g.pel.Keys|;
  }

  // ---- what XPENDING lists ----

  /** How many entries with an id in [from, to) are pending and idle. */
  ghost function IdleBetween(q: Queue, idle: nat, now: nat, from: nat, to: nat): nat
    decreases to - from
  {
    if from >= to then 0
    else (if q.IsIdle(from, idle, now) then 1 else 0) + IdleBetween(q, idle, now, from + 1, to)
  }

  /** Row id is listed exactly when it is idle and fewer than limit idle ids come before it. */
  lemma {:induction false} ListsLowestIdle(q: Queue, idle: nat, now: nat, from: nat, limit: nat, id: nat)
    requires q.group.Some? && from <= id < q.group.value.cursor
    ensures (exists r :: r in q.PendingIdle(idle, now, from, limit) && r.id == id) <==>
            q.IsIdle(id, idle, now) && IdleBetween(q, idle, now, from, id) < limit
    decreases q.group.value.cursor - from
  {
    var rows := q.PendingIdle(idle, now, from, limit);
    if limit > 0 {
      var here := q.IsIdle(from, idle, now);
      var rest := q.PendingIdle(idle, now, from + 1, if here then limit - 1 else limit);
      RowsFrom(q, idle, now, from + 1, if here then limit - 1 else limit);
      if here {
        var p := q.group.value.pel[from];
        assert rows == [Stale(from, p.owner, p.count)] + rest;
        assert rows[0].id == from;
      }
      if id > from {
        ListsLowestIdle(q, idle, now, from + 1, if here then limit - 1 else limit, id);
        assert forall r :: r in rest ==> r in rows;
        assert forall r :: r in rows ==> r in rest || r.id == from;
      } else if here {
        assert rows[0] in rows;
      }
    }
  }

  /** Every row listed is a pending idle entry, with its owner and count, and ids ascend. */
  lemma {:induction false} RowsFrom(q: Queue, idle: nat, now: nat, from: nat, limit: nat)
    requires q.group.Some?
    ensures forall r | r in q.PendingIdle(idle, now, from, limit) ::
              && from <= r.id < q.group.value.cursor && q.IsIdle(r.id, idle, now)
              && r.owner == q.group.value.pel[r.id].owner && r.count == q.group.value.pel[r.id].count
    decreases q.group.value.cursor - from
  {
    if from < q.group.value.cursor && limit > 0 {
      RowsFrom(q, idle, now, from + 1, if q.IsIdle(from, idle, now) then limit - 1 else limit);
    }
  }
}
