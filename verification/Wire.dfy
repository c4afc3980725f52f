/**
 The flat field list of a log entry: what dispatch passes to XADD and what handleMessage
 looks up with fields[fields.indexOf(key) + 1].
 */
module Wire {
  import opened Platform

  type Fields = seq<string>

  /** A job as dispatch receives it; a null or undefined event is Json.Null. */
  datatype Job = Job(imageTag: string, event: Json.Value, timeoutMs: nat, memoryMb: nat)

  /** What a worker makes of a field list. None is undefined, a JSON.parse that throws, or NaN. */
  datatype Decoded = Decoded(
    corr: Option<string>,
    imageTag: Option<string>,
    event: Option<Json.Value>,
    timeoutMs: Option<nat>,
    memoryMb: Option<nat>)

  const KEYS: seq<string> := ["correlationId", "imageTag", "event", "timeoutMs", "memoryMb"]

  /** The five pairs XADD stores, in order. */
  function Encode(corr: Corr, job: Job): (fields: Fields)
    ensures |fields| == 10
  {
    ["correlationId", corr,
     "imageTag", job.imageTag,
     "event", Json.Text(EventOrEmpty(job.event)),
     "timeoutMs", Json.PrintNat(job.timeoutMs),
     "memoryMb", Json.PrintNat(job.memoryMb)]
  }

  /** job.event ?? {} */
  function EventOrEmpty(event: Json.Value): Json.Value {
    if event.Null? then Json.Obj(Json.NoMembers) else event
  }

  /** Number(text) on decimal digits and on the empty text; NaN on anything else. */
  function Number(text: string): Option<nat> {
    if forall c | c in text :: Json.IsDigit(c) then Some(Json.ReadNat(text)) else None
  }

  function ParseEvent(text: string): Option<Json.Value> {
    match Json.Parse(text)
    case Bad => None
    case Got(v, _) => Some(v)
  }

  function Decode(fields: Fields): Decoded {
    Decoded(
      Lookup(fields, "correlationId"),
      Lookup(fields, "imageTag"),
      match Lookup(fields, "event") { case None => None case Some(t) => ParseEvent(t) },
      match Lookup(fields, "timeoutMs") { case None => None case Some(t) => Number(t) },
      match Lookup(fields, "memoryMb") { case None => None case Some(t) => Number(t) })
  }

  /** The job itself, as a worker ought to see it: an event of null or undefined as {}, any other as it is. */
  function Intended(corr: Corr, job: Job): Decoded {
    var event := if job.event.Null? then Json.Obj(Json.NoMembers) else job.event;
    Decoded(Some(corr), Some(job.imageTag), Some(event), Some(job.timeoutMs), Some(job.memoryMb))
  }

  /** The text form of a UUID (section 4 of RFC 9562). */
  predicate IsUuid(s: string) {
    && |s| == 36
    && forall i | 0 <= i < 36 ::
         if i == 8 || i == 13 || i == 18 || i == 23 then s[i] == '-' else Json.HexValue(s[i]) >= 0
  }

  /** The tag is not the name of a field that comes after it. */
  predicate TagIsNoLaterKey(job: Job) {
    job.imageTag != "event" && job.imageTag != "timeoutMs" && job.imageTag != "memoryMb"
  }

  lemma UuidIsNoKey(s: string)
    requires IsUuid(s)
    ensures s !in KEYS
  {
    assert forall k | k in KEYS :: |k| < 36;
  }

  lemma KeyStart(k: string)
    requires k in KEYS
    ensures k != "" && !Json.IsDigit(k[0]) && !Json.StartsLikeJson(k)
  {
    assert k == "timeoutMs" ==> k[1] == 'i';
    assert "true"[1] == 'r';
  }

  lemma JsonIsNoKey(t: string)
    requires Json.StartsLikeJson(t)
    ensures t !in KEYS
  {
    if t in KEYS {
      KeyStart(t);
    }
  }

  lemma DigitsAreNoKey(t: string)
    requires forall c | c in t :: Json.IsDigit(c)
    ensures t !in KEYS
  {
    forall k | k in KEYS
      ensures k != "" && k[0] in k && !Json.IsDigit(k[0])
    {
      KeyStart(k);
    }
  }

  /** Whatever the tag, the reply goes to the right channel and names the right image. */
  lemma DecodeNames(corr: Corr, job: Job)
    requires IsUuid(corr)
    ensures Decode(Encode(corr, job)).corr == Some(corr)
    ensures Decode(Encode(corr, job)).imageTag == Some(job.imageTag)
  {
    var f := Encode(corr, job);
    UuidIsNoKey(corr);
    assert corr != "imageTag" by { assert "imageTag" == KEYS[1]; }
    FirstAt(f, "correlationId", 0);
    FirstAt(f, "imageTag", 2);
  }

  lemma KeysDiffer(m: nat, n: nat)
    requires m < n < |KEYS|
    ensures KEYS[m] != KEYS[n]
  {
    assert |KEYS[0]| == 13 && |KEYS[1]| == 8 && |KEYS[2]| == 5 && |KEYS[3]| == 9 && |KEYS[4]| == 8;
    assert KEYS[1][0] == 'i' && KEYS[4][0] == 'm';
  }

  /** In a list of key-value pairs a key stands where it belongs if no earlier value reads like it. */
  lemma KeyAt(f: Fields, n: nat)
    requires n < |KEYS| && |f| == 2 * |KEYS|
    requires forall m | 0 <= m <= n :: f[2 * m] == KEYS[m]
    requires forall m | 0 <= m < n :: f[2 * m + 1] != KEYS[n]
    ensures IndexOf(f, KEYS[n]) == 2 * n
  {
    forall i | 0 <= i < 2 * n
      ensures f[i] != KEYS[n]
    {
      if i % 2 == 0 {
        assert f[2 * (i / 2)] == KEYS[i / 2];
        KeysDiffer(i / 2, n);
      } else {
        assert f[2 * (i / 2) + 1] != KEYS[n];
      }
    }
    FirstAt(f, KEYS[n], 2 * n);
  }

  /** Only the tag among an entry's values can read like a key. */
  lemma ValuesAreNoKeys(corr: Corr, job: Job)
    requires IsUuid(corr)
    ensures var f := Encode(corr, job);
            f[1] !in KEYS && f[5] !in KEYS && f[7] !in KEYS && f[9] !in KEYS
  {
    UuidIsNoKey(corr);
    Json.ValueStart(EventOrEmpty(job.event));
    JsonIsNoKey(Json.Text(EventOrEmpty(job.event)));
    DigitsAreNoKey(Json.PrintNat(job.timeoutMs));
    DigitsAreNoKey(Json.PrintNat(job.memoryMb));
  }

  /** A later key is found in its place unless the tag reads like it. */
  lemma LaterKey(corr: Corr, job: Job, n: nat)
    requires IsUuid(corr) && 2 <= n < |KEYS| && job.imageTag != KEYS[n]
    ensures IndexOf(Encode(corr, job), KEYS[n]) == 2 * n
  {
    var f := Encode(corr, job);
    ValuesAreNoKeys(corr, job);
    assert f[0] == KEYS[0] && f[2] == KEYS[1] && f[4] == KEYS[2] && f[6] == KEYS[3] && f[8] == KEYS[4];
    KeyAt(f, n);
  }

  /** Where the three value fields are found when the tag is no later key. */
  lemma LaterKeys(corr: Corr, job: Job)
    requires IsUuid(corr) && TagIsNoLaterKey(job)
    ensures var f := Encode(corr, job);
            IndexOf(f, "event") == 4 && IndexOf(f, "timeoutMs") == 6 && IndexOf(f, "memoryMb") == 8
  {
    LaterKey(corr, job, 2);
    LaterKey(corr, job, 3);
    LaterKey(corr, job, 4);
  }

  /** A tag that is a later key makes that key's lookup return the text "event". */
  lemma TagShadowsKey(corr: Corr, job: Job)
    requires IsUuid(corr) && !TagIsNoLaterKey(job)
    ensures Lookup(Encode(corr, job), job.imageTag) == Some("event")
  {
    var f := Encode(corr, job);
    UuidIsNoKey(corr);
    assert job.imageTag in KEYS by {
      assert KEYS[2] == "event" && KEYS[3] == "timeoutMs" && KEYS[4] == "memoryMb";
    }
    FirstAt(f, job.imageTag, 3);
  }

  lemma EventIsNoValue()
    ensures ParseEvent("event").None? && Number("event").None?
  {
    if Json.Parse("event").Got? {
      Json.ParsedStart("event");
      assert false;
    }
    assert 'e' in "event" by { assert "event"[0] == 'e'; }
  }

  lemma DecodesValues(corr: Corr, job: Job)
    requires IsUuid(corr) && TagIsNoLaterKey(job)
    ensures var d := Decode(Encode(corr, job));
            && (!job.event.Null? ==> d.event == Some(job.event))
            && (job.event.Null? ==> d.event == Some(Json.Obj(Json.NoMembers)))
            && d.timeoutMs == Some(job.timeoutMs) && d.memoryMb == Some(job.memoryMb)
  {
    LaterKeys(corr, job);
    Json.ParseText(EventOrEmpty(job.event));
    Json.ReadPrintedNat(job.timeoutMs);
    Json.ReadPrintedNat(job.memoryMb);
  }

  /** Main result: decoding gives the job back exactly when its tag is no later field name. */
  lemma RoundTrip(corr: Corr, job: Job)
    requires IsUuid(corr)
    ensures Decode(Encode(corr, job)) == Intended(corr, job) <==> TagIsNoLaterKey(job)
  {
    DecodeNames(corr, job);
    if TagIsNoLaterKey(job) {
      DecodesValues(corr, job);
    } else {
      TagShadowsKey(corr, job);
      EventIsNoValue();
    }
  }

  /** An image reference holds a colon, between repository and tag, and no field name does. */
  lemma ReferenceIsNoKey(job: Job)
    requires ':' in job.imageTag
    ensures TagIsNoLaterKey(job)
  {
    assert ':' !in "event" && ':' !in "timeoutMs" && ':' !in "memoryMb";
  }

  /** So every job whose tag is an image reference is decoded as it was sent. */
  lemma ReferencesRoundTrip(corr: Corr, job: Job)
    requires IsUuid(corr) && ':' in job.imageTag
    ensures Decode(Encode(corr, job)) == Intended(corr, job)
    ensures Decode(Encode(corr, job)).event == Some(if job.event.Null? then Json.Obj(Json.NoMembers) else job.event)
  {
    ReferenceIsNoKey(job);
    RoundTrip(corr, job);
  }

  /** invocation-result:<id> */
  function Channel(corr: Corr): string {
    "invocation-result:" + corr
  }

  /** The channel is the prefix and the id, so the id can be read off it. */
  lemma ChannelNames(corr: Corr)
    ensures |Channel(corr)| == 18 + |corr| && Channel(corr)[..18] == "invocation-result:" && Channel(corr)[18..] == corr
  {
    assert |"invocation-result:"| == 18;
  }

  lemma ChannelsDiffer(a: Corr, b: Corr)
    requires Channel(a) == Channel(b)
    ensures a == b
  {
    var n := |"invocation-result:"|;
    assert Channel(a)[n..] == a && Channel(b)[n..] == b;
  }
}
