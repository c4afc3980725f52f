/** What PUBLISH carries: an outcome as JSON text, and what the message handler makes of it. */
module Replies {
  import opened Platform
  import opened JsonObjects

  function AsJson(o: Outcome): Json.Value {
    match o
    case Success(result, ms) => Json.Obj(
      Json.Members("status", Json.Str("success"),
        Json.Members("result", result,
          Json.Members("durationMs", Json.Num(ms), Json.NoMembers))))
    case Failure(error, ms) => Json.Obj(
      Json.Members("status", Json.Str("error"),
        Json.Members("error", Json.Str(error),
          Json.Members("durationMs", Json.Num(ms), Json.NoMembers))))
    case TimedOut(ms) => Json.Obj(
      Json.Members("status", Json.Str("timeout"),
        Json.Members("durationMs", Json.Num(ms), Json.NoMembers)))
  }

  /** JSON.stringify(outcome) */
  function Message(o: Outcome): string {
    Json.Text(AsJson(o))
  }

  /** The outcome an object stands for; None if it is none of the three. */
  function OutcomeOf(m: Json.Members): Option<Outcome> {
    match (Field(m, "status"), NatField(m, "durationMs"))
    case (Some(Str(status)), Some(ms)) =>
      if status == "timeout" then Some(TimedOut(ms))
      else if status == "success" && Field(m, "result").Some? then Some(Success(Field(m, "result").value, ms))
      else if status == "error" && Field(m, "error").Some? && Field(m, "error").value.Str? then
        Some(Failure(Field(m, "error").value.s, ms))
      else None
    case _ => None
  }

  /** JSON.parse(message) */
  function Read(message: string): Option<Outcome> {
    match Json.Parse(message)
    case Got(Obj(m), _) => OutcomeOf(m)
    case _ => None
  }

  lemma KeysApart()
    ensures "status" != "result" && "status" != "error" && "status" != "durationMs"
    ensures "result" != "error" && "result" != "durationMs" && "error" != "durationMs"
    ensures "success" != "timeout" && "error" != "timeout" && "error" != "success"
  {
    assert |"status"| == 6 && |"result"| == 6 && |"error"| == 5 && |"durationMs"| == 10;
    assert |"success"| == 7 && |"timeout"| == 7 && "status"[0] == 's' && "success"[0] == 's';
  }

  /** The last property of each kind of outcome is its duration. */
  lemma DurationOf(o: Outcome)
    ensures NatField(AsJson(o).members, "durationMs") == Some(o.durationMs)
  {
    KeysApart();
    var m := AsJson(o).members;
    assert Field(m, "durationMs") == Field(m.tail, "durationMs");
    if !o.TimedOut? {
      assert Field(m.tail, "durationMs") == Field(m.tail.tail, "durationMs");
    }
  }

  /** The waiter is resolved with the very outcome the worker published, whatever its result or error text. */
  lemma ReadBack(o: Outcome)
    ensures Read(Message(o)) == Some(o)
  {
    Json.ParseText(AsJson(o));
    KeysApart();
    DurationOf(o);
    var m := AsJson(o).members;
    assert Field(m, "status") == Some(m.value);
    if !o.TimedOut? {
      assert Field(m, m.tail.key) == Some(m.tail.value);
    }
  }
}
