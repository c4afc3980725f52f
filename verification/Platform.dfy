/** Values that every part of the platform shares. */
module Platform {
  import Json

  datatype Option<+T> = None | Some(value: T)

  /** A worker's registry key and consumer name; no two processes share one. */
  type WorkerId = nat

  /** The UUID that names one dispatch, its log entry and its reply channel. */
  type Corr = string

  /** What running a function came to (src/containerExecutor.ts). */
  datatype Outcome =
    | Success(result: Json.Value, durationMs: nat)
    | Failure(error: string, durationMs: nat)
    | TimedOut(durationMs: nat)

  /** Position of the first occurrence of key, or -1: JavaScript's indexOf. */
  function IndexOf<T(==)>(fields: seq<T>, key: T): (i: int)
    ensures -1 <= i < |fields|
    ensures i == -1 <==> key !in fields
    ensures i >= 0 ==> fields[i] == key && key !in fields[..i]
  {
    if fields == [] then -1
    else if fields[0] == key then 0
    else
      var rest := IndexOf(fields[1..], key);
      if rest == -1 then -1 else
        assert fields[..rest + 1] == [fields[0]] + fields[1..][..rest];
        rest + 1
  }

  /** fields[fields.indexOf(key) + 1]; an absent key makes indexOf -1 and reads the first field. */
  function Lookup<T(==)>(fields: seq<T>, key: T): Option<T> {
    var i := IndexOf(fields, key) + 1;
    if i < |fields| then Some(fields[i]) else None
  }

  /** indexOf stops at the first place where the key stands. */
  lemma {:induction false} FirstAt<T>(fields: seq<T>, key: T, i: nat)
    requires i < |fields| && fields[i] == key && key !in fields[..i]
    ensures IndexOf(fields, key) == i
  {
    var j := IndexOf(fields, key);
    assert key in fields;
    assert forall k | 0 <= k < i :: fields[k] in fields[..i];
    assert forall k | 0 <= k < j :: fields[k] in fields[..j];
  }
}
