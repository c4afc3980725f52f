/** Properties of a parsed JSON object. */
module JsonObjects {
  import opened Platform

  function Field(members: Json.Members, key: string): Option<Json.Value> {
    match members
    case NoMembers => None
    case Members(k, v, tail) => if k == key then Some(v) else Field(tail, key)
  }

  function NatField(members: Json.Members, key: string): Option<nat> {
    match Field(members, key)
    case Some(Num(n)) => if n >= 0 then Some(n) else None
    case _ => None
  }
}
