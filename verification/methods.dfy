/** The HTTP methods offered by the method selector, and their names. */
module Methods {
  import opened Wrappers

  datatype Method = GET | POST | PUT | DELETE | PATCH

  /** The options of the selector, in the order they are listed. */
  const Offered: seq<Method> := [GET, POST, PUT, DELETE, PATCH]

  /** The name sent on the wire and shown in the selector. */
  function Name(m: Method): string
  {
    match m
    case GET => "GET"
    case POST => "POST"
    case PUT => "PUT"
    case DELETE => "DELETE"
    case PATCH => "PATCH"
  }

  /** The method a selector value stands for; None for a string that is not
      one of the offered names. Choosing in the selector goes through this. */
  function Parse(s: string): (r: Option<Method>)
    ensures r.Some? ==> Name(r.value) == s
    ensures r.None? ==> forall m: Method :: Name(m) != s
  {
    if s == "GET" then Some(GET)
    else if s == "POST" then Some(POST)
    else if s == "PUT" then Some(PUT)
    else if s == "DELETE" then Some(DELETE)
    else if s == "PATCH" then Some(PATCH)
    else None
  }

  /** Every method round-trips through its name, and every method is offered
      by the selector exactly once. */
  lemma ParseName(m: Method)
    ensures Parse(Name(m)) == Some(m)
    ensures m in Offered
    ensures forall i, j :: 0 <= i < j < |Offered| ==> Offered[i] != Offered[j]
  {
  }
}
