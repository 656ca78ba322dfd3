/** The colour and visibility rules the page applies to the current result
    and to the log entries. */
module Display {
  import opened Wrappers
  import opened Methods

  datatype Colour = Blue | Green | Yellow | Red

  /** How bad a colour reads: green, then yellow, then red. */
  function Severity(c: Colour): nat
  {
    match c
    case Blue => 0
    case Green => 0
    case Yellow => 1
    case Red => 2
  }

  /** The badge next to "Response". It is drawn only for a truthy status (one
      that is set and non-zero): green below 300, yellow below 400, red from
      400 on. */
  function StatusBadge(status: Option<int>): (r: Option<Colour>)
    ensures r.None? <==> status.None? || status.value == 0
    ensures r == Some(Green) <==> status.Some? && status.value != 0 && status.value < 300
    ensures r == Some(Yellow) <==> status.Some? && 300 <= status.value < 400
    ensures r == Some(Red) <==> status.Some? && 400 <= status.value
  {
    match status
    case None => None
    case Some(code) =>
      if code == 0 then None
      else if code < 300 then Some(Green)
      else if code < 400 then Some(Yellow)
      else Some(Red)
  }

  /** The status text of a log entry: green below 400, red otherwise. */
  function HistoryColour(status: int): (r: Colour)
    ensures r == Green <==> status < 400
    ensures r == Red <==> 400 <= status
    ensures r != Blue && r != Yellow
  {
    if status < 400 then Green else Red
  }

  /** The method tag of a log entry. */
  function MethodColour(m: Method): (r: Colour)
    ensures r == Blue <==> m == GET
    ensures r == Green <==> m == POST
    ensures r == Red <==> m == DELETE
    ensures r == Yellow <==> m == PUT || m == PATCH
  {
    match m
    case GET => Blue
    case POST => Green
    case DELETE => Red
    case _ => Yellow
  }

  /** The elapsed time is drawn only when it is positive. */
  function ElapsedShown(responseTime: int): (shown: bool)
    ensures shown <==> 0 < responseTime
  {
    responseTime > 0
  }

  /** The badge and the log agree on failure: a drawn badge is red exactly when
      the same status is red in the log, and a green badge is green in the log. */
  lemma BadgeAgreesWithHistory(status: int)
    requires status != 0
    ensures StatusBadge(Some(status)) == Some(Red) <==> HistoryColour(status) == Red
    ensures StatusBadge(Some(status)) == Some(Green) ==> HistoryColour(status) == Green
  {
  }

  /** A higher status never gets a milder badge. */
  lemma BadgeMonotone(a: int, b: int)
    requires a != 0 && b != 0 && a <= b
    ensures Severity(StatusBadge(Some(a)).value) <= Severity(StatusBadge(Some(b)).value)
  {
  }
}
