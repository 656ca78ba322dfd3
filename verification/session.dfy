/** The state of one API tester session and the transitions its handlers make:
    draft edits, the two halves of a send, history replay and preset loading. */
module ApiTester {
  import opened Wrappers
  import opened Methods
  import Headers
  import opened Requests
  import opened History

  /** Everything the page keeps: the draft (method, URL, headers, body), the
      latest result (response, status, elapsed time), the log and the busy flag. */
  datatype Session = Session(
    httpMethod: Method,
    url: string,
    headers: seq<Headers.Header>,
    body: string,
    response: Option<Payload>,
    status: Option<int>,
    responseTime: int,
    history: seq<Entry>,
    loading: bool)

  /** What the network call and the JSON decoding produced: the transport
      status and decoded body, or the message of whatever was thrown (a
      network failure and an undecodable body alike). */
  datatype Outcome = Ok(status: int, json: string) | Err(message: string)

  /** The status recorded for every failed send, whatever its cause. */
  const FailureStatus := 500

  /** What a send in flight remembers from the moment it started: the request
      built from the draft, the clock reading, and the log it will extend. */
  datatype Pending = Pending(request: Request, startTime: int, history: seq<Entry>)

  datatype Started = Started(session: Session, pending: Pending)

  /** One entry of the sample list in the sidebar. */
  datatype Preset = Preset(name: string, url: string, httpMethod: Method)

  const SampleApis: seq<Preset> := [
    Preset("JSONPlaceholder", "https://jsonplaceholder.typicode.com/posts/1", GET),
    Preset("Cat Facts", "https://catfact.ninja/fact", GET),
    Preset("Random User", "https://randomuser.me/api/", GET)
  ]

  /** The log never holds more than its capacity. */
  predicate Valid(s: Session)
  {
    |s.history| <= Capacity
  }

  /** The session as the page first renders it. */
  function Init(): (s: Session)
    ensures Valid(s) && !s.loading
    ensures s.history == [] && s.response == None && s.status == None && s.responseTime == 0
    ensures s.httpMethod == GET && s.body == ""
    ensures Headers.EffectiveHeaders(s.headers) == map["Content-Type" := "application/json"]
  {
    Session(
      GET,
      "https://jsonplaceholder.typicode.com/posts/1",
      [Headers.Header("Content-Type", "application/json")],
      "",
      None,
      None,
      0,
      [],
      false)
  }

  /** "Add Header": one blank pair at the end of the draft's list. */
  function AddHeader(s: Session): (r: Session)
    ensures |r.headers| == |s.headers| + 1
    ensures r.headers[..|s.headers|] == s.headers && r.headers[|s.headers|] == Headers.Blank
    ensures r.(headers := s.headers) == s
  {
    s.(headers := Headers.AddHeader(s.headers))
  }

  /** The trash button of row `index`. */
  function RemoveHeader(s: Session, index: int): (r: Session)
    ensures 0 <= index < |s.headers| ==> r.headers == s.headers[..index] + s.headers[index + 1..]
    ensures !(0 <= index < |s.headers|) ==> r == s
    ensures r.(headers := s.headers) == s
  {
    s.(headers := Headers.RemoveHeader(s.headers, index))
  }

  /** Typing into the key or value box of row `index`. */
  function UpdateHeader(s: Session, index: int, field: Headers.Field, v: string): (r: Session)
    requires 0 <= index < |s.headers|
    ensures |r.headers| == |s.headers|
    ensures forall j :: 0 <= j < |s.headers| && j != index ==> r.headers[j] == s.headers[j]
    ensures field == Headers.Key ==> r.headers[index] == Headers.Header(v, s.headers[index].value)
    ensures field == Headers.Value ==> r.headers[index] == Headers.Header(s.headers[index].key, v)
    ensures r.(headers := s.headers) == s
  {
    s.(headers := Headers.UpdateHeader(s.headers, index, field, v))
  }

  /** Clicking a log entry: its method, URL and response are replayed into the
      page without sending anything; the draft's headers and body, the status,
      the elapsed time and the log stay as they are. */
  function LoadFromHistory(s: Session, item: Entry): (r: Session)
    ensures r.httpMethod == item.httpMethod && r.url == item.url && r.response == Some(item.response)
    ensures r.headers == s.headers && r.body == s.body
    ensures r.status == s.status && r.responseTime == s.responseTime
    ensures r.history == s.history && r.loading == s.loading
  {
    s.(httpMethod := item.httpMethod, url := item.url, response := Some(item.response))
  }

  /** Clicking a sample: only the method and the URL change. */
  function LoadPreset(s: Session, p: Preset): (r: Session)
    ensures r.httpMethod == p.httpMethod && r.url == p.url
    ensures r.(httpMethod := s.httpMethod, url := s.url) == s
  {
    s.(httpMethod := p.httpMethod, url := p.url)
  }

  /** Pressing Send, which is only possible while no send is in flight: the
      page turns busy, and the request, the start time and the log are fixed
      from the draft as it is now. */
  function StartSend(s: Session, startTime: int): (r: Started)
    requires !s.loading
    ensures r.session.loading && r.session.(loading := false) == s
    ensures r.pending.request.httpMethod == s.httpMethod && r.pending.request.url == s.url
    ensures r.pending.request.headers == Headers.EffectiveHeaders(s.headers)
    ensures r.pending.request.body == AttachedBody(s.httpMethod, s.body)
    ensures r.pending.startTime == startTime && r.pending.history == s.history
  {
    Started(s.(loading := true), Pending(BuildRequest(s.httpMethod, s.url, s.headers, s.body), startTime, s.history))
  }

  /** The end of a send. On success the decoded body and the status become
      current, the elapsed time is recorded and an entry is put in front of the
      log; on failure an error object with status 500 becomes current and the
      elapsed time and the log are left alone. Either way the page is no longer
      busy and the draft is untouched. */
  function Complete(s: Session, p: Pending, outcome: Outcome, endTime: int, time: string): (r: Session)
    ensures !r.loading
    ensures r.httpMethod == s.httpMethod && r.url == s.url && r.headers == s.headers && r.body == s.body
    ensures outcome.Ok? ==>
      && r.response == Some(Decoded(outcome.json))
      && r.status == Some(outcome.status)
      && r.responseTime == endTime - p.startTime
      && |r.history| == Min(|p.history| + 1, Capacity)
      && r.history[0] == Entry(p.request.httpMethod, p.request.url, outcome.status, time, Decoded(outcome.json))
      && forall i :: 1 <= i < |r.history| ==> r.history[i] == p.history[i - 1]
    ensures outcome.Err? ==>
      && r.response == Some(ErrorObject(outcome.message))
      && r.status == Some(FailureStatus)
      && r.responseTime == s.responseTime
      && r.history == s.history
  {
    match outcome
    case Ok(status, json) =>
      var entry := Entry(p.request.httpMethod, p.request.url, status, time, Decoded(json));
      s.(response := Some(Decoded(json)), status := Some(status), responseTime := endTime - p.startTime,
         history := Push(entry, p.history), loading := false)
    case Err(message) =>
      s.(response := Some(ErrorObject(message)), status := Some(FailureStatus), loading := false)
  }

  /** A whole send with nothing happening while it is in flight. */
  function Send(s: Session, startTime: int, outcome: Outcome, endTime: int, time: string): (r: Session)
    requires !s.loading
    ensures !r.loading
    ensures r.httpMethod == s.httpMethod && r.url == s.url && r.headers == s.headers && r.body == s.body
    ensures Valid(s) ==> Valid(r)
    ensures outcome.Ok? ==>
      && r.response == Some(Decoded(outcome.json))
      && r.status == Some(outcome.status)
      && r.responseTime == endTime - startTime
      && |r.history| == Min(|s.history| + 1, Capacity)
      && r.history[0] == Entry(s.httpMethod, s.url, outcome.status, time, Decoded(outcome.json))
      && forall i :: 1 <= i < |r.history| ==> r.history[i] == s.history[i - 1]
    ensures outcome.Err? ==>
      && r.response == Some(ErrorObject(outcome.message))
      && r.status == Some(FailureStatus)
      && r.responseTime == s.responseTime
      && r.history == s.history
  {
    var st := StartSend(s, startTime);
    Complete(st.session, st.pending, outcome, endTime, time)
  }

  /** The user actions that can happen at any time, also while a send is in
      flight. */
  datatype Event =
    | MethodChosen(option: string)
    | UrlTyped(u: string)
    | BodyTyped(b: string)
    | HeaderAdded
    | HeaderRemoved(index: int)
    | HeaderEdited(index: int, field: Headers.Field, value: string)
    | HistoryClicked(item: Entry)
    | PresetClicked(preset: Preset)

  /** Only an edit of a row that exists can be made, and the selector only
      delivers the value of one of its options. */
  predicate Enabled(s: Session, e: Event)
  {
    && (e.HeaderEdited? ==> 0 <= e.index < |s.headers|)
    && (e.MethodChosen? ==> Parse(e.option).Some?)
  }

  function Apply(s: Session, e: Event): (r: Session)
    requires Enabled(s, e)
    ensures r.history == s.history && r.status == s.status && r.responseTime == s.responseTime
    ensures r.loading == s.loading
    ensures e.MethodChosen? ==> Name(r.httpMethod) == e.option && r.(httpMethod := s.httpMethod) == s
    ensures e.UrlTyped? ==> r.url == e.u && r.(url := s.url) == s
    ensures e.BodyTyped? ==> r.body == e.b && r.(body := s.body) == s
    ensures e.HeaderAdded? ==> r.headers == Headers.AddHeader(s.headers) && r.(headers := s.headers) == s
    ensures e.HeaderRemoved? ==> r.headers == Headers.RemoveHeader(s.headers, e.index) && r.(headers := s.headers) == s
    ensures e.HeaderEdited? ==>
      && r.headers == Headers.UpdateHeader(s.headers, e.index, e.field, e.value)
      && r.(headers := s.headers) == s
    ensures e.HistoryClicked? ==> r == LoadFromHistory(s, e.item)
    ensures e.PresetClicked? ==> r == LoadPreset(s, e.preset)
  {
    match e
    case MethodChosen(option) => s.(httpMethod := Parse(option).value)
    case UrlTyped(u) => s.(url := u)
    case BodyTyped(b) => s.(body := b)
    case HeaderAdded => AddHeader(s)
    case HeaderRemoved(index) => RemoveHeader(s, index)
    case HeaderEdited(index, field, value) => UpdateHeader(s, index, field, value)
    case HistoryClicked(item) => LoadFromHistory(s, item)
    case PresetClicked(preset) => LoadPreset(s, preset)
  }

  /** Every event of the run is enabled when it happens. */
  predicate Runs(s: Session, es: seq<Event>)
    decreases |es|
  {
    |es| == 0 || (Enabled(s, es[0]) && Runs(Apply(s, es[0]), es[1..]))
  }

  function ApplyAll(s: Session, es: seq<Event>): Session
    requires Runs(s, es)
    decreases |es|
  {
    if |es| == 0 then s else ApplyAll(Apply(s, es[0]), es[1..])
  }

  /** No user action touches the log, the status, the elapsed time or the busy
      flag: only the end of a send does. */
  lemma {:induction false} ApplyAllKeepsResult(s: Session, es: seq<Event>)
    requires Runs(s, es)
    ensures ApplyAll(s, es).history == s.history
    ensures ApplyAll(s, es).status == s.status && ApplyAll(s, es).responseTime == s.responseTime
    ensures ApplyAll(s, es).loading == s.loading
    decreases |es|
  {
    if |es| > 0 {
      ApplyAllKeepsResult(Apply(s, es[0]), es[1..]);
    }
  }

  /** A send with arbitrary user actions while it is in flight: the Send button
      stays disabled throughout, the log extended at the end is the one shown
      when the send completes, the logged method and URL are those at the time
      of pressing Send, and the log stays within its capacity. */
  lemma SendAcrossEdits(s: Session, startTime: int, es: seq<Event>, outcome: Outcome, endTime: int, time: string)
    requires !s.loading
    requires Runs(StartSend(s, startTime).session, es)
    ensures ApplyAll(StartSend(s, startTime).session, es).loading
    ensures ApplyAll(StartSend(s, startTime).session, es).history == s.history
    ensures
      var st := StartSend(s, startTime);
      var r := Complete(ApplyAll(st.session, es), st.pending, outcome, endTime, time);
      && !r.loading
      && (Valid(s) ==> Valid(r))
      && (outcome.Ok? ==> r.history == Push(Entry(s.httpMethod, s.url, outcome.status, time, Decoded(outcome.json)), s.history))
      && (outcome.Err? ==> r.history == s.history)
  {
    var st := StartSend(s, startTime);
    ApplyAllKeepsResult(st.session, es);
  }

  /** Every reachable kind of step keeps the log within its capacity. */
  lemma StepsKeepValid(s: Session, e: Event, startTime: int, p: Pending, outcome: Outcome, endTime: int, time: string)
    requires Valid(s)
    ensures Enabled(s, e) ==> Valid(Apply(s, e))
    ensures !s.loading ==> Valid(StartSend(s, startTime).session)
    ensures Valid(Complete(s, p, outcome, endTime, time))
    ensures Valid(Init())
  {
  }
}
