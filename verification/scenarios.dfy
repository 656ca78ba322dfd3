/** Properties of whole sessions: repeated sends, the samples, and what the
    page shows after a send. */
module Scenarios {
  import opened Wrappers
  import opened Methods
  import opened History
  import opened ApiTester
  import Display

  /** One successful send as the environment delivers it: the clock before and
      after, the transport status, the decoded body and the local time string. */
  datatype Attempt = Attempt(startTime: int, status: int, json: string, endTime: int, time: string)

  /** The log entry a successful attempt leaves for a fixed draft. */
  function Logged(m: Method, url: string, a: Attempt): Entry
  {
    Entry(m, url, a.status, a.time, Decoded(a.json))
  }

  function LoggedAll(m: Method, url: string, attempts: seq<Attempt>): (r: seq<Entry>)
    ensures |r| == |attempts|
    ensures forall i :: 0 <= i < |attempts| ==> r[i] == Logged(m, url, attempts[i])
  {
    if |attempts| == 0 then []
    else LoggedAll(m, url, attempts[..|attempts| - 1]) + [Logged(m, url, attempts[|attempts| - 1])]
  }

  /** The session after the attempts, one after the other, each finishing
      before the next starts. */
  function SendAll(s: Session, attempts: seq<Attempt>): (r: Session)
    requires !s.loading
    ensures !r.loading
    decreases |attempts|
  {
    if |attempts| == 0 then s
    else
      var a := attempts[|attempts| - 1];
      Send(SendAll(s, attempts[..|attempts| - 1]), a.startTime, Ok(a.status, a.json), a.endTime, a.time)
  }

  /** Repeated sends leave the draft alone and log exactly the pushes of their
      entries, in order. */
  lemma {:induction false} SendAllPushes(s: Session, attempts: seq<Attempt>)
    requires !s.loading
    ensures SendAll(s, attempts).httpMethod == s.httpMethod && SendAll(s, attempts).url == s.url
    ensures SendAll(s, attempts).headers == s.headers && SendAll(s, attempts).body == s.body
    ensures SendAll(s, attempts).history == PushAll(s.history, LoggedAll(s.httpMethod, s.url, attempts))
    decreases |attempts|
  {
    if |attempts| > 0 {
      var init := attempts[..|attempts| - 1];
      SendAllPushes(s, init);
      var es := LoggedAll(s.httpMethod, s.url, attempts);
      assert es[..|es| - 1] == LoggedAll(s.httpMethod, s.url, init);
      var prev := SendAll(s, init);
      var r := SendAll(s, attempts);
      assert r.history == Push(es[|es| - 1], prev.history);
    }
  }

  /** Eleven successful sends from a fresh page: ten entries remain, the last
      send's entry in front, and the first send's entry has been evicted, so
      position i holds send number 11 - i. */
  lemma ElevenSends(attempts: seq<Attempt>)
    requires |attempts| == 11
    ensures |SendAll(Init(), attempts).history| == Capacity
    ensures SendAll(Init(), attempts).history[0] == Logged(GET, Init().url, attempts[10])
    ensures forall i :: 0 <= i < Capacity ==>
      SendAll(Init(), attempts).history[i] == Logged(GET, Init().url, attempts[10 - i])
  {
    SendAllPushes(Init(), attempts);
    PushAllFromEmpty(LoggedAll(GET, Init().url, attempts));
  }

  /** Every sample is a GET, so sending one right after choosing it never
      carries a body, whatever the body box holds. */
  lemma PresetsSendNoBody(s: Session, i: int, startTime: int)
    requires 0 <= i < |SampleApis|
    requires !s.loading
    ensures SampleApis[i].httpMethod == GET
    ensures StartSend(LoadPreset(s, SampleApis[i]), startTime).pending.request.body == None
    ensures StartSend(LoadPreset(s, SampleApis[i]), startTime).pending.request.url == SampleApis[i].url
  {
  }

  /** After a failed send the badge is red, and the elapsed time shown is
      still that of the previous send, since the failure path does not record
      one. */
  lemma FailureShowsRedAndStaleTime(s: Session, startTime: int, message: string, endTime: int, time: string)
    requires !s.loading
    ensures Display.StatusBadge(Send(s, startTime, Err(message), endTime, time).status) == Some(Display.Red)
    ensures Display.ElapsedShown(Send(s, startTime, Err(message), endTime, time).responseTime)
        == Display.ElapsedShown(s.responseTime)
  {
  }

  /** The first send from a fresh page that gets a 200: the badge is green,
      the elapsed time is shown when the clock advanced, and the log holds just
      that request. */
  lemma FirstSendOk(startTime: int, json: string, endTime: int, time: string)
    ensures
      var r := Send(Init(), startTime, Ok(200, json), endTime, time);
      && Display.StatusBadge(r.status) == Some(Display.Green)
      && r.response == Some(Decoded(json))
      && (startTime < endTime ==> Display.ElapsedShown(r.responseTime))
      && r.history == [Entry(GET, Init().url, 200, time, Decoded(json))]
  {
    var r := Send(Init(), startTime, Ok(200, json), endTime, time);
    assert |r.history| == 1;
  }
}
