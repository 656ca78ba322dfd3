/** The bounded, newest-first log of successful sends. */
module History {
  import opened Wrappers
  import opened Methods

  /** At most this many entries are kept. */
  const Capacity := 10

  /** A response as the session holds it: the decoded body of a successful
      send (an opaque JSON value, kept as its text), or the object carrying the
      message of a failed one. */
  datatype Payload = Decoded(json: string) | ErrorObject(message: string)

  /** One logged send: what was sent, the status it got, the local time string
      of its completion and the decoded body. */
  datatype Entry = Entry(httpMethod: Method, url: string, status: int, time: string, response: Payload)

  /** Puts `e` in front and keeps at most the nine newest of the prior entries. */
  function Push(e: Entry, prior: seq<Entry>): (r: seq<Entry>)
    ensures |r| == Min(|prior| + 1, Capacity)
    ensures r[0] == e
    ensures forall i :: 1 <= i < |r| ==> r[i] == prior[i - 1]
  {
    [e] + prior[..Min(|prior|, Capacity - 1)]
  }

  /** The log after pushing `es` in order, oldest first, onto `prior`. */
  function PushAll(prior: seq<Entry>, es: seq<Entry>): seq<Entry>
    decreases |es|
  {
    if |es| == 0 then prior
    else Push(es[|es| - 1], PushAll(prior, es[..|es| - 1]))
  }

  function Reverse(es: seq<Entry>): (r: seq<Entry>)
    ensures |r| == |es|
    ensures forall i :: 0 <= i < |es| ==> r[i] == es[|es| - 1 - i]
  {
    if |es| == 0 then [] else [es[|es| - 1]] + Reverse(es[..|es| - 1])
  }

  /** Pushing a batch is the same as putting the batch, newest first, before
      the prior log and cutting the result to the capacity. */
  lemma {:induction false} PushAllIsNewestFirst(prior: seq<Entry>, es: seq<Entry>)
    requires |prior| <= Capacity
    ensures PushAll(prior, es) == (Reverse(es) + prior)[..Min(|es| + |prior|, Capacity)]
    decreases |es|
  {
    if |es| == 0 {
      assert Reverse(es) + prior == prior;
    } else {
      var init := es[..|es| - 1];
      var e := es[|es| - 1];
      PushAllIsNewestFirst(prior, init);
      var prev := (Reverse(init) + prior)[..Min(|init| + |prior|, Capacity)];
      assert Reverse(es) == [e] + Reverse(init);
      assert PushAll(prior, es) == [e] + prev[..Min(|prev|, Capacity - 1)];
      assert prev[..Min(|prev|, Capacity - 1)] == (Reverse(init) + prior)[..Min(|init| + |prior|, Capacity - 1)];
    }
  }

  /** From an empty log, N pushes leave min(N, 10) entries, the newest one in
      front; after more than ten pushes the earliest ones are gone and only the
      last ten remain, newest first. */
  lemma PushAllFromEmpty(es: seq<Entry>)
    ensures |PushAll([], es)| == Min(|es|, Capacity)
    ensures |es| > 0 ==> PushAll([], es)[0] == es[|es| - 1]
    ensures forall i :: 0 <= i < |PushAll([], es)| ==> PushAll([], es)[i] == es[|es| - 1 - i]
  {
    PushAllIsNewestFirst([], es);
    assert Reverse(es) + [] == Reverse(es);
  }
}
