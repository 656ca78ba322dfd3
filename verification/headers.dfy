/** The editable header list of the request draft, and the header map that
    is actually sent. */
module Headers {

  datatype Header = Header(key: string, value: string)

  /** Which half of a pair an edit replaces. */
  datatype Field = Key | Value

  /** The pair appended by "Add Header". */
  const Blank := Header("", "")

  /** Appends one blank pair after the existing ones. */
  function AddHeader(h: seq<Header>): (r: seq<Header>)
    ensures |r| == |h| + 1
    ensures r[..|h|] == h
    ensures r[|h|] == Blank
  {
    h + [Blank]
  }

  /** Keeps every pair whose position differs from `index`, in order, the way
      an index filter does; an index outside the list keeps everything. */
  function RemoveHeader(h: seq<Header>, index: int): (r: seq<Header>)
    ensures 0 <= index < |h| ==> r == h[..index] + h[index + 1..]
    ensures !(0 <= index < |h|) ==> r == h
  {
    if |h| == 0 then []
    else
      var init := h[..|h| - 1];
      var kept := RemoveHeader(init, index);
      assert h == init + [h[|h| - 1]];
      if |h| - 1 == index then
        assert h[index + 1..] == [];
        kept
      else
        assert 0 <= index < |init| ==> h[index + 1..] == init[index + 1..] + [h[|h| - 1]];
        kept + [h[|h| - 1]]
  }

  /** One pair with one of its halves replaced. */
  function WithField(p: Header, field: Field, v: string): Header
  {
    match field
    case Key => p.(key := v)
    case Value => p.(value := v)
  }

  /** Replaces one half of the pair at `index`. The caller must pass an
      existing position: the list is indexed without a check. */
  function UpdateHeader(h: seq<Header>, index: int, field: Field, v: string): (r: seq<Header>)
    requires 0 <= index < |h|
    ensures |r| == |h|
    ensures forall j :: 0 <= j < |h| && j != index ==> r[j] == h[j]
    ensures field == Key ==> r[index].key == v && r[index].value == h[index].value
    ensures field == Value ==> r[index].value == v && r[index].key == h[index].key
  {
    h[index := WithField(h[index], field, v)]
  }

  /** A pair is sent only when both its key and its value are non-empty. */
  predicate Transmitted(p: Header)
  {
    p.key != "" && p.value != ""
  }

  /** Position `i` holds the last sent pair for key `k`. */
  ghost predicate LastFor(h: seq<Header>, k: string, i: int)
  {
    && 0 <= i < |h|
    && h[i].key == k
    && Transmitted(h[i])
    && forall j :: i < j < |h| ==> !(h[j].key == k && Transmitted(h[j]))
  }

  /** The header map built by walking the pairs front to back and storing each
      sent pair under its key, so that a later pair overwrites an earlier one. */
  function EffectiveHeaders(h: seq<Header>): (m: map<string, string>)
    ensures forall k :: k in m ==> k != "" && m[k] != ""
  {
    if |h| == 0 then map[]
    else
      var m := EffectiveHeaders(h[..|h| - 1]);
      var last := h[|h| - 1];
      if Transmitted(last) then m[last.key := last.value] else m
  }

  /** A key is in the map exactly when some sent pair carries it. */
  lemma {:induction false} EffectiveHeadersKeys(h: seq<Header>, k: string)
    ensures k in EffectiveHeaders(h) <==> exists i :: 0 <= i < |h| && h[i].key == k && Transmitted(h[i])
    decreases |h|
  {
    if |h| > 0 {
      var init := h[..|h| - 1];
      var last := h[|h| - 1];
      EffectiveHeadersKeys(init, k);
      if !(last.key == k && Transmitted(last)) {
        if k in EffectiveHeaders(h) {
          var i :| 0 <= i < |init| && init[i].key == k && Transmitted(init[i]);
          assert h[i] == init[i];
        }
        if exists i :: 0 <= i < |h| && h[i].key == k && Transmitted(h[i]) {
          var i :| 0 <= i < |h| && h[i].key == k && Transmitted(h[i]);
          assert i < |init| && init[i] == h[i];
        }
      }
    }
  }

  /** The value stored under a key is the value of the last sent pair with
      that key: later duplicates overwrite earlier ones. */
  lemma {:induction false} EffectiveHeadersLastWins(h: seq<Header>, k: string, i: int)
    requires LastFor(h, k, i)
    ensures k in EffectiveHeaders(h) && EffectiveHeaders(h)[k] == h[i].value
    decreases |h|
  {
    var init := h[..|h| - 1];
    var last := h[|h| - 1];
    if i < |h| - 1 {
      assert !(last.key == k && Transmitted(last));
      forall j | i < j < |init|
        ensures !(init[j].key == k && Transmitted(init[j]))
      {
        assert init[j] == h[j];
      }
      assert LastFor(init, k, i);
      EffectiveHeadersLastWins(init, k, i);
    }
  }

  /** Pairs with an empty key or an empty value never reach the map: removing
      them first gives the same map. */
  lemma {:induction false} BlankPairsDropped(h: seq<Header>, p: Header, i: int)
    requires 0 <= i <= |h|
    requires !Transmitted(p)
    ensures EffectiveHeaders(h[..i] + [p] + h[i..]) == EffectiveHeaders(h)
    decreases |h| - i
  {
    var g := h[..i] + [p] + h[i..];
    if i == |h| {
      assert g[..|g| - 1] == h;
    } else {
      var init := h[..|h| - 1];
      BlankPairsDropped(init, p, i);
      assert g[..|g| - 1] == init[..i] + [p] + init[i..];
      assert g[|g| - 1] == h[|h| - 1];
    }
  }

  /** Removing the pair just added restores the list. */
  lemma RemoveAfterAdd(h: seq<Header>)
    ensures RemoveHeader(AddHeader(h), |h|) == h
  {
    assert AddHeader(h)[..|h|] == h;
  }

  /** A later edit of the same half overrides an earlier one, and writing back
      the current content changes nothing. */
  lemma UpdateOverrides(h: seq<Header>, index: int, field: Field, a: string, b: string)
    requires 0 <= index < |h|
    ensures UpdateHeader(UpdateHeader(h, index, field, a), index, field, b) == UpdateHeader(h, index, field, b)
    ensures UpdateHeader(h, index, Key, h[index].key) == h
    ensures UpdateHeader(h, index, Value, h[index].value) == h
  {
  }
}
