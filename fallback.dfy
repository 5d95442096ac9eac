/** The rule every fallback chain of the controllers follows: strategies are tried in
    list order and the first one whose outcome ends the chain wins. */
module Fallback {
  import opened JsValues

  /** The index of the first element satisfying `stops`, if there is one. */
  function FirstWhere<T>(xs: seq<T>, stops: T -> bool): (r: Option<nat>)
    ensures r.Some? ==> r.value < |xs| && stops(xs[r.value])
    ensures r.Some? ==> forall j :: 0 <= j < r.value ==> !stops(xs[j])
    ensures r.None? <==> forall j :: 0 <= j < |xs| ==> !stops(xs[j])
    decreases |xs|
  {
    if xs == [] then None
    else if stops(xs[0]) then Some(0)
    else
      var rest := FirstWhere(xs[1..], stops);
      assert forall j :: 1 <= j < |xs| ==> xs[j] == xs[1..][j - 1];
      if rest.None? then None else Some(rest.value + 1)
  }

  /** The first index is determined by the outcomes alone: the outcome at `k` stops the
      chain and none before it does. */
  lemma FirstWhereIs<T>(xs: seq<T>, stops: T -> bool, k: nat)
    requires k < |xs| && stops(xs[k])
    requires forall j :: 0 <= j < k ==> !stops(xs[j])
    ensures FirstWhere(xs, stops) == Some(k)
  {
  }

  /** Running one more strategy extends the prefix of the plan run so far. */
  lemma PrefixGrows<T>(plan: seq<T>, i: nat)
    requires i < |plan|
    ensures plan[..i] + [plan[i]] == plan[..i + 1]
  {
  }

  /** None of the first `n` outcomes stops the chain. */
  predicate NoneStops<T>(xs: seq<T>, stops: T -> bool, n: nat)
    requires n <= |xs|
  {
    forall j :: 0 <= j < n ==> !stops(xs[j])
  }

  /** One more outcome that does not stop the chain extends the run of non-stopping ones. */
  lemma NoneStopsStep<T>(xs: seq<T>, stops: T -> bool, n: nat)
    requires n < |xs| && NoneStops(xs, stops, n) && !stops(xs[n])
    ensures NoneStops(xs, stops, n + 1)
  {
  }
}
