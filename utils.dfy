/** utils.js: the publish subscription matcher and the weighted bucket pick. */
module Utils {
  import opened Wrappers

  /** One event's entry in a node's `subscribed` table: `'*'` or a list of service names. */
  datatype Subscription = AnyService | Services(names: seq<string>)

  type Table = map<string, Subscription>

  /** `Array.prototype.indexOf`: the first position of `x`, or -1. */
  function IndexOf(s: seq<string>, x: string): (i: int)
    ensures -1 <= i < |s|
    ensures i == -1 <==> x !in s
    ensures 0 <= i ==> s[i] == x && x !in s[..i]
  {
    if |s| == 0 then -1
    else if s[0] == x then 0
    else
      var j := IndexOf(s[1..], x);
      if j == -1 then -1
      else
        assert s[..j + 1] == [s[0]] + s[1..][..j];
        j + 1
  }

  /** `publishPredicateBuilder(event, publisher)` applied to a node's `subscribed` table
      (`None` when the options carry no table). */
  function PublishAccepts(subscribed: Option<Table>, event: string, publisher: string): (accepts: bool)
    ensures subscribed.None? || event !in subscribed.value ==> !accepts
    ensures subscribed.Some? && event in subscribed.value && subscribed.value[event].AnyService? ==> accepts
    ensures subscribed.Some? && event in subscribed.value && subscribed.value[event].Services? ==>
              (accepts <==> publisher in subscribed.value[event].names)
  {
    if subscribed.None? || event !in subscribed.value then false
    else
      match subscribed.value[event]
      case AnyService => true
      case Services(names) => IndexOf(names, publisher) != -1
  }

  // ---------------------------------------------------------------------------
  // randomWithProbablilities

  /** The sum of the first `n` weights. */
  function Prefix(weights: seq<real>, n: nat): real
    requires n <= |weights|
  {
    if n == 0 then 0.0 else Prefix(weights, n - 1) + weights[n - 1]
  }

  /** The sum of all weights. */
  function Sum(weights: seq<real>): real
  {
    Prefix(weights, |weights|)
  }

  /** The caller's probabilities after the call: the remainder `1 - sum` appended. */
  function WithRemainder(probs: seq<real>): seq<real>
  {
    probs + [1.0 - Sum(probs)]
  }

  /** The non-empty buckets among the first `n`, in input order. */
  function Kept(buckets: seq<seq<string>>, n: nat): (k: seq<seq<string>>)
    requires n <= |buckets|
    ensures |k| <= n
  {
    if n == 0 then []
    else
      Kept(buckets, n - 1) + (if buckets[n - 1] == [] then [] else [buckets[n - 1]])
  }

  /** Empty buckets never appear among the candidates, and every non-empty bucket does. */
  lemma {:induction false} KeptMembers(buckets: seq<seq<string>>, n: nat)
    requires n <= |buckets|
    ensures forall b :: b in Kept(buckets, n) ==> b != [] && b in buckets[..n]
    ensures forall b :: b in buckets[..n] && b != [] ==> b in Kept(buckets, n)
  {
    if n > 0 {
      KeptMembers(buckets, n - 1);
      assert buckets[..n] == buckets[..n - 1] + [buckets[n - 1]];
    }
  }

  /** The weights of the non-empty buckets among the first `n`, in input order. */
  function KeptWeights(buckets: seq<seq<string>>, weights: seq<real>, n: nat): (w: seq<real>)
    requires n <= |buckets| && n <= |weights|
    ensures |w| == |Kept(buckets, n)|
  {
    if n == 0 then []
    else KeptWeights(buckets, weights, n - 1) + (if buckets[n - 1] == [] then [] else [weights[n - 1]])
  }

  /** The mass of the empty buckets among the first `n`. */
  function Unused(buckets: seq<seq<string>>, weights: seq<real>, n: nat): real
    requires n <= |buckets| && n <= |weights|
  {
    if n == 0 then 0.0
    else Unused(buckets, weights, n - 1) + (if buckets[n - 1] == [] then weights[n - 1] else 0.0)
  }

  /** The first position at or after `i` whose running sum (itself included) reaches `draw`. */
  function FirstReaching(weights: seq<real>, draw: real, i: nat): (r: Option<nat>)
    requires i <= |weights|
    ensures r.Some? ==> i <= r.value < |weights| && draw <= Prefix(weights, r.value + 1)
    ensures r.Some? ==> forall j :: i < j <= r.value ==> Prefix(weights, j) < draw
    ensures r.None? ==> forall j :: i < j <= |weights| ==> Prefix(weights, j) < draw
    decreases |weights| - i
  {
    if i == |weights| then None
    else if draw <= Prefix(weights, i + 1) then Some(i)
    else FirstReaching(weights, draw, i + 1)
  }

  /** No running sum of `weights` reaches `draw`. */
  ghost predicate NeverReaches(weights: seq<real>, draw: real)
  {
    forall j :: 0 < j <= |weights| ==> Prefix(weights, j) < draw
  }

  /** The draw `Math.random() * (1 - unused)` when `Math.random()` yields `r`. */
  function ScaledDraw(buckets: seq<seq<string>>, probs: seq<real>, r: real): real
    requires |buckets| <= |probs| + 1
  {
    r * (1.0 - Unused(buckets, WithRemainder(probs), |buckets|))
  }

  /** What `randomWithProbablilities(buckets, probs)` returns when `Math.random()` yields `r`. */
  function Choose(buckets: seq<seq<string>>, probs: seq<real>, r: real): (picked: Option<seq<string>>)
    requires |buckets| <= |probs| + 1
    ensures picked.Some? ==> picked.value != [] && picked.value in buckets
  {
    KeptMembers(buckets, |buckets|);
    assert buckets[..|buckets|] == buckets;
    match FirstReaching(KeptWeights(buckets, WithRemainder(probs), |buckets|), ScaledDraw(buckets, probs, r), 0)
    case None => None
    case Some(k) =>
      assert Kept(buckets, |buckets|)[k] in Kept(buckets, |buckets|);
      Some(Kept(buckets, |buckets|)[k])
  }

  /** The pick returns a non-empty bucket of the input, the first kept bucket (in input order)
      whose running weight reaches the scaled draw; it returns nothing only when no running
      weight reaches the draw. */
  lemma ChooseIsFirstReaching(buckets: seq<seq<string>>, probs: seq<real>, r: real)
    requires |buckets| <= |probs| + 1
    ensures Choose(buckets, probs, r).Some? ==>
              Choose(buckets, probs, r).value != [] && Choose(buckets, probs, r).value in buckets
    ensures Choose(buckets, probs, r).Some? ==>
              exists k :: 0 <= k < |Kept(buckets, |buckets|)|
                          && Kept(buckets, |buckets|)[k] == Choose(buckets, probs, r).value
                          && ScaledDraw(buckets, probs, r) <= Prefix(KeptWeights(buckets, WithRemainder(probs), |buckets|), k + 1)
                          && forall j :: 0 < j <= k ==>
                               Prefix(KeptWeights(buckets, WithRemainder(probs), |buckets|), j) < ScaledDraw(buckets, probs, r)
    ensures Choose(buckets, probs, r).None? <==>
              NeverReaches(KeptWeights(buckets, WithRemainder(probs), |buckets|), ScaledDraw(buckets, probs, r))
  {
    var weights := KeptWeights(buckets, WithRemainder(probs), |buckets|);
    var kept := Kept(buckets, |buckets|);
    var draw := ScaledDraw(buckets, probs, r);
    var found := FirstReaching(weights, draw, 0);
    assert Choose(buckets, probs, r) == if found.None? then None else Some(kept[found.value]);
    if found.Some? {
      var k := found.value;
      assert kept[k] in kept;
      KeptMembers(buckets, |buckets|);
      assert buckets[..|buckets|] == buckets;
      assert 0 < k + 1 <= |kept| && !(Prefix(weights, k + 1) < draw);
      assert Choose(buckets, probs, r).Some?;
    } else {
      assert |weights| == |kept|;
      assert NeverReaches(weights, draw);
      assert Choose(buckets, probs, r).None?;
    }
  }

  lemma {:induction false} PrefixOfConcat(a: seq<real>, b: seq<real>, n: nat)
    requires n <= |a|
    ensures Prefix(a + b, n) == Prefix(a, n)
  {
    if n > 0 {
      PrefixOfConcat(a, b, n - 1);
    }
  }

  lemma SumAppend(a: seq<real>, x: real)
    ensures Sum(a + [x]) == Sum(a) + x
  {
    PrefixOfConcat(a, [x], |a|);
  }

  /** The mass of the dropped buckets goes to `unused`: kept mass plus unused mass is the
      mass of the buckets' weights. */
  lemma {:induction false} KeptMass(buckets: seq<seq<string>>, weights: seq<real>, n: nat)
    requires n <= |buckets| && n <= |weights|
    ensures Sum(KeptWeights(buckets, weights, n)) + Unused(buckets, weights, n) == Prefix(weights, n)
  {
    if n > 0 {
      KeptMass(buckets, weights, n - 1);
      var front := KeptWeights(buckets, weights, n - 1);
      if buckets[n - 1] != [] {
        SumAppend(front, weights[n - 1]);
      } else {
        assert front + [] == front;
      }
    }
  }

  /** With non-negative weights, the kept mass is positive as soon as one non-empty bucket
      has positive weight. */
  lemma {:induction false} KeptMassPositive(buckets: seq<seq<string>>, weights: seq<real>, n: nat, i: nat)
    requires n <= |buckets| && n <= |weights|
    requires forall j :: 0 <= j < |weights| ==> weights[j] >= 0.0
    requires i < n && buckets[i] != [] && weights[i] > 0.0
    ensures Sum(KeptWeights(buckets, weights, n)) > 0.0
  {
    var front := KeptWeights(buckets, weights, n - 1);
    if i == n - 1 {
      KeptMassNonNegative(buckets, weights, n - 1);
    } else {
      KeptMassPositive(buckets, weights, n - 1, i);
    }
    if buckets[n - 1] != [] {
      SumAppend(front, weights[n - 1]);
    } else {
      assert front + [] == front;
    }
  }

  lemma {:induction false} KeptMassNonNegative(buckets: seq<seq<string>>, weights: seq<real>, n: nat)
    requires n <= |buckets| && n <= |weights|
    requires forall j :: 0 <= j < |weights| ==> weights[j] >= 0.0
    ensures Sum(KeptWeights(buckets, weights, n)) >= 0.0
  {
    if n > 0 {
      KeptMassNonNegative(buckets, weights, n - 1);
      var front := KeptWeights(buckets, weights, n - 1);
      if buckets[n - 1] != [] {
        SumAppend(front, weights[n - 1]);
      } else {
        assert front + [] == front;
      }
    }
  }

  lemma ScaledBelow(r: real, total: real, scaled: real)
    requires 0.0 <= r < 1.0 && total > 0.0 && scaled == r * total
    ensures scaled < total
  {
  }

  /** With exact arithmetic, one bucket per probability plus the remainder bucket,
      non-negative probabilities summing to at most 1 and a draw in [0, 1),
      some bucket is always returned when a non-empty bucket has positive mass. */
  lemma ChooseAlwaysPicks(buckets: seq<seq<string>>, probs: seq<real>, r: real, i: nat)
    requires |buckets| == |probs| + 1
    requires forall j :: 0 <= j < |probs| ==> probs[j] >= 0.0
    requires Sum(probs) <= 1.0
    requires 0.0 <= r < 1.0
    requires i < |buckets| && buckets[i] != [] && WithRemainder(probs)[i] > 0.0
    ensures Choose(buckets, probs, r).Some?
  {
    var weights := WithRemainder(probs);
    assert forall j :: 0 <= j < |weights| ==> weights[j] >= 0.0 by {
      forall j | 0 <= j < |weights| ensures weights[j] >= 0.0 {
        if j < |probs| { assert weights[j] == probs[j]; }
      }
    }
    PrefixOfConcat(probs, [1.0 - Sum(probs)], |probs|);
    assert Prefix(weights, |buckets|) == 1.0;
    KeptMass(buckets, weights, |buckets|);
    var kw := KeptWeights(buckets, weights, |buckets|);
    KeptMassPositive(buckets, weights, |buckets|, i);
    var total := Sum(kw);
    assert total == 1.0 - Unused(buckets, weights, |buckets|);
    var draw := ScaledDraw(buckets, probs, r);
    ScaledBelow(r, total, draw);
    assert total == Prefix(kw, |kw|);
    var found := FirstReaching(kw, draw, 0);
    assert Choose(buckets, probs, r).Some? <==> found.Some?;
  }

  /** The caller's probabilities array, which the pick extends in place. */
  class ProbabilityList {
    var items: seq<real>

    constructor (items: seq<real>)
      ensures this.items == items
    {
      this.items := items;
    }
  }

  /** `randomWithProbablilities(buckets, probabilities)` with `Math.random()` yielding `r`. */
  method RandomWithProbabilities(buckets: seq<seq<string>>, probabilities: ProbabilityList, r: real)
    returns (chosen: Option<seq<string>>)
    requires |buckets| <= |probabilities.items| + 1
    modifies probabilities
    ensures probabilities.items == WithRemainder(old(probabilities.items))
    ensures chosen == Choose(buckets, old(probabilities.items), r)
  {
    var items := probabilities.items;
    var remaining := 1.0;
    var i := 0;
    while i < |items|
      invariant 0 <= i <= |items|
      invariant remaining == 1.0 - Prefix(items, i)
    {
      remaining := remaining - items[i];
      i := i + 1;
    }
    probabilities.items := items + [remaining];

    var probs := items + [remaining];
    assert probs == WithRemainder(items);
    var newArray: seq<seq<string>> := [];
    var newProbs: seq<real> := [];
    var unused := 0.0;
    var j := 0;
    while j < |buckets|
      invariant 0 <= j <= |buckets|
      invariant newArray == Kept(buckets, j)
      invariant newProbs == KeptWeights(buckets, probs, j)
      invariant unused == Unused(buckets, probs, j)
    {
      if |buckets[j]| == 0 {
        unused := unused + probs[j];
      } else {
        newArray := newArray + [buckets[j]];
        newProbs := newProbs + [probs[j]];
      }
      j := j + 1;
    }

    var random := r * (1.0 - unused);
    assert random == ScaledDraw(buckets, items, r);
    var sum := 0.0;
    var k := 0;
    while k < |newArray|
      invariant 0 <= k <= |newArray| == |newProbs|
      invariant sum == Prefix(newProbs, k)
      invariant FirstReaching(newProbs, random, 0) == FirstReaching(newProbs, random, k)
    {
      sum := sum + newProbs[k];
      if random <= sum {
        assert FirstReaching(newProbs, random, k) == Some(k);
        assert Choose(buckets, items, r) == Some(newArray[k]);
        return Some(newArray[k]);
      }
      k := k + 1;
    }
    assert Choose(buckets, items, r) == None;
    chosen := None;
  }
}
