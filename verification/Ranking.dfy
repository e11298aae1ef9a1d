/** Indices ranked by descending score, ties broken by the lower index: the order of both the router and the sampler. */
module Ranking {

  predicate Before(scores: seq<real>, left: nat, right: nat)
    requires left < |scores| && right < |scores|
  {
    scores[left] > scores[right] || (scores[left] == scores[right] && left < right)
  }

  predicate Ordered(scores: seq<real>, order: seq<nat>) {
    && (forall a | 0 <= a < |order| :: order[a] < |scores|)
    && (forall a, b | 0 <= a < b < |order| :: Before(scores, order[a], order[b]))
  }

  function Insert(scores: seq<real>, order: seq<nat>, index: nat): (result: seq<nat>)
    requires index < |scores| && Ordered(scores, order) && index !in order
    ensures Ordered(scores, result) && |result| == |order| + 1
    ensures forall i :: i in result <==> i in order || i == index
  {
    if order == [] then [index]
    else if Before(scores, index, order[0]) then [index] + order
    else
      var rest := Insert(scores, order[1..], index);
      assert forall a | 0 <= a < |rest| :: rest[a] in rest;
      assert forall i | i in order[1..] :: Before(scores, order[0], i);
      [order[0]] + rest
  }

  function RankBelow(scores: seq<real>, bound: nat): (order: seq<nat>)
    requires bound <= |scores|
    ensures Ordered(scores, order) && |order| == bound
    ensures forall i :: i in order <==> 0 <= i < bound
  {
    if bound == 0 then [] else Insert(scores, RankBelow(scores, bound - 1), bound - 1)
  }

  /** Every index, ranked. */
  function Rank(scores: seq<real>): (order: seq<nat>)
    ensures Ordered(scores, order) && |order| == |scores|
    ensures forall i :: i in order <==> 0 <= i < |scores|
  {
    RankBelow(scores, |scores|)
  }

  lemma {:induction false} OrderedIsUnique(scores: seq<real>, left: seq<nat>, right: seq<nat>)
    requires Ordered(scores, left) && Ordered(scores, right)
    requires forall i :: i in left <==> i in right
    ensures left == right
    decreases |left|
  {
    assert forall i | 0 <= i < |left| :: left[i] in right;
    assert forall i | 0 <= i < |right| :: right[i] in left;
    if left != [] && right != [] {
      assert left[0] in left && right[0] in right;
      var a :| 0 <= a < |left| && left[a] == right[0];
      var b :| 0 <= b < |right| && right[b] == left[0];
      assert left[0] == right[0];
      forall i
        ensures i in left[1..] <==> i in right[1..]
      {
        assert i in left <==> i == left[0] || i in left[1..];
        assert i in right <==> i == right[0] || i in right[1..];
      }
      OrderedIsUnique(scores, left[1..], right[1..]);
    }
  }

  /** Any sort that orders every index correctly returns this ranking. */
  lemma {:induction false} RankIsUnique(scores: seq<real>, order: seq<nat>)
    requires Ordered(scores, order) && forall i :: i in order <==> 0 <= i < |scores|
    ensures order == Rank(scores)
  {
    OrderedIsUnique(scores, order, Rank(scores));
  }

  /**
   The first `count` ranked indices are exactly the `count` best: distinct, ordered, and before everything left out.
   */
  predicate IsTop(scores: seq<real>, selected: seq<nat>, count: nat) {
    && |selected| == count
    && Ordered(scores, selected)
    && forall i, other: nat | 0 <= i < count && other < |scores| && other !in selected ::
       Before(scores, selected[i], other)
  }

  lemma {:induction false} RankPrefixIsTop(scores: seq<real>, count: nat)
    requires count <= |scores|
    ensures IsTop(scores, Rank(scores)[..count], count)
  {
    var order := Rank(scores);
    forall i, other: nat | 0 <= i < count && other < |scores| && other !in order[..count]
      ensures Before(scores, order[i], other)
    {
      assert other in order;
      assert order == order[..count] + order[count..];
      assert other in order[count..];
    }
  }

  /** There is only one way to be the best `count`. */
  lemma {:induction false} TopIsUnique(scores: seq<real>, selected: seq<nat>, count: nat)
    requires count <= |scores| && IsTop(scores, selected, count)
    ensures selected == Rank(scores)[..count]
  {
    var rest := Others(Rank(scores), selected);
    OthersStayOrdered(scores, Rank(scores), selected);
    var order := selected + rest;
    forall i: nat
      ensures i in order <==> i < |scores|
    {
      assert i in order <==> i in selected || i in rest;
    }
    forall a, b | 0 <= a < b < |order|
      ensures Before(scores, order[a], order[b])
    {
      if a < |selected| <= b {
        assert rest[b - |selected|] in rest;
      }
    }
    RankIsUnique(scores, order);
  }

  function Others(order: seq<nat>, selected: seq<nat>): (rest: seq<nat>)
    ensures forall i :: i in rest <==> i in order && i !in selected
  {
    if order == [] then []
    else if order[0] in selected then Others(order[1..], selected)
    else [order[0]] + Others(order[1..], selected)
  }

  lemma {:induction false} OthersStayOrdered(scores: seq<real>, order: seq<nat>, selected: seq<nat>)
    requires Ordered(scores, order)
    ensures Ordered(scores, Others(order, selected))
  {
    if order == [] {
    } else {
      OthersStayOrdered(scores, order[1..], selected);
      var rest := Others(order[1..], selected);
      forall i | 0 <= i < |rest|
        ensures Before(scores, order[0], rest[i])
      {
        assert rest[i] in rest;
      }
    }
  }
}
