/**
 Weighted reduction of routed experts. Every execution order the system uses (position by position,
 expert by expert with resident weights, or as staged weight groups arrive) must give each position
 the sum over its own experts in ascending expert order. Addition is an arbitrary function here:
 nothing assumes that it is associative or commutative.
 */
module ExpertReduction {
  import opened Wrappers

  datatype RoutedExpert = RoutedExpert(expert: nat, weight: real)

  type Selection = seq<RoutedExpert>

  predicate ValidSelection(selection: Selection, numExperts: nat) {
    && (forall i | 0 <= i < |selection| :: selection[i].expert < numExperts)
    && (forall i, j | 0 <= i < j < |selection| :: selection[i].expert != selection[j].expert)
  }

  /** The weight with which a position selected an expert, if it did. */
  function WeightOf(selection: Selection, expert: nat): (weight: Option<real>)
    ensures weight.Some? ==> RoutedExpert(expert, weight.value) in selection
    ensures weight.None? ==> forall routed | routed in selection :: routed.expert != expert
  {
    if selection == [] then None
    else if selection[0].expert == expert then Some(selection[0].weight)
    else WeightOf(selection[1..], expert)
  }

  datatype Assignment = Assignment(position: nat, weight: real)

  /** Power's routing record: one selection for each position of a layer input. */
  datatype RoutedExpertBatch = RoutedExpertBatch(selections: seq<Selection>, numExperts: nat) {
    predicate Valid() {
      forall position | 0 <= position < |selections| :: ValidSelection(selections[position], numExperts)
    }

    predicate Uses(expert: nat) {
      exists position | 0 <= position < |selections| :: WeightOf(selections[position], expert).Some?
    }

    /** The union of the selected experts below a bound, ascending. */
    function ExpertsBelow(bound: nat): seq<nat> {
      if bound == 0 then []
      else if Uses(bound - 1) then ExpertsBelow(bound - 1) + [bound - 1]
      else ExpertsBelow(bound - 1)
    }

    function Experts(): seq<nat> {
      ExpertsBelow(numExperts)
    }

    /** The union is ascending, so without repetition, and holds exactly the experts that some position selected. */
    lemma {:induction false} ExpertsAreTheUnion(bound: nat)
      ensures forall i | 0 <= i < |ExpertsBelow(bound)| :: ExpertsBelow(bound)[i] < bound
      ensures forall i, j | 0 <= i < j < |ExpertsBelow(bound)| :: ExpertsBelow(bound)[i] < ExpertsBelow(bound)[j]
      ensures forall expert: nat :: expert in ExpertsBelow(bound) <==> expert < bound && Uses(expert)
    {
      if bound == 0 {
      } else {
        ExpertsAreTheUnion(bound - 1);
      }
    }

    /** The positions below a bound that selected an expert, in row order, with their weights. */
    function AssignmentsBelow(expert: nat, bound: nat): (assignments: seq<Assignment>)
      requires bound <= |selections|
      ensures forall i | 0 <= i < |assignments| :: assignments[i].position < bound
    {
      if bound == 0 then []
      else
        var before := AssignmentsBelow(expert, bound - 1);
        match WeightOf(selections[bound - 1], expert)
        case None => before
        case Some(weight) => before + [Assignment(bound - 1, weight)]
    }

    function Assignments(expert: nat): (assignments: seq<Assignment>)
      ensures forall i | 0 <= i < |assignments| :: assignments[i].position < |selections|
    {
      AssignmentsBelow(expert, |selections|)
    }

    lemma {:induction false} AssignmentsAreInRowOrder(expert: nat, bound: nat)
      requires bound <= |selections|
      ensures
        var assignments := AssignmentsBelow(expert, bound);
        && (forall i, j | 0 <= i < j < |assignments| :: assignments[i].position < assignments[j].position)
        && (forall a :: a in assignments <==>
            a.position < bound && WeightOf(selections[a.position], expert) == Some(a.weight))
    {
      if bound == 0 {
      } else {
        AssignmentsAreInRowOrder(expert, bound - 1);
      }
    }
  }

  datatype ExpertOps<!V> = ExpertOps(
    expert: (nat, V) -> V,
    scale: (real, V) -> V,
    add: (V, V) -> V,
    zero: V,
    finite: V -> bool)

  function Contribution<V>(ops: ExpertOps<V>, expert: nat, x: V, weight: real): V {
    ops.scale(weight, ops.expert(expert, x))
  }

  /** One position alone: its experts below `bound`, added from zero in ascending order. */
  function Partial<V>(ops: ExpertOps<V>, x: V, selection: Selection, bound: nat): V {
    if bound == 0 then ops.zero
    else
      var before := Partial(ops, x, selection, bound - 1);
      match WeightOf(selection, bound - 1)
      case None => before
      case Some(weight) => ops.add(before, Contribution(ops, bound - 1, x, weight))
  }

  /** The reduction of a whole layer input, position by position. */
  function Reduce<V>(ops: ExpertOps<V>, xs: seq<V>, selections: seq<Selection>, bound: nat): (ys: seq<V>)
    requires |xs| == |selections|
    ensures |ys| == |xs|
  {
    seq(|xs|, position requires 0 <= position < |xs| => Partial(ops, xs[position], selections[position], bound))
  }

  lemma {:induction false} PartialSkipsUnused<V>(ops: ExpertOps<V>, x: V, selection: Selection, low: nat, high: nat)
    requires low <= high
    requires forall expert | low <= expert < high :: WeightOf(selection, expert).None?
    ensures Partial(ops, x, selection, low) == Partial(ops, x, selection, high)
  {
    if low < high {
      PartialSkipsUnused(ops, x, selection, low, high - 1);
    }
  }

  // ----- what a reduction is -----

  /** Routed experts in some order, each weighted output added to the sum of those before it, from zero on. */
  function Folded<V>(ops: ExpertOps<V>, x: V, order: Selection): V {
    if order == [] then ops.zero
    else
      var last := order[|order| - 1];
      ops.add(Folded(ops, x, order[..|order| - 1]), ops.scale(last.weight, ops.expert(last.expert, x)))
  }

  /** The routed experts of a selection below `bound`, by ascending expert. */
  ghost predicate IsByExpert(selection: Selection, order: Selection, bound: nat) {
    && (forall i, j | 0 <= i < j < |order| :: order[i].expert < order[j].expert)
    && (forall routed :: routed in order <==> routed in selection && routed.expert < bound)
  }

  function ByExpert(selection: Selection, bound: nat): Selection {
    if bound == 0 then []
    else
      match WeightOf(selection, bound - 1)
      case None => ByExpert(selection, bound - 1)
      case Some(weight) => ByExpert(selection, bound - 1) + [RoutedExpert(bound - 1, weight)]
  }

  lemma {:induction false} UniqueWeight(selection: Selection, numExperts: nat, routed: RoutedExpert)
    requires ValidSelection(selection, numExperts) && routed in selection
    ensures WeightOf(selection, routed.expert) == Some(routed.weight)
  {
    var i :| 0 <= i < |selection| && selection[i] == routed;
    var found := WeightOf(selection, routed.expert).value;
    var j :| 0 <= j < |selection| && selection[j] == RoutedExpert(routed.expert, found);
  }

  lemma {:induction false} ByExpertSorts(selection: Selection, numExperts: nat, bound: nat)
    requires ValidSelection(selection, numExperts)
    ensures IsByExpert(selection, ByExpert(selection, bound), bound)
  {
    ByExpertAscends(selection, bound);
    forall routed
      ensures routed in ByExpert(selection, bound) <==> routed in selection && routed.expert < bound
    {
      ByExpertLists(selection, numExperts, bound, routed);
    }
  }

  lemma {:induction false} ByExpertLists(selection: Selection, numExperts: nat, bound: nat, routed: RoutedExpert)
    requires ValidSelection(selection, numExperts)
    ensures routed in ByExpert(selection, bound) <==> routed in selection && routed.expert < bound
    decreases bound
  {
    if bound == 0 {
    } else {
      ByExpertLists(selection, numExperts, bound - 1, routed);
      if routed in selection {
        UniqueWeight(selection, numExperts, routed);
      }
      hide ValidSelection;
    }
  }

  lemma {:induction false} ByExpertAscends(selection: Selection, bound: nat)
    ensures forall i | 0 <= i < |ByExpert(selection, bound)| :: ByExpert(selection, bound)[i].expert < bound
    ensures forall i, j | 0 <= i < j < |ByExpert(selection, bound)| ::
              ByExpert(selection, bound)[i].expert < ByExpert(selection, bound)[j].expert
    decreases bound
  {
    if bound == 0 {
    } else {
      ByExpertAscends(selection, bound - 1);
    }
  }

  /** A position's reduction is the fold of its selection by ascending expert, whatever order the selection lists. */
  lemma {:induction false} ReductionIsFold<V>(ops: ExpertOps<V>, x: V, selection: Selection, numExperts: nat,
                                              order: Selection, bound: nat)
    requires ValidSelection(selection, numExperts) && IsByExpert(selection, order, bound)
    ensures Partial(ops, x, selection, bound) == Folded(ops, x, order)
    decreases bound
  {
    hide IsByExpert, WeightOf, ValidSelection;
    if bound == 0 {
      NothingByExpert(selection, order);
    } else {
      match WeightOf(selection, bound - 1) {
        case None =>
          SameByExpert(selection, order, bound);
          ReductionIsFold(ops, x, selection, numExperts, order, bound - 1);
        case Some(weight) =>
          LastByExpert(selection, order, bound, RoutedExpert(bound - 1, weight));
          ReductionIsFold(ops, x, selection, numExperts, order[..|order| - 1], bound - 1);
      }
    }
  }

  lemma {:induction false} NothingByExpert(selection: Selection, order: Selection)
    requires IsByExpert(selection, order, 0)
    ensures order == []
  {
    assert order != [] ==> order[0] in order && order[0].expert < 0;
  }

  lemma {:induction false} SameByExpert(selection: Selection, order: Selection, bound: nat)
    requires bound > 0 && IsByExpert(selection, order, bound) && WeightOf(selection, bound - 1).None?
    ensures IsByExpert(selection, order, bound - 1)
  {
    forall routed
      ensures routed in order <==> routed in selection && routed.expert < bound - 1
    {
      if routed in selection {
        assert routed.expert != bound - 1;
      }
    }
  }

  lemma {:induction false} LastByExpert(selection: Selection, order: Selection, bound: nat, last: RoutedExpert)
    requires bound > 0 && IsByExpert(selection, order, bound) && last in selection && last.expert == bound - 1
    ensures order != [] && order[|order| - 1] == last
    ensures IsByExpert(selection, order[..|order| - 1], bound - 1)
  {
    assert last in order;
    var k :| 0 <= k < |order| && order[k] == last;
    assert order[|order| - 1] in order;
    PrefixByExpert(selection, order, bound, |order| - 1);
  }

  /** The first routed experts of an ascending order are those below the next one. */
  lemma {:induction false} PrefixByExpert(selection: Selection, order: Selection, bound: nat, k: nat)
    requires k < |order| && IsByExpert(selection, order, bound)
    ensures IsByExpert(selection, order[..k], order[k].expert)
  {
    var prefix := order[..k];
    forall routed
      ensures routed in prefix <==> routed in selection && routed.expert < order[k].expert
    {
      if routed in prefix {
        var i :| 0 <= i < |prefix| && prefix[i] == routed;
        assert order[i] in order;
      }
      if routed in selection && routed.expert < order[k].expert {
        assert order[k] in order;
        assert routed in order;
        var i :| 0 <= i < |order| && order[i] == routed;
        assert prefix[i] == routed;
      }
    }
  }

  /** So every row of a reduction is the fold of its own routed experts. */
  lemma {:induction false} ReduceIsFold<V>(ops: ExpertOps<V>, xs: seq<V>, selections: seq<Selection>, numExperts: nat,
                                           p: nat)
    requires |xs| == |selections| && p < |xs| && ValidSelection(selections[p], numExperts)
    ensures Reduce(ops, xs, selections, numExperts)[p] == Folded(ops, xs[p], ByExpert(selections[p], numExperts))
  {
    ByExpertSorts(selections[p], numExperts, numExperts);
    ReductionIsFold(ops, xs[p], selections[p], numExperts, ByExpert(selections[p], numExperts), numExperts);
  }

  /** A single routed expert contributes its output times its weight. */
  lemma {:induction false} OneRoutedExpert<V>(ops: ExpertOps<V>, x: V, expert: nat, weight: real, numExperts: nat)
    requires expert < numExperts
    ensures Reduce(ops, [x], [[RoutedExpert(expert, weight)]], numExperts)
         == [ops.add(ops.zero, ops.scale(weight, ops.expert(expert, x)))]
  {
    var selection := [RoutedExpert(expert, weight)];
    ReductionIsFold(ops, x, selection, numExperts, selection, numExperts);
    assert selection[..0] == [];
  }

  /** The arithmetic of numbers. */
  ghost predicate OverReals(ops: ExpertOps<real>) {
    && ops.zero == 0.0
    && (forall a, b :: ops.add(a, b) == a + b)
    && (forall weight, v :: ops.scale(weight, v) == weight * v)
  }

  /** The sum of the weighted outputs of the routed experts below `bound`, as listed. */
  function WeightedSum(ops: ExpertOps<real>, x: real, selection: Selection, bound: nat): real {
    if selection == [] then 0.0
    else
      var first := selection[0];
      (if first.expert < bound then first.weight * ops.expert(first.expert, x) else 0.0)
      + WeightedSum(ops, x, selection[1..], bound)
  }

  lemma {:induction false} WeightedSumNext(ops: ExpertOps<real>, x: real, selection: Selection, numExperts: nat,
                                           bound: nat)
    requires ValidSelection(selection, numExperts)
    ensures WeightedSum(ops, x, selection, bound + 1) ==
            WeightedSum(ops, x, selection, bound) +
            match WeightOf(selection, bound)
            case None => 0.0
            case Some(weight) => weight * ops.expert(bound, x)
    decreases selection
  {
    if selection == [] {
    } else {
      WeightedSumNext(ops, x, selection[1..], numExperts, bound);
      FirstIsAlone(selection, numExperts);
    }
  }

  lemma {:induction false} FirstIsAlone(selection: Selection, numExperts: nat)
    requires ValidSelection(selection, numExperts) && selection != []
    ensures forall routed | routed in selection[1..] :: routed.expert != selection[0].expert
  {
    assert forall i | 0 <= i < |selection[1..]| :: selection[1..][i] == selection[i + 1];
  }

  /** Over numbers the reduction is the sum of weight times expert output over the selection. */
  lemma {:induction false} ReductionIsWeightedSum(ops: ExpertOps<real>, x: real, selection: Selection, numExperts: nat,
                                                  bound: nat)
    requires OverReals(ops) && ValidSelection(selection, numExperts)
    ensures Partial(ops, x, selection, bound) == WeightedSum(ops, x, selection, bound)
    decreases bound
  {
    if bound == 0 {
      NothingBelowZero(ops, x, selection);
    } else {
      ReductionIsWeightedSum(ops, x, selection, numExperts, bound - 1);
      WeightedSumNext(ops, x, selection, numExperts, bound - 1);
    }
  }

  lemma {:induction false} NothingBelowZero(ops: ExpertOps<real>, x: real, selection: Selection)
    ensures WeightedSum(ops, x, selection, 0) == 0.0
    decreases selection
  {
    if selection == [] {
    } else {
      NothingBelowZero(ops, x, selection[1..]);
    }
  }

  // ----- indexed addition -----

  /** Adds `values[i]` to the row `indices[i]`, in order. */
  function IndexAdd<V>(ops: ExpertOps<V>, output: seq<V>, indices: seq<nat>, values: seq<V>): (sum: seq<V>)
    requires |indices| == |values|
    requires forall i | 0 <= i < |indices| :: indices[i] < |output|
    ensures |sum| == |output|
    decreases |indices|
  {
    if indices == [] then output
    else
      var last := |indices| - 1;
      var before := IndexAdd(ops, output, indices[..last], values[..last]);
      before[indices[last] := ops.add(before[indices[last]], values[last])]
  }

  lemma {:induction false} IndexAddAt<V>(ops: ExpertOps<V>, output: seq<V>, indices: seq<nat>, values: seq<V>,
                                         position: nat)
    requires |indices| == |values| && position < |output|
    requires forall i | 0 <= i < |indices| :: indices[i] < |output|
    requires forall i, j | 0 <= i < j < |indices| :: indices[i] < indices[j]
    ensures position !in indices ==> IndexAdd(ops, output, indices, values)[position] == output[position]
    ensures forall i | 0 <= i < |indices| && indices[i] == position ::
              IndexAdd(ops, output, indices, values)[position] == ops.add(output[position], values[i])
    decreases |indices|
  {
    if indices == [] {
    } else {
      var last := |indices| - 1;
      IndexAddAt(ops, output, indices[..last], values[..last], position);
      if indices[last] == position && position in indices[..last] {
        assert false;
      }
    }
  }

  // ----- one expert of the union -----

  datatype ExpertContribution<V> = ExpertContribution(indices: seq<nat>, values: seq<V>)

  function Positions(assignments: seq<Assignment>): seq<nat> {
    seq(|assignments|, i requires 0 <= i < |assignments| => assignments[i].position)
  }

  /** What one expert adds: gathered rows, run through the expert, scaled by the route weights. */
  function Contributes<V>(ops: ExpertOps<V>, xs: seq<V>, routes: RoutedExpertBatch,
                          expert: nat): (c: ExpertContribution<V>)
    requires |xs| == |routes.selections|
    ensures |c.indices| == |c.values|
    ensures forall i | 0 <= i < |c.indices| :: c.indices[i] < |xs|
  {
    var assignments := routes.Assignments(expert);
    ExpertContribution(
      Positions(assignments),
      seq(|assignments|, i requires 0 <= i < |assignments| =>
          Contribution(ops, expert, xs[assignments[i].position], assignments[i].weight)))
  }

  /**
   Adding expert `expert` to a reduction that stands at `low`, with no used expert between, gives the reduction past it.
   */
  lemma {:induction false} ExpertStep<V>(ops: ExpertOps<V>, xs: seq<V>, routes: RoutedExpertBatch, output: seq<V>,
                                         low: nat, expert: nat)
    requires |xs| == |routes.selections|
    requires low <= expert
    requires output == Reduce(ops, xs, routes.selections, low)
    requires forall skipped | low <= skipped < expert :: !routes.Uses(skipped)
    ensures
      var c := Contributes(ops, xs, routes, expert);
      IndexAdd(ops, output, c.indices, c.values) == Reduce(ops, xs, routes.selections, expert + 1)
  {
    var c := Contributes(ops, xs, routes, expert);
    var sum := IndexAdd(ops, output, c.indices, c.values);
    forall position | 0 <= position < |xs|
      ensures sum[position] == Partial(ops, xs[position], routes.selections[position], expert + 1)
    {
      ExpertStepAt(ops, xs, routes, output, low, expert, position);
    }
  }

  lemma {:induction false} ContributesAscend<V>(ops: ExpertOps<V>, xs: seq<V>, routes: RoutedExpertBatch, expert: nat)
    requires |xs| == |routes.selections|
    ensures
      var indices := Contributes(ops, xs, routes, expert).indices;
      forall i, j | 0 <= i < j < |indices| :: indices[i] < indices[j]
  {
    routes.AssignmentsAreInRowOrder(expert, |xs|);
  }

  lemma {:induction false} ContributesAt<V>(ops: ExpertOps<V>, xs: seq<V>, routes: RoutedExpertBatch, expert: nat,
                                            position: nat)
    requires |xs| == |routes.selections| && position < |xs|
    ensures
      var c := Contributes(ops, xs, routes, expert);
      && (forall i, j | 0 <= i < j < |c.indices| :: c.indices[i] < c.indices[j])
      && match WeightOf(routes.selections[position], expert)
         case None => position !in c.indices
         case Some(weight) => exists i ::
           0 <= i < |c.indices| && c.indices[i] == position &&
             c.values[i] == Contribution(ops, expert, xs[position], weight)
  {
    var assignments := routes.Assignments(expert);
    var c := Contributes(ops, xs, routes, expert);
    routes.AssignmentsAreInRowOrder(expert, |xs|);
    match WeightOf(routes.selections[position], expert)
    case None =>
      forall i | 0 <= i < |c.indices|
        ensures c.indices[i] != position
      {
        assert assignments[i] in assignments;
      }
    case Some(weight) =>
      assert Assignment(position, weight) in assignments;
      var i :| 0 <= i < |assignments| && assignments[i] == Assignment(position, weight);
      assert c.indices[i] == position && c.values[i] == Contribution(ops, expert, xs[position], weight);
  }

  lemma {:induction false} ExpertStepAt<V>(ops: ExpertOps<V>, xs: seq<V>, routes: RoutedExpertBatch, output: seq<V>,
                                           low: nat, expert: nat, position: nat)
    requires |xs| == |routes.selections| == |output| && position < |xs|
    requires low <= expert
    requires output[position] == Partial(ops, xs[position], routes.selections[position], low)
    requires forall skipped | low <= skipped < expert :: !routes.Uses(skipped)
    ensures
      var c := Contributes(ops, xs, routes, expert);
      IndexAdd(ops, output, c.indices, c.values)[position]
        == Partial(ops, xs[position], routes.selections[position], expert + 1)
  {
    var c, selection := Contributes(ops, xs, routes, expert), routes.selections[position];
    ContributesAt(ops, xs, routes, expert, position);
    IndexAddAt(ops, output, c.indices, c.values, position);
    UnusedByPosition(routes, low, expert, position);
    PartialSkipsUnused(ops, xs[position], selection, low, expert);
  }

  lemma {:induction false} UnusedByPosition(routes: RoutedExpertBatch, low: nat, high: nat, position: nat)
    requires position < |routes.selections|
    requires forall skipped | low <= skipped < high :: !routes.Uses(skipped)
    ensures forall skipped | low <= skipped < high :: WeightOf(routes.selections[position], skipped).None?
  {
    forall skipped | low <= skipped < high
      ensures WeightOf(routes.selections[position], skipped).None?
    {
      assert !routes.Uses(skipped);
    }
  }

  /** The bound reached after the first `count` experts of the union. */
  function Reached(routes: RoutedExpertBatch, count: nat): nat
    requires count <= |routes.Experts()|
  {
    if count == 0 then 0 else routes.Experts()[count - 1] + 1
  }

  lemma {:induction false} NothingBetween(routes: RoutedExpertBatch, count: nat)
    requires count <= |routes.Experts()|
    ensures
      var next := if count < |routes.Experts()| then routes.Experts()[count] else routes.numExperts;
      Reached(routes, count) <= next && forall skipped | Reached(routes, count) <= skipped < next ::
        !routes.Uses(skipped)
  {
    var experts := routes.Experts();
    routes.ExpertsAreTheUnion(routes.numExperts);
    var next := if count < |experts| then experts[count] else routes.numExperts;
    assert forall i | 0 <= i < |experts| :: experts[i] in experts;
    forall i | 0 <= i < |experts|
      ensures experts[i] < Reached(routes, count) || next <= experts[i]
    {
      assert i < count || count <= i;
    }
  }

  /** The canonical loop: adding the next expert of the union moves the reduction to the next bound. */
  lemma {:induction false} CanonicalStep<V>(ops: ExpertOps<V>, xs: seq<V>, routes: RoutedExpertBatch, output: seq<V>,
                                            count: nat)
    requires |xs| == |routes.selections| && count < |routes.Experts()|
    requires output == Reduce(ops, xs, routes.selections, Reached(routes, count))
    ensures
      var c := Contributes(ops, xs, routes, routes.Experts()[count]);
      IndexAdd(ops, output, c.indices, c.values) == Reduce(ops, xs, routes.selections, Reached(routes, count + 1))
  {
    NothingBetween(routes, count);
    ExpertStep(ops, xs, routes, output, Reached(routes, count), routes.Experts()[count]);
  }

  lemma {:induction false} ReductionComplete<V>(ops: ExpertOps<V>, xs: seq<V>, routes: RoutedExpertBatch)
    requires |xs| == |routes.selections|
    ensures Reduce(ops, xs, routes.selections, Reached(routes, |routes.Experts()|))
            == Reduce(ops, xs, routes.selections, routes.numExperts)
  {
    var reached := Reached(routes, |routes.Experts()|);
    NothingBetween(routes, |routes.Experts()|);
    forall position | 0 <= position < |xs|
      ensures Partial(ops, xs[position], routes.selections[position], reached)
              == Partial(ops, xs[position], routes.selections[position], routes.numExperts)
    {
      UnusedByPosition(routes, reached, routes.numExperts, position);
      PartialSkipsUnused(ops, xs[position], routes.selections[position], reached, routes.numExperts);
    }
  }

  // ----- the three executions -----

  /** Resident weights: one indexed addition for each expert of the union. */
  method ResidentForward<V>(ops: ExpertOps<V>, xs: seq<V>, routes: RoutedExpertBatch) returns (output: seq<V>)
    requires |xs| == |routes.selections|
    ensures output == Reduce(ops, xs, routes.selections, routes.numExperts)
  {
    var experts := routes.Experts();
    output := seq(|xs|, _ => ops.zero);
    for i := 0 to |experts|
      invariant output == Reduce(ops, xs, routes.selections, Reached(routes, i))
    {
      CanonicalStep(ops, xs, routes, output, i);
      var contribution := Contributes(ops, xs, routes, experts[i]);
      output := IndexAdd(ops, output, contribution.indices, contribution.values);
    }
    ReductionComplete(ops, xs, routes);
  }

  /** One expert of the reference layer: its assigned rows are updated in place until a sum is not finite. */
  method AccumulateExpert<V>(ops: ExpertOps<V>, xs: seq<V>, routes: RoutedExpertBatch, expert: nat, output: array<V>)
    returns (result: Result<()>)
    requires |xs| == |routes.selections| == output.Length
    modifies output
    ensures
      var c := Contributes(ops, xs, routes, expert);
      var sum := IndexAdd(ops, old(output[..]), c.indices, c.values);
      && (result.Ok? <==> forall j | 0 <= j < |c.indices| :: ops.finite(sum[c.indices[j]]))
      && (result.Ok? ==> output[..] == sum)
      && (result.Err? ==> result.error == Inference)
  {
    ghost var before := output[..];
    ghost var c := Contributes(ops, xs, routes, expert);
    ghost var sum := IndexAdd(ops, before, c.indices, c.values);
    var assignments := routes.Assignments(expert);
    ContributesAscend(ops, xs, routes, expert);
    ContributesAssigned(ops, xs, routes, expert);
    hide IndexAdd, Contributes, Contribution, RoutedExpertBatch.Assignments;
    NothingAdded(ops, before, c.indices[..0], c.values[..0]);
    for k := 0 to |assignments|
      invariant output[..] == IndexAdd(ops, before, c.indices[..k], c.values[..k])
      invariant forall j | 0 <= j < k :: ops.finite(sum[c.indices[j]])
    {
      var position := assignments[k].position;
      IndexAddPrefix(ops, before, c.indices, c.values, k);
      output[position] := ops.add(output[position], Contribution(ops, expert, xs[position], assignments[k].weight));
      assert output[position] == sum[position];
      if !ops.finite(output[position]) {
        return Err(Inference);
      }
    }
    assert c.indices[..|assignments|] == c.indices && c.values[..|assignments|] == c.values;
    result := Ok(());
  }

  lemma {:induction false} NothingAdded<V>(ops: ExpertOps<V>, output: seq<V>, indices: seq<nat>, values: seq<V>)
    requires indices == [] && values == []
    ensures IndexAdd(ops, output, indices, values) == output
  {
  }

  /** An expert contributes one row for each of its assignments. */
  lemma {:induction false} ContributesAssigned<V>(ops: ExpertOps<V>, xs: seq<V>, routes: RoutedExpertBatch, expert: nat)
    requires |xs| == |routes.selections|
    ensures var c, assignments := Contributes(ops, xs, routes, expert), routes.Assignments(expert);
            && |c.indices| == |assignments|
            && forall k | 0 <= k < |assignments| ::
                 && c.indices[k] == assignments[k].position < |xs|
                 && c.values[k] == Contribution(ops, expert, xs[assignments[k].position], assignments[k].weight)
  {
  }

  lemma {:induction false} IndexAddPrefix<V>(ops: ExpertOps<V>, output: seq<V>, indices: seq<nat>, values: seq<V>,
                                             k: nat)
    requires |indices| == |values| && k < |indices|
    requires forall i | 0 <= i < |indices| :: indices[i] < |output|
    requires forall i, j | 0 <= i < j < |indices| :: indices[i] < indices[j]
    ensures
      var before := IndexAdd(ops, output, indices[..k], values[..k]);
      var added := ops.add(before[indices[k]], values[k]);
      && IndexAdd(ops, output, indices[..k + 1], values[..k + 1]) == before[indices[k] := added]
      && IndexAdd(ops, output, indices, values)[indices[k]] == added
  {
    assert indices[..k + 1][..k] == indices[..k] && values[..k + 1][..k] == values[..k];
    IndexAddAt(ops, output, indices[..k], values[..k], indices[k]);
    IndexAddAt(ops, output, indices, values, indices[k]);
  }

  /** Every sum that reducing the experts below `bound` passes through is finite. */
  predicate FiniteBelow<V>(ops: ExpertOps<V>, xs: seq<V>, routes: RoutedExpertBatch, bound: nat)
    requires |xs| == |routes.selections|
  {
    forall expert, position | 0 <= expert < bound && 0 <= position < |xs| &&
      WeightOf(routes.selections[position], expert).Some? ::
      ops.finite(Partial(ops, xs[position], routes.selections[position], expert + 1))
  }

  /** That is, every sum on the way through the fold of a position's experts is finite. */
  lemma {:induction false} FiniteIsFold<V>(ops: ExpertOps<V>, xs: seq<V>, routes: RoutedExpertBatch,
                                           orders: seq<Selection>)
    requires |xs| == |routes.selections| == |orders| && routes.Valid()
    requires forall p | 0 <= p < |xs| :: IsByExpert(routes.selections[p], orders[p], routes.numExperts)
    ensures FiniteBelow(ops, xs, routes, routes.numExperts) <==>
            forall p, k | 0 <= p < |xs| && 0 < k <= |orders[p]| :: ops.finite(Folded(ops, xs[p], orders[p][..k]))
  {
    hide Partial, Folded, WeightOf, IsByExpert;
    forall p, k | 0 <= p < |xs| && 0 < k <= |orders[p]|
      ensures WeightOf(routes.selections[p], orders[p][k - 1].expert).Some? &&
              orders[p][k - 1].expert < routes.numExperts
      ensures Folded(ops, xs[p], orders[p][..k])
              == Partial(ops, xs[p], routes.selections[p], orders[p][k - 1].expert + 1)
    {
      FoldedPrefix(ops, xs[p], routes.selections[p], routes.numExperts, orders[p], k);
    }
    if forall p, k | 0 <= p < |xs| && 0 < k <= |orders[p]| :: ops.finite(Folded(ops, xs[p], orders[p][..k])) {
      forall expert, p | 0 <= expert < routes.numExperts && 0 <= p < |xs| &&
                         WeightOf(routes.selections[p], expert).Some?
        ensures ops.finite(Partial(ops, xs[p], routes.selections[p], expert + 1))
      {
        var i := PlaceByExpert(routes.selections[p], orders[p], routes.numExperts, expert);
        assert ops.finite(Folded(ops, xs[p], orders[p][..i + 1]));
      }
    }
  }

  lemma {:induction false} PlaceByExpert(selection: Selection, order: Selection, bound: nat, expert: nat)
    returns (i: nat)
    requires IsByExpert(selection, order, bound) && expert < bound && WeightOf(selection, expert).Some?
    ensures i < |order| && order[i].expert == expert
  {
    var routed := RoutedExpert(expert, WeightOf(selection, expert).value);
    assert routed in order;
    i :| 0 <= i < |order| && order[i] == routed;
  }

  lemma {:induction false} FoldedPrefix<V>(ops: ExpertOps<V>, x: V, selection: Selection, numExperts: nat,
                                           order: Selection, k: nat)
    requires ValidSelection(selection, numExperts) && IsByExpert(selection, order, numExperts) && 0 < k <= |order|
    ensures WeightOf(selection, order[k - 1].expert).Some? && order[k - 1].expert < numExperts
    ensures Folded(ops, x, order[..k]) == Partial(ops, x, selection, order[k - 1].expert + 1)
  {
    hide Folded, Partial;
    assert order[k - 1] in order;
    UniqueWeight(selection, numExperts, order[k - 1]);
    UpToByExpert(selection, numExperts, order, k);
    ReductionIsFold(ops, x, selection, numExperts, order[..k], order[k - 1].expert + 1);
  }

  lemma {:induction false} UpToByExpert(selection: Selection, numExperts: nat, order: Selection, k: nat)
    requires ValidSelection(selection, numExperts) && IsByExpert(selection, order, numExperts) && 0 < k <= |order|
    ensures IsByExpert(selection, order[..k], order[k - 1].expert + 1)
  {
    var last, before := order[k - 1], order[..k - 1];
    PrefixByExpert(selection, order, numExperts, k - 1);
    assert order[..k] == before + [last] && last in order;
    forall routed | routed in selection && routed.expert == last.expert
      ensures routed == last
    {
      UniqueWeight(selection, numExperts, routed);
      UniqueWeight(selection, numExperts, last);
    }
    assert forall i | 0 <= i < |before| :: before[i] in before;
  }

  /** Reference layer: adds row by row into one mutable output and refuses a sum that is not finite. */
  method ReferenceForward<V(0)>(ops: ExpertOps<V>, xs: seq<V>, routes: RoutedExpertBatch)
    returns (result: Result<seq<V>>)
    requires |xs| == |routes.selections|
    ensures result.Ok? <==> FiniteBelow(ops, xs, routes, routes.numExperts)
    ensures result.Ok? ==> result.value == Reduce(ops, xs, routes.selections, routes.numExperts)
    ensures result.Err? ==> result.error == Inference
  {
    var experts := routes.Experts();
    var output := new V[|xs|](_ => ops.zero);
    assert output[..] == Reduce(ops, xs, routes.selections, Reached(routes, 0)) &&
           FiniteBelow(ops, xs, routes, Reached(routes, 0));
    hide Reduce, Reached, Partial;
    for i := 0 to |experts|
      invariant output[..] == Reduce(ops, xs, routes.selections, Reached(routes, i))
      invariant FiniteBelow(ops, xs, routes, Reached(routes, i))
    {
      CanonicalStep(ops, xs, routes, output[..], i);
      FiniteStep(ops, xs, routes, i);
      var added := AccumulateExpert(ops, xs, routes, experts[i], output);
      if added.Err? {
        return Err(added.error);
      }
    }
    ReductionComplete(ops, xs, routes);
    FiniteComplete(ops, xs, routes);
    result := Ok(output[..]);
  }

  lemma {:induction false} FiniteStep<V>(ops: ExpertOps<V>, xs: seq<V>, routes: RoutedExpertBatch, count: nat)
    requires |xs| == |routes.selections| && count < |routes.Experts()|
    requires FiniteBelow(ops, xs, routes, Reached(routes, count))
    ensures
      var bound, indices := Reached(routes, count + 1), Contributes(ops, xs, routes, routes.Experts()[count]).indices;
      && (FiniteBelow(ops, xs, routes, bound) <==>
          forall j | 0 <= j < |indices| :: ops.finite(Reduce(ops, xs, routes.selections, bound)[indices[j]]))
      && (FiniteBelow(ops, xs, routes, routes.numExperts) ==> FiniteBelow(ops, xs, routes, bound))
  {
    hide Partial;
    var expert := routes.Experts()[count];
    routes.ExpertsAreTheUnion(routes.numExperts);
    assert expert in routes.Experts();
    NothingBetween(routes, count);
    forall position | 0 <= position < |xs|
      ensures WeightOf(routes.selections[position], expert).Some? <==>
              position in Contributes(ops, xs, routes, expert).indices
    {
      ContributesAt(ops, xs, routes, expert, position);
    }
    forall position | 0 <= position < |xs| {
      UnusedByPosition(routes, Reached(routes, count), expert, position);
    }
  }

  lemma {:induction false} FiniteComplete<V>(ops: ExpertOps<V>, xs: seq<V>, routes: RoutedExpertBatch)
    requires |xs| == |routes.selections|
    requires FiniteBelow(ops, xs, routes, Reached(routes, |routes.Experts()|))
    ensures FiniteBelow(ops, xs, routes, routes.numExperts)
  {
    NothingBetween(routes, |routes.Experts()|);
    forall position | 0 <= position < |xs| {
      UnusedByPosition(routes, Reached(routes, |routes.Experts()|), routes.numExperts, position);
    }
  }

  /** Each group of the union arrives exactly once, in some order. */
  predicate DeliversOnce(arrivals: seq<nat>, groups: nat) {
    && (forall i | 0 <= i < |arrivals| :: arrivals[i] < groups)
    && (forall i, j | 0 <= i < j < |arrivals| :: arrivals[i] != arrivals[j])
    && (forall group | 0 <= group < groups :: group in arrivals)
  }

  ghost predicate Filled<V>(slots: seq<Option<ExpertContribution<V>>>, arrived: seq<nat>, ops: ExpertOps<V>,
                            xs: seq<V>, routes: RoutedExpertBatch)
    requires |xs| == |routes.selections|
  {
    && |slots| == |routes.Experts()|
    && forall group | 0 <= group < |slots| ::
         slots[group] == if group in arrived then Some(Contributes(ops, xs, routes, routes.Experts()[group])) else None
  }

  /** Computes one staged group into its slot. */
  method ComputeGroup<V>(ops: ExpertOps<V>, xs: seq<V>, routes: RoutedExpertBatch, group: nat, cancelled: bool,
                         contributions: array<Option<ExpertContribution<V>>>, ghost arrived: seq<nat>)
                           returns (result: Result<()>)
    requires |xs| == |routes.selections| && Filled(contributions[..], arrived, ops, xs, routes)
    modifies contributions
    ensures result.Ok? <==> !cancelled && group < |routes.Experts()| && group !in arrived
    ensures result.Ok? ==> Filled(contributions[..], arrived + [group], ops, xs, routes)
    ensures result.Err? ==> contributions[..] == old(contributions[..])
  {
    if cancelled {
      return Err(Cancelled);
    }
    var experts := routes.Experts();
    if group >= |experts| {
      return Err(Inference);
    }
    var contribution := Contributes(ops, xs, routes, experts[group]);
    if contributions[group].Some? {
      return Err(Inference);
    }
    contributions[group] := Some(contribution);
    result := Ok(());
  }

  /**
   Streamed weights: groups are computed as they arrive and reduced in expert order afterwards. The
   call succeeds exactly when every group arrives once and cancellation is never seen, and then the
   arrival order does not matter.
   */
  method StreamedForward<V>(ops: ExpertOps<V>, xs: seq<V>, routes: RoutedExpertBatch, arrivals: seq<nat>,
                            cancelled: nat -> bool)
    returns (result: Result<seq<V>>)
    requires |xs| == |routes.selections|
    ensures result.Ok? <==>
            DeliversOnce(arrivals, |routes.Experts()|) && forall i | 0 <= i <= |arrivals| :: !cancelled(i)
    ensures result.Ok? ==> result.value == Reduce(ops, xs, routes.selections, routes.numExperts)
  {
    if cancelled(0) {
      return Err(Cancelled);
    }
    var experts := routes.Experts();
    var contributions := new Option<ExpertContribution<V>>[|experts|](_ => None);
    for i := 0 to |arrivals|
      invariant Filled(contributions[..], arrivals[..i], ops, xs, routes)
      invariant forall j, k | 0 <= j < k < i :: arrivals[j] != arrivals[k]
      invariant forall j | 0 <= j < i :: arrivals[j] < |experts|
      invariant forall j | 0 <= j <= i :: !cancelled(j)
    {
      var group := ComputeGroup(ops, xs, routes, arrivals[i], cancelled(i + 1), contributions, arrivals[..i]);
      if group.Err? {
        return Err(group.error);
      }
      assert arrivals[..i + 1] == arrivals[..i] + [arrivals[i]];
    }
    assert arrivals[..|arrivals|] == arrivals;
    result := ReduceSlots(ops, xs, routes, contributions[..], arrivals);
  }

  lemma {:induction false} FilledSlot<V>(slots: seq<Option<ExpertContribution<V>>>, arrived: seq<nat>,
                                         ops: ExpertOps<V>, xs: seq<V>, routes: RoutedExpertBatch, group: nat)
    requires |xs| == |routes.selections| && Filled(slots, arrived, ops, xs, routes) && group < |slots|
    ensures slots[group].Some? <==> group in arrived
    ensures slots[group].Some? ==> slots[group].value == Contributes(ops, xs, routes, routes.Experts()[group])
  {
  }

  /** Canonical reduction of the slots; it fails exactly when some group never arrived. */
  method ReduceSlots<V>(ops: ExpertOps<V>, xs: seq<V>, routes: RoutedExpertBatch,
                        contributions: seq<Option<ExpertContribution<V>>>, ghost arrived: seq<nat>)
                          returns (result: Result<seq<V>>)
    requires |xs| == |routes.selections| && Filled(contributions, arrived, ops, xs, routes)
    ensures result.Ok? <==> forall group | 0 <= group < |routes.Experts()| :: group in arrived
    ensures result.Ok? ==> result.value == Reduce(ops, xs, routes.selections, routes.numExperts)
    ensures result.Err? ==> result.error == Inference
  {
    var output := seq(|xs|, _ => ops.zero);
    assert output == Reduce(ops, xs, routes.selections, Reached(routes, 0));
    hide Reduce, Reached, Partial, IndexAdd, Contributes, Filled, RoutedExpertBatch.Experts;
    for i := 0 to |contributions|
      invariant output == Reduce(ops, xs, routes.selections, Reached(routes, i))
      invariant forall group | 0 <= group < i :: group in arrived
    {
      if contributions[i].None? {
        return Err(Inference);
      }
      FilledSlot(contributions, arrived, ops, xs, routes, i);
      var contribution := contributions[i].value;
      CanonicalStep(ops, xs, routes, output, i);
      output := IndexAdd(ops, output, contribution.indices, contribution.values);
    }
    ReductionComplete(ops, xs, routes);
    result := Ok(output);
  }
}
