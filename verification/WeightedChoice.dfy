/** Choosing an agent at random, in proportion to the nodes' weights (app/micro.go). */
module WeightedChoice {
  function Sum(weights: seq<int>): int {
    if weights == [] then 0 else Sum(weights[..|weights| - 1]) + weights[|weights| - 1]
  }

  /** The weights of the nodes up to and including node `i`. */
  function Upto(weights: seq<int>, i: nat): int
    requires i < |weights|
  {
    Sum(weights[..i + 1])
  }

  /** `Panics`: the random source refuses an upper bound that is not positive. */
  datatype Choice = NoNode | Panics | Node(index: nat)

  /** The draw falls into the share of node `i`: it reaches past the weights before it, and not past its own. */
  predicate Picks(weights: seq<int>, draw: int, i: nat) {
    && i < |weights|
    && draw < Upto(weights, i)
    && forall j :: 0 <= j < i ==> Upto(weights, j) <= draw
  }

  /** `draw` is the random number, below the total weight whenever one is drawn. */
  method ChooseNode(weights: seq<int>, draw: int) returns (choice: Choice)
    requires Sum(weights) > 0 ==> 0 <= draw < Sum(weights)
    ensures choice.NoNode? <==> weights == []
    ensures choice.Panics? <==> weights != [] && Sum(weights) <= 0
    ensures choice.Node? ==> Picks(weights, draw, choice.index)
  {
    if |weights| == 0 {
      return NoNode;
    }
    var totalWeight := 0;
    for i := 0 to |weights|
      invariant totalWeight == Sum(weights[..i])
    {
      assert weights[..i + 1][..i] == weights[..i];
      totalWeight := totalWeight + weights[i];
    }
    assert weights[..|weights|] == weights;
    if totalWeight <= 0 {
      return Panics;
    }
    var weightSum := 0;
    for i := 0 to |weights|
      invariant weightSum == Sum(weights[..i])
      invariant forall j :: 0 <= j < i ==> Upto(weights, j) <= draw
      invariant i > 0 ==> weightSum <= draw
    {
      assert weights[..i + 1][..i] == weights[..i];
      weightSum := weightSum + weights[i];
      if draw < weightSum {
        return Node(i);
      }
    }
    // the default of the code, which no draw below the total weight reaches
    assert false;
  }

  lemma {:induction false} SumsGrow(weights: seq<int>, i: nat, j: nat)
    requires forall k :: 0 <= k < |weights| ==> weights[k] >= 0
    requires i <= j <= |weights|
    ensures 0 <= Sum(weights[..i]) <= Sum(weights[..j])
    decreases j
  {
    if i < j {
      assert weights[..j][..j - 1] == weights[..j - 1];
      SumsGrow(weights, i, j - 1);
    } else if i > 0 {
      assert weights[..i][..i - 1] == weights[..i - 1];
      SumsGrow(weights, i - 1, i - 1);
    }
  }

  /** The draws that select a node. */
  function Draws(weights: seq<int>, i: nat): set<int> {
    set d | 0 <= d < Sum(weights) && Picks(weights, d, i)
  }

  predicate Between(low: int, d: int, high: int) {
    low <= d < high
  }

  function Interval(low: int, high: int): set<int> {
    set d | low <= d < high && Between(low, d, high)
  }

  lemma {:induction false} IntervalSize(low: int, high: int)
    requires low <= high
    ensures |Interval(low, high)| == high - low
    decreases high - low
  {
    if low < high {
      IntervalSize(low, high - 1);
      assert Interval(low, high) == Interval(low, high - 1) + {high - 1};
    } else {
      assert Interval(low, high) == {};
    }
  }

  lemma ShareIsWeight(weights: seq<int>, i: nat)
    requires forall k :: 0 <= k < |weights| ==> weights[k] >= 0
    requires i < |weights|
    ensures |Draws(weights, i)| == weights[i]
  {
    var low, high := Sum(weights[..i]), Sum(weights[..i + 1]);
    assert weights[..i + 1][..i] == weights[..i];
    assert weights[..|weights|] == weights;
    SumsGrow(weights, i, i + 1);
    SumsGrow(weights, i + 1, |weights|);
    forall d ensures d in Draws(weights, i) <==> d in Interval(low, high) {
      if Between(low, d, high) {
        forall j | 0 <= j < i ensures Upto(weights, j) <= d {
          SumsGrow(weights, j + 1, i);
        }
      }
      if d in Draws(weights, i) && i > 0 {
        assert Upto(weights, i - 1) <= d;
      }
    }
    assert Draws(weights, i) == Interval(low, high);
    IntervalSize(low, high);
  }

  /** Of the possible draws, each node gets exactly as many as its weight, for every node, exactly when no
      weight is negative. */
  lemma ProportionalIff(weights: seq<int>)
    ensures (forall i :: 0 <= i < |weights| ==> |Draws(weights, i)| == weights[i]) <==>
            (forall i :: 0 <= i < |weights| ==> weights[i] >= 0)
  {
    if forall i :: 0 <= i < |weights| ==> weights[i] >= 0 {
      forall i | 0 <= i < |weights| ensures |Draws(weights, i)| == weights[i] {
        ShareIsWeight(weights, i);
      }
    } else {
      var i :| 0 <= i < |weights| && weights[i] < 0;
      assert |Draws(weights, i)| != weights[i];
    }
  }

  /** One draw selects at most one node, so a node of weight zero is never chosen. */
  lemma ChoiceIsUnique(weights: seq<int>, draw: int, i: nat, j: nat)
    requires Picks(weights, draw, i) && Picks(weights, draw, j)
    ensures i == j
    ensures draw >= 0 ==> weights[i] > 0
  {
    assert weights[..i + 1][..i] == weights[..i];
    assert Upto(weights, i) == Sum(weights[..i]) + weights[i];
    if i > 0 {
      assert Upto(weights, i - 1) <= draw && weights[..i - 1 + 1] == weights[..i];
    } else {
      assert weights[..i] == [];
    }
  }
}
