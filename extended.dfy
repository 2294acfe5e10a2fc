/** Integers extended with the two infinities the Python code starts its
    running maxima and minima from (`-1*float('inf')`, `float('inf')`), and the
    strict-improvement scan that both the minimax loop and the two argmax loops
    of the move decoder perform. */
module Extended {

  datatype ExtInt = NegInf | Fin(n: int) | PosInf

  /** The strict order of the extended integers: -inf < every int < +inf. */
  predicate Less(a: ExtInt, b: ExtInt)
  {
    match (a, b)
    case (NegInf, NegInf) => false
    case (NegInf, _) => true
    case (Fin(x), Fin(y)) => x < y
    case (Fin(_), PosInf) => true
    case (_, _) => false
  }

  lemma LessIsStrictTotalOrder(a: ExtInt, b: ExtInt, c: ExtInt)
    ensures !Less(a, a)
    ensures Less(a, b) ==> !Less(b, a)
    ensures Less(a, b) && Less(b, c) ==> Less(a, c)
    ensures a == b || Less(a, b) || Less(b, a)
  {
  }

  /** The starting value of a scan: -inf when maximising, +inf when minimising. */
  function Init(maximize: bool): ExtInt
  {
    if maximize then NegInf else PosInf
  }

  /** `a` strictly improves on `b`: greater when maximising, smaller when minimising. */
  predicate Better(maximize: bool, a: ExtInt, b: ExtInt)
  {
    if maximize then Less(b, a) else Less(a, b)
  }

  /** Nothing is worse than the starting value, and only the starting value
      itself fails to improve on it. */
  lemma BetterThanInit(maximize: bool, a: ExtInt)
    ensures !Better(maximize, Init(maximize), a)
    ensures !Better(maximize, a, Init(maximize)) <==> a == Init(maximize)
  {
  }

  /** The index a left-to-right scan ends on when only a strictly better value
      replaces the incumbent. */
  function FirstBest(xs: seq<ExtInt>, maximize: bool): (k: nat)
    requires |xs| > 0
    ensures k < |xs|
  {
    if |xs| == 1 then 0
    else
      var k := FirstBest(xs[..|xs| - 1], maximize);
      if Better(maximize, xs[|xs| - 1], xs[k]) then |xs| - 1 else k
  }

  /** The scan ends on the first index holding a best value: nothing is better
      than it, and it is better than everything before it. */
  lemma {:induction false} FirstBestIsFirstBest(xs: seq<ExtInt>, maximize: bool)
    requires |xs| > 0
    ensures forall j :: 0 <= j < |xs| ==> !Better(maximize, xs[j], xs[FirstBest(xs, maximize)])
    ensures forall j :: 0 <= j < FirstBest(xs, maximize) ==> Better(maximize, xs[FirstBest(xs, maximize)], xs[j])
  {
    if |xs| > 1 {
      var init := xs[..|xs| - 1];
      FirstBestIsFirstBest(init, maximize);
      var k := FirstBest(init, maximize);
      assert forall j :: 0 <= j < |xs| - 1 ==> init[j] == xs[j];
      forall a, b, c {
        LessIsStrictTotalOrder(a, b, c);
      }
    }
  }

  /** The best value of `xs`, or the starting value when `xs` is empty. */
  function Best(xs: seq<ExtInt>, maximize: bool): ExtInt
  {
    if xs == [] then Init(maximize) else xs[FirstBest(xs, maximize)]
  }

  /** Nothing in `xs` is better than `Best(xs)`, which is the starting value or
      an element of `xs`. */
  lemma BestIsBest(xs: seq<ExtInt>, maximize: bool)
    ensures forall j :: 0 <= j < |xs| ==> !Better(maximize, xs[j], Best(xs, maximize))
    ensures Best(xs, maximize) == Init(maximize) || Best(xs, maximize) in xs
  {
    if xs != [] {
      FirstBestIsFirstBest(xs, maximize);
    }
  }

  /** One step of the scan: appending `x` moves the incumbent to the new last
      index exactly when `x` strictly improves on it. */
  lemma FirstBestStep(xs: seq<ExtInt>, x: ExtInt, maximize: bool)
    requires |xs| > 0
    ensures FirstBest(xs + [x], maximize)
         == if Better(maximize, x, xs[FirstBest(xs, maximize)]) then |xs| else FirstBest(xs, maximize)
  {
    assert (xs + [x])[..|xs|] == xs;
  }

  /** The scan step in terms of `Best`: the new value replaces the incumbent
      exactly when it is strictly better, and the first-best index follows. */
  lemma BestSnoc(xs: seq<ExtInt>, x: ExtInt, maximize: bool)
    ensures Best(xs + [x], maximize) == if Better(maximize, x, Best(xs, maximize)) then x else Best(xs, maximize)
    ensures FirstBest(xs + [x], maximize)
         == if xs == [] || Better(maximize, x, Best(xs, maximize)) then |xs| else FirstBest(xs, maximize)
  {
    if xs == [] {
      assert xs + [x] == [x];
      BetterThanInit(maximize, x);
    } else {
      FirstBestStep(xs, x, maximize);
    }
  }

  /** `BestSnoc` at index `i` of a sequence being scanned; a value that
      improves on the incumbent is never the starting value. */
  lemma ScanStep(xs: seq<ExtInt>, i: nat, maximize: bool)
    requires i < |xs|
    ensures Best(xs[..i + 1], maximize)
         == if Better(maximize, xs[i], Best(xs[..i], maximize)) then xs[i] else Best(xs[..i], maximize)
    ensures FirstBest(xs[..i + 1], maximize)
         == if i == 0 || Better(maximize, xs[i], Best(xs[..i], maximize)) then i else FirstBest(xs[..i], maximize)
    ensures Better(maximize, xs[i], Best(xs[..i], maximize)) ==> xs[i] != Init(maximize)
  {
    assert xs[..i + 1] == xs[..i] + [xs[i]];
    BestSnoc(xs[..i], xs[i], maximize);
    BetterThanInit(maximize, Best(xs[..i], maximize));
    if xs[i] == Init(maximize) {
      BetterThanInit(maximize, Best(xs[..i], maximize));
    }
  }
}
