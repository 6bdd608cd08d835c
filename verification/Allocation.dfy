/** The greedy sharing of one executed amount over a block of revenues
    (accounting/tasks/revenue.py, lines 109-117). */
module Allocation {

  function Min(a: real, b: real): real {
    if a <= b then a else b
  }

  /** What is left of `executed` once every amount has taken its share, in order. */
  function Left(amounts: seq<real>, executed: real): real {
    if amounts == [] then executed
    else
      var left := Left(amounts[..|amounts| - 1], executed);
      left - Min(amounts[|amounts| - 1], left)
  }

  /** The share of each amount. */
  function Fills(amounts: seq<real>, executed: real): (fills: seq<real>)
    ensures |fills| == |amounts|
  {
    seq(|amounts|, k requires 0 <= k < |amounts| => Min(amounts[k], Left(amounts[..k], executed)))
  }

  function Sum(xs: seq<real>): real {
    if xs == [] then 0.0 else Sum(xs[..|xs| - 1]) + xs[|xs| - 1]
  }

  ghost predicate NonNegative(xs: seq<real>) {
    forall k :: 0 <= k < |xs| ==> xs[k] >= 0.0
  }

  /** The loop's running remainder is the executed amount clipped by everything asked for so far. */
  lemma {:induction false} LeftClosedForm(amounts: seq<real>, executed: real)
    requires NonNegative(amounts) && executed >= 0.0
    ensures Sum(amounts) >= 0.0
    ensures Left(amounts, executed) == executed - Min(executed, Sum(amounts))
  {
    if amounts != [] {
      LeftClosedForm(amounts[..|amounts| - 1], executed);
    }
  }

  lemma {:induction false} FillsConserve(amounts: seq<real>, executed: real)
    ensures Sum(Fills(amounts, executed)) == executed - Left(amounts, executed)
  {
    if amounts != [] {
      var init := amounts[..|amounts| - 1];
      FillsConserve(init, executed);
      assert Fills(amounts, executed)[..|init|] == Fills(init, executed) by {
        forall k | 0 <= k < |init| ensures amounts[..k] == init[..k] {}
      }
      assert amounts[..|init|] == init;
    }
  }

  /** Greedy allocation: nothing is lost, no share is negative or above its amount, and the
      shares are full ones, then at most one partial one, then zeros. */
  lemma GreedyAllocation(amounts: seq<real>, executed: real) returns (full: nat)
    requires NonNegative(amounts) && executed >= 0.0
    ensures Sum(Fills(amounts, executed)) == Min(executed, Sum(amounts))
    ensures forall k :: 0 <= k < |amounts| ==> 0.0 <= Fills(amounts, executed)[k] <= amounts[k]
    ensures forall k :: 0 <= k <= |amounts| ==> Left(amounts[..k], executed) >= 0.0
    ensures full <= |amounts|
    ensures forall k :: 0 <= k < full ==> Fills(amounts, executed)[k] == amounts[k]
    ensures forall k :: full < k < |amounts| ==> Fills(amounts, executed)[k] == 0.0
  {
    FillsConserve(amounts, executed);
    LeftClosedForm(amounts, executed);
    forall k | 0 <= k <= |amounts| ensures Left(amounts[..k], executed) >= 0.0 {
      LeftClosedForm(amounts[..k], executed);
    }
    full := FullPrefix(amounts, executed);
  }

  /** The first amount that is not met in full, and what follows it. */
  lemma FullPrefix(amounts: seq<real>, executed: real) returns (full: nat)
    requires NonNegative(amounts) && executed >= 0.0
    ensures full <= |amounts|
    ensures forall k :: 0 <= k < full ==> Fills(amounts, executed)[k] == amounts[k]
    ensures forall k :: full < k < |amounts| ==> Fills(amounts, executed)[k] == 0.0
  {
    full := 0;
    while full < |amounts| && amounts[full] <= Left(amounts[..full], executed)
      invariant full <= |amounts|
      invariant forall k :: 0 <= k < full ==> Fills(amounts, executed)[k] == amounts[k]
    {
      full := full + 1;
    }
    forall k | full < k < |amounts| ensures Fills(amounts, executed)[k] == 0.0 {
      ExhaustedAfter(amounts, executed, full, k);
    }
  }

  lemma {:induction false} ExhaustedAfter(amounts: seq<real>, executed: real, full: nat, k: nat)
    requires NonNegative(amounts) && executed >= 0.0
    requires full < k <= |amounts| && amounts[full] > Left(amounts[..full], executed)
    ensures Left(amounts[..k], executed) == 0.0
  {
    assert amounts[..k][..k - 1] == amounts[..k - 1];
    LeftClosedForm(amounts[..k - 1], executed);
    if k > full + 1 {
      ExhaustedAfter(amounts, executed, full, k - 1);
    }
  }
}
