/** The blocks that the settlement job's map of open lists cuts each coin into. */
module SettlementBlocks {
  import opened Options
  import opened Allocation
  import opened Settlement
  import opened SettlementTask

  /** The blocks of `coin` closed within the first `n` rows. */
  function Blocks(t: Table, w: World, cutoff: int, coin: string, n: nat): seq<seq<nat>>
    requires n <= |t|
  {
    if n == 0 then []
    else if Keyed(t, w, cutoff, coin, n - 1) then
      Blocks(t, w, cutoff, coin, n - 1) + [Open(t, w, cutoff, coin, n - 1) + [n - 1]]
    else Blocks(t, w, cutoff, coin, n - 1)
  }

  /** The rows of `coin` among the first `n`, in order. */
  function Positions(t: Table, w: World, cutoff: int, coin: string, n: nat): (ps: seq<nat>)
    requires n <= |t|
    ensures forall k :: 0 <= k < |ps| ==> ps[k] < n && Member(t, w, cutoff, coin, ps[k])
  {
    if n == 0 then []
    else if Member(t, w, cutoff, coin, n - 1) then Positions(t, w, cutoff, coin, n - 1) + [n - 1]
    else Positions(t, w, cutoff, coin, n - 1)
  }

  function Flatten(blocks: seq<seq<nat>>): seq<nat> {
    if blocks == [] then [] else Flatten(blocks[..|blocks| - 1]) + blocks[|blocks| - 1]
  }

  /** Ends in its only keyed row. */
  ghost predicate Closed(t: Table, block: seq<nat>) {
    && block != []
    && (forall k :: 0 <= k < |block| ==> block[k] < |t|)
    && (forall k :: 0 <= k < |block| ==> (t[block[k]].hedgeKey != "" <==> k == |block| - 1))
  }

  lemma {:induction false} OpenUnkeyed(t: Table, w: World, cutoff: int, coin: string, n: nat)
    requires n <= |t|
    ensures forall k :: 0 <= k < |Open(t, w, cutoff, coin, n)| ==> t[Open(t, w, cutoff, coin, n)[k]].hedgeKey == ""
  {
    if n > 0 {
      OpenUnkeyed(t, w, cutoff, coin, n - 1);
    }
  }

  lemma {:induction false} BlocksClosed(t: Table, w: World, cutoff: int, coin: string, n: nat, b: nat)
    requires n <= |t| && b < |Blocks(t, w, cutoff, coin, n)|
    ensures Closed(t, Blocks(t, w, cutoff, coin, n)[b])
  {
    var before := Blocks(t, w, cutoff, coin, n - 1);
    if b < |before| {
      BlocksClosed(t, w, cutoff, coin, n - 1, b);
    } else {
      OpenUnkeyed(t, w, cutoff, coin, n - 1);
    }
  }

  /** Blocks and leftover put back together are the coin's rows, in order. */
  lemma {:induction false} BlocksPartition(t: Table, w: World, cutoff: int, coin: string, n: nat)
    requires n <= |t|
    ensures Flatten(Blocks(t, w, cutoff, coin, n)) + Open(t, w, cutoff, coin, n) == Positions(t, w, cutoff, coin, n)
  {
    if n > 0 {
      BlocksPartition(t, w, cutoff, coin, n - 1);
      var before, open := Blocks(t, w, cutoff, coin, n - 1), Open(t, w, cutoff, coin, n - 1);
      if Keyed(t, w, cutoff, coin, n - 1) {
        FlattenLast(before, open + [n - 1]);
        assert Flatten(before) + (open + [n - 1]) == (Flatten(before) + open) + [n - 1];
      } else if Member(t, w, cutoff, coin, n - 1) {
        assert Flatten(before) + (open + [n - 1]) == (Flatten(before) + open) + [n - 1];
      }
    }
  }

  lemma FlattenLast(blocks: seq<seq<nat>>, block: seq<nat>)
    ensures Flatten(blocks + [block]) == Flatten(blocks) + block
  {
    assert (blocks + [block])[..|blocks|] == blocks;
  }

  /** Where a row of a closed block stands. */
  lemma {:induction false} BlockMember(t: Table, w: World, cutoff: int, coin: string, n: nat, b: nat, k: nat)
    requires n <= |t| && b < |Blocks(t, w, cutoff, coin, n)| && k < |Blocks(t, w, cutoff, coin, n)[b]|
    ensures var block := Blocks(t, w, cutoff, coin, n)[b];
            (forall j :: 0 <= j < |block| ==> block[j] < n) &&
            Member(t, w, cutoff, coin, block[k]) &&
            Closer(t, w, cutoff, coin, block[k]) == Some(block[|block| - 1]) &&
            Open(t, w, cutoff, coin, block[k]) == block[..k]
  {
    var before := Blocks(t, w, cutoff, coin, n - 1);
    if b < |before| {
      BlockMember(t, w, cutoff, coin, n - 1, b, k);
    } else {
      LastBlockMember(t, w, cutoff, coin, n - 1, k);
    }
  }

  lemma LastBlockMember(t: Table, w: World, cutoff: int, coin: string, m: nat, k: nat)
    requires m < |t| && Keyed(t, w, cutoff, coin, m) && k <= |Open(t, w, cutoff, coin, m)|
    ensures var block := Open(t, w, cutoff, coin, m) + [m];
            Member(t, w, cutoff, coin, block[k]) &&
            Closer(t, w, cutoff, coin, block[k]) == Some(m) &&
            Open(t, w, cutoff, coin, block[k]) == block[..k]
  {
    var open := Open(t, w, cutoff, coin, m);
    if k < |open| {
      OpenPrefix(t, w, cutoff, coin, m, k);
      assert open[k] in open;
      OpenMembers(t, w, cutoff, coin, m, open[k]);
      CloserStep(t, w, cutoff, coin, open[k], m);
      assert (open + [m])[..k] == open[..k];
    } else {
      assert (open + [m])[..k] == open;
    }
  }

  /** The outcome of a run, block by block: all of a block or nothing, and the shares of an
      answered block add up to the executed amount or to the block's total, whichever is less. */
  lemma BlockOutcome(t: Table, w: World, ready: set<nat>, cutoff: int, coin: string, b: nat)
    requires b < |Blocks(t, w, cutoff, coin, |t|)|
    ensures var block, t' := Blocks(t, w, cutoff, coin, |t|)[b], Run(t, w, ready, cutoff);
            Closed(t, block) &&
            if Answered(t, w, ready, Some(block[|block| - 1])) then
              var order := w.orders[t[block[|block| - 1]].hedgeKey];
              forall k :: 0 <= k < |block| ==> t'[block[k]] == Shared(t, block, order, k)
            else
              forall k :: 0 <= k < |block| ==> t'[block[k]] == t[block[k]]
  {
    BlocksClosed(t, w, cutoff, coin, |t|, b);
    BlockRows(t, w, ready, cutoff, coin, b);
  }

  /** What a run makes of the k-th row of a closed block. */
  function RowOfBlock(t: Table, w: World, ready: set<nat>, block: seq<nat>, k: nat): Revenue
    requires k < |block| && forall j :: 0 <= j < |block| ==> block[j] < |t|
  {
    var closer := block[|block| - 1];
    if closer in ready && t[closer].hedgeKey in w.orders then Shared(t, block, w.orders[t[closer].hedgeKey], k) else t[block[k]]
  }

  lemma BlockRows(t: Table, w: World, ready: set<nat>, cutoff: int, coin: string, b: nat)
    requires b < |Blocks(t, w, cutoff, coin, |t|)|
    ensures var block := Blocks(t, w, cutoff, coin, |t|)[b];
            (forall j :: 0 <= j < |block| ==> block[j] < |t|) &&
            forall k :: 0 <= k < |block| ==> Run(t, w, ready, cutoff)[block[k]] == RowOfBlock(t, w, ready, block, k)
  {
    var block := Blocks(t, w, cutoff, coin, |t|)[b];
    forall k | 0 <= k < |block|
      ensures (forall j :: 0 <= j < |block| ==> block[j] < |t|) &&
              RowAfter(t, w, ready, cutoff, block[k]) == RowOfBlock(t, w, ready, block, k)
    {
      BlockMember(t, w, cutoff, coin, |t|, b, k);
      PlacedRow(t, w, ready, cutoff, coin, block, k);
    }
  }

  lemma PlacedRow(t: Table, w: World, ready: set<nat>, cutoff: int, coin: string, block: seq<nat>, k: nat)
    requires k < |block| && (forall j :: 0 <= j < |block| ==> block[j] < |t|) && Member(t, w, cutoff, coin, block[k])
    requires Closer(t, w, cutoff, coin, block[k]) == Some(block[|block| - 1])
    requires Open(t, w, cutoff, coin, block[k]) == block[..k]
    ensures RowAfter(t, w, ready, cutoff, block[k]) == RowOfBlock(t, w, ready, block, k)
  {
    assert Amounts(t, block)[..k] == Amounts(t, block[..k]);
  }

  /** The amounts a run wrote on a block. */
  function FilledAmounts(t: Table, block: seq<nat>): (amounts: seq<real>)
    requires forall k :: 0 <= k < |block| ==> block[k] < |t| && t[block[k]].filledAmount.Some?
  {
    seq(|block|, k requires 0 <= k < |block| => t[block[k]].filledAmount.value)
  }

  lemma StoredShares(t: Table, t': Table, block: seq<nat>, order: Order)
    requires |t'| == |t| && forall k :: 0 <= k < |block| ==> block[k] < |t|
    requires forall k :: 0 <= k < |block| ==> t'[block[k]] == Shared(t, block, order, k)
    ensures forall k :: 0 <= k < |block| ==> t'[block[k]].filledAmount == Some(Fills(Amounts(t, block), order.filledAmount)[k])
    ensures FilledAmounts(t', block) == Fills(Amounts(t, block), order.filledAmount)
  {
  }

  lemma BlockConserves(t: Table, w: World, ready: set<nat>, cutoff: int, coin: string, b: nat)
    requires b < |Blocks(t, w, cutoff, coin, |t|)| && Closed(t, Blocks(t, w, cutoff, coin, |t|)[b])
    requires var block := Blocks(t, w, cutoff, coin, |t|)[b];
             Answered(t, w, ready, Some(block[|block| - 1])) && NonNegative(Amounts(t, block)) &&
             w.orders[t[block[|block| - 1]].hedgeKey].filledAmount >= 0.0
    ensures var block, t' := Blocks(t, w, cutoff, coin, |t|)[b], Run(t, w, ready, cutoff);
            (forall k :: 0 <= k < |block| ==>
               t'[block[k]].filledAmount.Some? && 0.0 <= t'[block[k]].filledAmount.value <= t[block[k]].amount) &&
            Sum(FilledAmounts(t', block))
              == Min(w.orders[t[block[|block| - 1]].hedgeKey].filledAmount, Sum(Amounts(t, block)))
  {
    BlockOutcome(t, w, ready, cutoff, coin, b);
    var block, t' := Blocks(t, w, cutoff, coin, |t|)[b], Run(t, w, ready, cutoff);
    var amounts, executed := Amounts(t, block), w.orders[t[block[|block| - 1]].hedgeKey].filledAmount;
    var _ := GreedyAllocation(amounts, executed);
    StoredShares(t, t', block, w.orders[t[block[|block| - 1]].hedgeKey]);
  }

  /** Rows still waiting for a keyed one after the last row stay as they are. */
  lemma LeftoverUntouched(t: Table, w: World, ready: set<nat>, cutoff: int, coin: string, k: nat)
    requires k < |Open(t, w, cutoff, coin, |t|)|
    ensures var p := Open(t, w, cutoff, coin, |t|)[k]; Run(t, w, ready, cutoff)[p] == t[p]
  {
    var open := Open(t, w, cutoff, coin, |t|);
    assert open[k] in open;
    OpenMembers(t, w, cutoff, coin, |t|, open[k]);
  }

  // ----- one coin at a time -----

  /** The table of one coin's rows alone. */
  function Project(t: Table, w: World, cutoff: int, coin: string): (p: Table)
    ensures |p| == |Positions(t, w, cutoff, coin, |t|)|
  {
    var ps := Positions(t, w, cutoff, coin, |t|);
    seq(|ps|, k requires 0 <= k < |ps| => t[ps[k]])
  }

  function Count(t: Table, w: World, cutoff: int, coin: string, n: nat): nat
    requires n <= |t|
  {
    |Positions(t, w, cutoff, coin, n)|
  }

  lemma {:induction false} PositionsPrefix(t: Table, w: World, cutoff: int, coin: string, n: nat, m: nat)
    requires n <= m <= |t|
    ensures Positions(t, w, cutoff, coin, n) <= Positions(t, w, cutoff, coin, m)
  {
    if n < m {
      PositionsPrefix(t, w, cutoff, coin, n, m - 1);
    }
  }

  /** Row `k` of the projection is the row of the table at the coin's k-th position. */
  lemma ProjectedRow(t: Table, w: World, cutoff: int, coin: string, n: nat)
    requires n < |t| && Member(t, w, cutoff, coin, n)
    ensures var k := Count(t, w, cutoff, coin, n);
            k < |Project(t, w, cutoff, coin)| && Positions(t, w, cutoff, coin, |t|)[k] == n &&
            Project(t, w, cutoff, coin)[k] == t[n] &&
            Count(t, w, cutoff, coin, n + 1) == k + 1
  {
    PositionsPrefix(t, w, cutoff, coin, n + 1, |t|);
    assert Positions(t, w, cutoff, coin, n + 1)[Count(t, w, cutoff, coin, n)] == n;
  }

  lemma AllMembers(t: Table, w: World, cutoff: int, coin: string, k: nat)
    requires k < |Project(t, w, cutoff, coin)|
    ensures Member(Project(t, w, cutoff, coin), w, cutoff, coin, k)
  {
  }

  function Renumber(ps: seq<nat>, ks: seq<nat>): seq<nat>
    requires forall j :: 0 <= j < |ks| ==> ks[j] < |ps|
  {
    seq(|ks|, j requires 0 <= j < |ks| => ps[ks[j]])
  }

  /** The open rows of the coin's own table, renumbered to the whole one. */
  function ProjectedOpen(t: Table, w: World, cutoff: int, coin: string, k: nat): seq<nat>
    requires k <= |Project(t, w, cutoff, coin)|
  {
    Renumber(Positions(t, w, cutoff, coin, |t|), Open(Project(t, w, cutoff, coin), w, cutoff, coin, k))
  }

  lemma RenumberMore(ps: seq<nat>, ks: seq<nat>, k: nat)
    requires k < |ps| && forall j :: 0 <= j < |ks| ==> ks[j] < |ps|
    ensures Renumber(ps, ks + [k]) == Renumber(ps, ks) + [ps[k]]
  {
  }

  lemma ProjectedOpenStep(t: Table, w: World, cutoff: int, coin: string, n: nat)
    requires n < |t| && Member(t, w, cutoff, coin, n)
    ensures var k := Count(t, w, cutoff, coin, n);
            k < |Project(t, w, cutoff, coin)| &&
            ProjectedOpen(t, w, cutoff, coin, k + 1) ==
              if t[n].hedgeKey != "" then [] else ProjectedOpen(t, w, cutoff, coin, k) + [n]
  {
    var k := Count(t, w, cutoff, coin, n);
    ProjectedRow(t, w, cutoff, coin, n);
    AllMembers(t, w, cutoff, coin, k);
    if t[n].hedgeKey == "" {
      RenumberMore(Positions(t, w, cutoff, coin, |t|), Open(Project(t, w, cutoff, coin), w, cutoff, coin, k), k);
    }
  }

  /** The same, seen from row `n` of the table. */
  function OpenSeen(t: Table, w: World, cutoff: int, coin: string, n: nat): seq<nat>
    requires n <= |t|
  {
    PositionsPrefix(t, w, cutoff, coin, n, |t|);
    ProjectedOpen(t, w, cutoff, coin, Count(t, w, cutoff, coin, n))
  }

  lemma OpenSeenStep(t: Table, w: World, cutoff: int, coin: string, n: nat)
    requires n < |t|
    ensures OpenSeen(t, w, cutoff, coin, n + 1)
         == if !Member(t, w, cutoff, coin, n) then OpenSeen(t, w, cutoff, coin, n)
            else if t[n].hedgeKey != "" then [] else OpenSeen(t, w, cutoff, coin, n) + [n]
  {
    if Member(t, w, cutoff, coin, n) {
      ProjectedRow(t, w, cutoff, coin, n);
      ProjectedOpenStep(t, w, cutoff, coin, n);
    }
  }

  /** Whatever starts empty and follows the same steps is the open list. */
  lemma {:induction false} SameSteps(t: Table, w: World, cutoff: int, coin: string, seen: seq<seq<nat>>, n: nat)
    requires n <= |t| && |seen| == |t| + 1 && seen[0] == []
    requires forall m :: 0 <= m < |t| ==>
               seen[m + 1] == if !Member(t, w, cutoff, coin, m) then seen[m]
                              else if t[m].hedgeKey != "" then [] else seen[m] + [m]
    ensures seen[n] == Open(t, w, cutoff, coin, n)
  {
    if n > 0 {
      SameSteps(t, w, cutoff, coin, seen, n - 1);
      assert seen[n - 1 + 1] == if !Member(t, w, cutoff, coin, n - 1) then seen[n - 1]
                                else if t[n - 1].hedgeKey != "" then [] else seen[n - 1] + [n - 1];
    }
  }

  lemma OpenProjected(t: Table, w: World, cutoff: int, coin: string, n: nat)
    requires n <= |t|
    ensures Open(t, w, cutoff, coin, n) == OpenSeen(t, w, cutoff, coin, n)
  {
    var seen := seq(|t| + 1, m requires 0 <= m <= |t| => OpenSeen(t, w, cutoff, coin, m));
    assert Count(t, w, cutoff, coin, 0) == 0;
    forall m | 0 <= m < |t|
      ensures seen[m + 1] == if !Member(t, w, cutoff, coin, m) then seen[m]
                             else if t[m].hedgeKey != "" then [] else seen[m] + [m]
    {
      OpenSeenStep(t, w, cutoff, coin, m);
    }
    SameSteps(t, w, cutoff, coin, seen, n);
  }

  /** The closer of the coin's rows, renumbered to the table. */
  function ProjectedCloser(t: Table, w: World, cutoff: int, coin: string, k: nat): Option<nat>
    requires k <= |Project(t, w, cutoff, coin)|
  {
    var closer := Closer(Project(t, w, cutoff, coin), w, cutoff, coin, k);
    if closer.None? then None else Some(Positions(t, w, cutoff, coin, |t|)[closer.value])
  }

  lemma ProjectedCloserStep(t: Table, w: World, cutoff: int, coin: string, n: nat)
    requires n < |t| && Member(t, w, cutoff, coin, n)
    ensures var k := Count(t, w, cutoff, coin, n);
            k < |Project(t, w, cutoff, coin)| &&
            ProjectedCloser(t, w, cutoff, coin, k) ==
              if Keyed(t, w, cutoff, coin, n) then Some(n) else ProjectedCloser(t, w, cutoff, coin, k + 1)
  {
    ProjectedRow(t, w, cutoff, coin, n);
    AllMembers(t, w, cutoff, coin, Count(t, w, cutoff, coin, n));
  }

  /** The same, seen from row `n` of the table. */
  function CloserSeen(t: Table, w: World, cutoff: int, coin: string, n: nat): Option<nat>
    requires n <= |t|
  {
    PositionsPrefix(t, w, cutoff, coin, n, |t|);
    ProjectedCloser(t, w, cutoff, coin, Count(t, w, cutoff, coin, n))
  }

  lemma CloserSeenStep(t: Table, w: World, cutoff: int, coin: string, n: nat)
    requires n < |t|
    ensures CloserSeen(t, w, cutoff, coin, n)
         == if Keyed(t, w, cutoff, coin, n) then Some(n) else CloserSeen(t, w, cutoff, coin, n + 1)
  {
    if Member(t, w, cutoff, coin, n) {
      ProjectedRow(t, w, cutoff, coin, n);
      ProjectedCloserStep(t, w, cutoff, coin, n);
    }
  }

  lemma {:induction false} CloserProjected(t: Table, w: World, cutoff: int, coin: string, n: nat)
    requires n <= |t|
    ensures Closer(t, w, cutoff, coin, n) == CloserSeen(t, w, cutoff, coin, n)
    decreases |t| - n
  {
    if n < |t| {
      CloserProjected(t, w, cutoff, coin, n + 1);
      Unfolds(t, w, cutoff, coin, n);
      CloserSeenStep(t, w, cutoff, coin, n);
    } else {
      NoCloserAtEnd(t, w, cutoff, coin);
    }
  }

  lemma NoCloserAtEnd(t: Table, w: World, cutoff: int, coin: string)
    ensures Closer(t, w, cutoff, coin, |t|).None?
    ensures ProjectedCloser(t, w, cutoff, coin, |Project(t, w, cutoff, coin)|).None?
  {
  }

  /** A coin's outcome does not depend on how other coins' rows are interleaved with its own:
      settling the whole table and settling the coin's rows alone agree row by row. */
  lemma CoinsIndependent(t: Table, w: World, ready: set<nat>, own: set<nat>, cutoff: int, coin: string, k: nat)
    requires k < |Project(t, w, cutoff, coin)|
    requires forall j :: 0 <= j < |Project(t, w, cutoff, coin)| ==>
               (j in own <==> Positions(t, w, cutoff, coin, |t|)[j] in ready)
    ensures Run(t, w, ready, cutoff)[Positions(t, w, cutoff, coin, |t|)[k]]
         == Run(Project(t, w, cutoff, coin), w, own, cutoff)[k]
  {
    var ps, p := Positions(t, w, cutoff, coin, |t|), Project(t, w, cutoff, coin);
    var n := ps[k];
    RankOfPosition(t, w, cutoff, coin, |t|, k);
    AllMembers(t, w, cutoff, coin, k);
    OpenProjected(t, w, cutoff, coin, n);
    CloserProjected(t, w, cutoff, coin, n);
    var ks := Open(p, w, cutoff, coin, k);
    assert Amounts(t, Renumber(ps, ks)) == Amounts(p, ks);
  }

  lemma {:induction false} RankOfPosition(t: Table, w: World, cutoff: int, coin: string, n: nat, k: nat)
    requires n <= |t| && k < |Positions(t, w, cutoff, coin, n)|
    ensures Count(t, w, cutoff, coin, Positions(t, w, cutoff, coin, n)[k]) == k
  {
    if k < Count(t, w, cutoff, coin, n - 1) {
      RankOfPosition(t, w, cutoff, coin, n - 1, k);
    }
  }
}
