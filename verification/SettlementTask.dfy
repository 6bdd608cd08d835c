/** `fill_revenue_filled_prices` as code: loaded revenue objects, the mutable map of open blocks,
    and the table that the objects are saved to. */
module SettlementTask {
  import opened Options
  import opened Allocation
  import opened Settlement

  predicate Immediate(r: Revenue, w: World) {
    RouteOf(r, w) in {UserTrade, UsdtIrt, Disabled}
  }

  /** The rows that a run stopped after `n` rows has completed: local branches always do,
      the ones that ask somebody only when the answer came. */
  function Reached(t: Table, w: World, answered: set<nat>, n: nat): set<nat> {
    set i | 0 <= i < n && i < |t| && (Immediate(t[i], w) || i in answered)
  }

  lemma ReachedStep(t: Table, w: World, answered: set<nat>, i: nat)
    requires i < |t|
    ensures var before := Reached(t, w, answered, i);
            i !in before && Reached(t, w, answered, i + 1) ==
              if Immediate(t[i], w) || i in answered then before + {i} else before
  {
  }

  lemma RunOfNothing(t: Table, w: World, answered: set<nat>, cutoff: int)
    ensures Run(t, w, Reached(t, w, answered, 0), cutoff) == t
  {
    assert Reached(t, w, answered, 0) == {};
  }

  /** Row `k` of a block after the order was shared out over the block. */
  function Shared(t: Table, block: seq<nat>, order: Order, k: nat): Revenue
    requires forall k :: 0 <= k < |block| ==> block[k] < |t|
    requires k < |block|
  {
    Share(t[block[k]], order.filledPrice, Fills(Amounts(t, block), order.filledAmount)[k])
  }

  /** A loaded `TradeRevenue`. Only the three columns that settlement fills in ever change. */
  class TradeRevenue {
    const id: nat
    const data: Revenue
    var coinFilledPrice: Option<real>
    var filledAmount: Option<real>
    var gapRevenue: Option<real>

    constructor (id: nat, row: Revenue)
      ensures this.id == id && data == row && Row() == row
    {
      this.id, data := id, row;
      coinFilledPrice, filledAmount, gapRevenue := row.coinFilledPrice, row.filledAmount, row.gapRevenue;
    }

    function Row(): Revenue
      reads this
    {
      data.(coinFilledPrice := coinFilledPrice, filledAmount := filledAmount, gapRevenue := gapRevenue)
    }

    function GetGapRevenue(): real
      requires coinFilledPrice.Some?
      reads this
    {
      Gap(data.side, data.amount, data.coinPrice, coinFilledPrice.value)
    }

    /** The branches of one row by itself. */
    method SettleDirectly(w: World)
      requires !RouteOf(data, w).Delegated? && Row() == data
      modifies this
      ensures Row() == Direct(data, w, id)
    {
      var route := RouteOf(data, w);
      if route == UserTrade {
        coinFilledPrice := Some(data.coinPrice);
        filledAmount := Some(data.amount);
        gapRevenue := Some(0.0);
      } else if route == UsdtIrt {
        coinFilledPrice := Some(1.0);
        filledAmount := Some(data.amount);
        gapRevenue := Some(GetGapRevenue());
      } else if route == Disabled {
        gapRevenue := Some(0.0);
      } else if id in w.quotes {
        var info := w.quotes[id];
        gapRevenue := Some(info.gapRevenue);
        filledAmount := Some(info.filledAmount);
        coinFilledPrice := Some(info.coinFilledPrice);
      }
    }
  }

  ghost predicate Distinct(revenues: seq<TradeRevenue>) {
    forall j, k :: 0 <= j < k < |revenues| ==> revenues[j] != revenues[k]
  }

  function AmountsOf(revenues: seq<TradeRevenue>): (amounts: seq<real>)
    ensures |amounts| == |revenues|
  {
    seq(|revenues|, k requires 0 <= k < |revenues| => revenues[k].data.amount)
  }

  /** The allocation loop over the revenues of one closed block. */
  method ShareOrder(revenues: seq<TradeRevenue>, order: Order)
    requires Distinct(revenues)
    modifies revenues
    ensures forall k :: 0 <= k < |revenues| ==>
              revenues[k].Row() == Share(old(revenues[k].Row()), order.filledPrice,
                                         Fills(AmountsOf(revenues), order.filledAmount)[k])
  {
    ghost var amounts := AmountsOf(revenues);
    var executedAmount := order.filledAmount;
    for k := 0 to |revenues|
      invariant executedAmount == Left(amounts[..k], order.filledAmount)
      invariant forall j :: 0 <= j < k ==>
                  revenues[j].Row() == Share(old(revenues[j].Row()), order.filledPrice, Fills(amounts, order.filledAmount)[j])
      invariant forall j :: k <= j < |revenues| ==> revenues[j].Row() == old(revenues[j].Row())
    {
      var r := revenues[k];
      r.coinFilledPrice := Some(order.filledPrice);
      r.filledAmount := Some(Min(r.data.amount, executedAmount));
      r.gapRevenue := Some(r.GetGapRevenue());
      executedAmount := executedAmount - r.filledAmount.value;
      assert amounts[..k + 1][..k] == amounts[..k];
      assert r.Row() == Share(old(revenues[k].Row()), order.filledPrice, Fills(amounts, order.filledAmount)[k]);
    }
  }

  /** Writing the three columns of a row. */
  function Written(row: Revenue, r: Revenue): Revenue {
    row.(coinFilledPrice := r.coinFilledPrice, filledAmount := r.filledAmount, gapRevenue := r.gapRevenue)
  }

  /** `loaded` are the rows of the table as objects, in order. */
  ghost predicate Loaded(loaded: seq<TradeRevenue>, t: Table) {
    |loaded| == |t| && forall k :: 0 <= k < |t| ==> loaded[k].id == k && loaded[k].data == t[k]
  }

  /** The objects agree with the table. */
  ghost predicate InSync(loaded: seq<TradeRevenue>, rows: Table)
    reads loaded
  {
    |loaded| == |rows| && forall k :: 0 <= k < |rows| ==> loaded[k].Row() == rows[k]
  }

  function Pick(loaded: seq<TradeRevenue>, positions: seq<nat>): (picked: seq<TradeRevenue>)
    requires forall k :: 0 <= k < |positions| ==> positions[k] < |loaded|
    ensures |picked| == |positions|
  {
    seq(|positions|, k requires 0 <= k < |positions| => loaded[positions[k]])
  }

  class RevenueTable {
    var rows: Table

    constructor (rows: Table)
      ensures this.rows == rows
    {
      this.rows := rows;
    }

    /** `bulk_update` of a block: one statement, so all of the block or none of it. */
    method BulkUpdate(revenues: seq<TradeRevenue>)
      requires forall k :: 0 <= k < |revenues| ==> revenues[k].id < |rows|
      requires forall j, k :: 0 <= j < k < |revenues| ==> revenues[j].id < revenues[k].id
      modifies this
      ensures |rows| == |old(rows)|
      ensures forall k :: 0 <= k < |revenues| ==> rows[revenues[k].id] == Written(old(rows)[revenues[k].id], revenues[k].Row())
      ensures forall p :: 0 <= p < |rows| && (forall k :: 0 <= k < |revenues| ==> revenues[k].id != p) ==> rows[p] == old(rows)[p]
    {
      for n := 0 to |revenues|
        invariant |rows| == |old(rows)|
        invariant forall k :: 0 <= k < n ==> rows[revenues[k].id] == Written(old(rows)[revenues[k].id], revenues[k].Row())
        invariant forall k :: n <= k < |revenues| ==> rows[revenues[k].id] == old(rows)[revenues[k].id]
        invariant forall p :: 0 <= p < |rows| && (forall k :: 0 <= k < |revenues| ==> revenues[k].id != p) ==> rows[p] == old(rows)[p]
      {
        var r := revenues[n];
        rows := rows[r.id := Written(rows[r.id], r.Row())];
      }
    }

    /** The query of the run: every row as a new object. */
    method Load() returns (loaded: seq<TradeRevenue>)
      ensures Loaded(loaded, rows) && InSync(loaded, rows) && fresh(loaded)
    {
      loaded := [];
      for i := 0 to |rows|
        invariant |loaded| == i && fresh(loaded)
        invariant forall k :: 0 <= k < i ==> loaded[k].id == k && loaded[k].data == rows[k] && loaded[k].Row() == rows[k]
      {
        var r := new TradeRevenue(i, rows[i]);
        loaded := loaded + [r];
      }
    }

    /** Share an order over a block that stands as it was loaded, and save the block. */
    method SaveShares(loaded: seq<TradeRevenue>, revenues: seq<TradeRevenue>, order: Order, ghost t: Table, ghost block: seq<nat>)
      requires Loaded(loaded, t) && InSync(loaded, rows) && Increasing(block)
      requires forall k :: 0 <= k < |block| ==> block[k] < |t| && rows[block[k]] == t[block[k]]
      requires revenues == Pick(loaded, block)
      modifies this, loaded
      ensures InSync(loaded, rows)
      ensures forall k :: 0 <= k < |block| ==> rows[block[k]] == Shared(t, block, order, k)
      ensures forall p :: 0 <= p < |rows| && (forall k :: 0 <= k < |block| ==> block[k] != p) ==> rows[p] == old(rows)[p]
    {
      assert AmountsOf(revenues) == Amounts(t, block);
      forall k | 0 <= k < |block| ensures revenues[k].Row() == t[block[k]] && revenues[k].id == block[k] {
        assert revenues[k] == loaded[block[k]];
      }
      ShareOrder(revenues, order);
      BulkUpdate(revenues);
      forall p | 0 <= p < |rows| ensures loaded[p].Row() == rows[p] {
        if k :| 0 <= k < |block| && block[k] == p {
          assert revenues[k] == loaded[p];
        } else {
          assert forall k :: 0 <= k < |block| ==> revenues[k].id == block[k] != p;
          assert loaded[p] !in revenues;
        }
      }
    }

    /** The answered branch for the keyed row `i`: share the order over its block, save the block. */
    method SettleBlock(loaded: seq<TradeRevenue>, revenues: seq<TradeRevenue>, order: Order,
                       ghost t: Table, ghost w: World, ghost ready: set<nat>, ghost cutoff: int, ghost coin: string, ghost i: nat)
      requires Loaded(loaded, t) && InSync(loaded, rows)
      requires i < |t| && i !in ready && Keyed(t, w, cutoff, coin, i)
      requires t[i].hedgeKey in w.orders && order == w.orders[t[i].hedgeKey]
      requires revenues == Pick(loaded, Open(t, w, cutoff, coin, i) + [i])
      requires rows == Run(t, w, ready, cutoff)
      modifies this, loaded
      ensures rows == Run(t, w, ready + {i}, cutoff) && InSync(loaded, rows)
    {
      ghost var block := Open(t, w, cutoff, coin, i) + [i];
      OpenIncreasing(t, w, cutoff, coin, i);
      BlockUntouched(t, w, ready, cutoff, coin, i);
      SaveShares(loaded, revenues, order, t, block);
      SavedBlock(t, w, ready, cutoff, coin, i, block, old(rows), rows);
    }

    /** One run over the rows that are pending now. `answered` says which outside requests
        got their answer this time, `stop` after how many rows the run ended or broke off. */
    method FillRevenueFilledPrices(w: World, answered: set<nat>, cutoff: int, stop: nat, debug: bool)
      modifies this
      ensures debug ==> rows == old(rows)
      ensures !debug ==> rows == Run(old(rows), w, Reached(old(rows), w, answered, stop), cutoff)
    {
      if debug {
        return;
      }
      ghost var t := rows;
      var loaded := Load();
      var limit := if stop <= |loaded| then stop else |loaded|;
      var delegatedHedges: map<string, seq<TradeRevenue>> := map[];
      RunOfNothing(t, w, answered, cutoff);
      for i := 0 to limit
        invariant t == old(rows) && fresh(loaded) && Loaded(loaded, t) && InSync(loaded, rows)
        invariant rows == Run(t, w, Reached(t, w, answered, i), cutoff)
        invariant forall coin :: Lookup(delegatedHedges, coin) == Pick(loaded, Open(t, w, cutoff, coin, i))
      {
        delegatedHedges := Visit(loaded, i, delegatedHedges, w, answered, cutoff, t);
      }
      assert Reached(t, w, answered, limit) == Reached(t, w, answered, stop);
    }

    /** The loop body for row `i`; the result is the map of open blocks after it. */
    method Visit(loaded: seq<TradeRevenue>, i: nat, delegatedHedges: map<string, seq<TradeRevenue>>,
                 w: World, answered: set<nat>, cutoff: int, ghost t: Table) returns (hedges: map<string, seq<TradeRevenue>>)
      requires Loaded(loaded, t) && InSync(loaded, rows) && i < |loaded|
      requires rows == Run(t, w, Reached(t, w, answered, i), cutoff)
      requires forall coin :: Lookup(delegatedHedges, coin) == Pick(loaded, Open(t, w, cutoff, coin, i))
      modifies this, loaded
      ensures InSync(loaded, rows)
      ensures rows == Run(t, w, Reached(t, w, answered, i + 1), cutoff)
      ensures forall coin :: Lookup(hedges, coin) == Pick(loaded, Open(t, w, cutoff, coin, i + 1))
    {
      hedges := delegatedHedges;
      ghost var ready := Reached(t, w, answered, i);
      ReachedStep(t, w, answered, i);
      var revenue := loaded[i];
      if !(revenue.data.gapRevenue.None? && revenue.data.created >= cutoff) {
        StepIdle(t, w, ready, cutoff, i);
        return;
      }
      if !RouteOf(revenue.data, w).Delegated? {
        StepDirect(t, w, ready, cutoff, i);
        if Immediate(revenue.data, w) || i in answered {
          SaveDirectly(loaded, revenue, w);
        }
        return;
      }
      var coin := revenue.data.symbol.coin;
      var revenues := Lookup(hedges, coin) + [revenue];
      assert revenues == Pick(loaded, Open(t, w, cutoff, coin, i) + [i]);
      if revenue.data.hedgeKey != "" {
        hedges := hedges[coin := []];
        if i in answered && revenue.data.hedgeKey in w.orders {
          SettleBlock(loaded, revenues, w.orders[revenue.data.hedgeKey], t, w, ready, cutoff, coin, i);
        } else if i in answered {
          StepIdle(t, w, ready, cutoff, i);
        }
      } else {
        hedges := hedges[coin := revenues];
        StepIdle(t, w, ready, cutoff, i);
      }
    }

    /** Settle one row by itself and save it. */
    method SaveDirectly(loaded: seq<TradeRevenue>, revenue: TradeRevenue, w: World)
      requires InSync(loaded, rows) && revenue.id < |rows| && loaded[revenue.id] == revenue
      requires forall k :: 0 <= k < |loaded| ==> loaded[k].id == k
      requires !RouteOf(revenue.data, w).Delegated? && revenue.Row() == revenue.data
      modifies this, revenue
      ensures rows == old(rows)[revenue.id := Direct(revenue.data, w, revenue.id)] && InSync(loaded, rows)
    {
      revenue.SettleDirectly(w);
      rows := rows[revenue.id := Written(rows[revenue.id], revenue.Row())];
    }
  }

  function Lookup(m: map<string, seq<TradeRevenue>>, coin: string): seq<TradeRevenue> {
    if coin in m then m[coin] else []
  }

  /** Until its closing row is answered a block stands as it was loaded. */
  lemma BlockUntouched(t: Table, w: World, ready: set<nat>, cutoff: int, coin: string, i: nat)
    requires i < |t| && i !in ready
    requires Keyed(t, w, cutoff, coin, i) && t[i].hedgeKey in w.orders
    ensures var block := Open(t, w, cutoff, coin, i) + [i];
            forall k :: 0 <= k < |block| ==> block[k] < |t| && Run(t, w, ready, cutoff)[block[k]] == t[block[k]]
  {
    var block := Open(t, w, cutoff, coin, i) + [i];
    forall k | 0 <= k < |block| ensures block[k] < |t| && Run(t, w, ready, cutoff)[block[k]] == t[block[k]] {
      assert block[k] in block;
      StepClose(t, w, ready, cutoff, coin, i, block[k]);
    }
  }

  /** A block saved with its shares is one more step of the run. */
  lemma SavedBlock(t: Table, w: World, ready: set<nat>, cutoff: int, coin: string, i: nat, block: seq<nat>,
                   before: Table, after: Table)
    requires i < |t| && i !in ready && |after| == |t|
    requires Keyed(t, w, cutoff, coin, i) && t[i].hedgeKey in w.orders
    requires block == Open(t, w, cutoff, coin, i) + [i] && before == Run(t, w, ready, cutoff)
    requires forall k :: 0 <= k < |block| ==> after[block[k]] == Shared(t, block, w.orders[t[i].hedgeKey], k)
    requires forall p :: 0 <= p < |after| && (forall k :: 0 <= k < |block| ==> block[k] != p) ==> after[p] == before[p]
    ensures after == Run(t, w, ready + {i}, cutoff)
  {
    forall p | 0 <= p < |t| ensures after[p] == RowAfter(t, w, ready + {i}, cutoff, p) {
      if k :| 0 <= k < |block| && block[k] == p {
        BlockRow(t, w, ready, cutoff, coin, i, k);
      } else {
        OutsideBlock(t, w, ready, cutoff, coin, i, p);
      }
    }
  }

  lemma OutsideBlock(t: Table, w: World, ready: set<nat>, cutoff: int, coin: string, i: nat, p: nat)
    requires i < |t| && i !in ready && p < |t|
    requires Keyed(t, w, cutoff, coin, i) && t[i].hedgeKey in w.orders
    requires var block := Open(t, w, cutoff, coin, i) + [i]; forall k :: 0 <= k < |block| ==> block[k] != p
    ensures RowAfter(t, w, ready + {i}, cutoff, p) == Run(t, w, ready, cutoff)[p]
  {
    StepClose(t, w, ready, cutoff, coin, i, p);
  }

  lemma BlockRow(t: Table, w: World, ready: set<nat>, cutoff: int, coin: string, i: nat, k: nat)
    requires i < |t| && i !in ready
    requires Keyed(t, w, cutoff, coin, i) && t[i].hedgeKey in w.orders
    requires k <= |Open(t, w, cutoff, coin, i)|
    ensures var block := Open(t, w, cutoff, coin, i) + [i];
            RowAfter(t, w, ready + {i}, cutoff, block[k]) == Shared(t, block, w.orders[t[i].hedgeKey], k)
  {
    var block := Open(t, w, cutoff, coin, i) + [i];
    BlockPrefix(t, w, cutoff, coin, i, k);
    assert block[k] in block;
    StepClose(t, w, ready, cutoff, coin, i, block[k]);
    PrefixAmounts(t, block, k);
  }

  lemma BlockPrefix(t: Table, w: World, cutoff: int, coin: string, i: nat, k: nat)
    requires i < |t| && k <= |Open(t, w, cutoff, coin, i)|
    ensures var block := Open(t, w, cutoff, coin, i) + [i]; block[..k] == Open(t, w, cutoff, coin, block[k])
  {
    var open := Open(t, w, cutoff, coin, i);
    if k < |open| {
      OpenPrefix(t, w, cutoff, coin, i, k);
      assert (open + [i])[..k] == open[..k];
    }
  }

  lemma PrefixAmounts(t: Table, block: seq<nat>, k: nat)
    requires k <= |block| && forall j :: 0 <= j < |block| ==> block[j] < |t|
    ensures Amounts(t, block)[..k] == Amounts(t, block[..k])
  {
  }
}
