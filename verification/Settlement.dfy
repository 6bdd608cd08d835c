/** `fill_revenue_filled_prices` (accounting/tasks/revenue.py) over a table of revenues.

    A position in the table stands for the row's id: the settlement job walks ids in order. */
module Settlement {
  import opened Options
  import opened Allocation

  datatype Side = Buy | Sell

  datatype Source = OtcMarket | OtcProvider | Taker | Maker | User | Manual

  datatype Symbol = Symbol(name: string, coin: string, enabled: bool)

  datatype Revenue = Revenue(
    created: int, symbol: Symbol, side: Side, source: Source, hedgeKey: string,
    amount: real, coinPrice: real,
    coinFilledPrice: Option<real>, filledAmount: Option<real>, gapRevenue: Option<real>)

  datatype Order = Order(filledAmount: real, filledPrice: real)

  datatype Fill = Fill(coinFilledPrice: real, filledAmount: real, gapRevenue: real)

  /** Everything outside the table: one configuration switch, the answer that each provider
      order has or will have, and the one that each `mm-`, `tr-` and OTC-market row has or will have. */
  datatype World = World(hedgeIrtByInternalMarket: bool, orders: map<string, Order>, quotes: map<nat, Fill>)

  type Table = seq<Revenue>

  const USDT_IRT := "USDTIRT"

  predicate StartsWith(s: string, prefix: string) {
    prefix <= s
  }

  /** `TradeRevenue.get_gap_revenue` for a given filled price. */
  function GapRevenue(r: Revenue, filledPrice: real): real {
    Gap(r.side, r.amount, r.coinPrice, filledPrice)
  }

  function Gap(side: Side, amount: real, coinPrice: real, filledPrice: real): real {
    var gap := amount * (coinPrice - filledPrice);
    if side == Sell then -gap else gap
  }

  /** `TradeRevenue.new`: a revenue without a hedge key is settled at its own price at once. */
  function NewRevenue(created: int, symbol: Symbol, side: Side, source: Source, hedgeKey: string,
                      amount: real, coinPrice: real): Revenue {
    var r := Revenue(created, symbol, side, source, hedgeKey, amount, coinPrice, None, None, None);
    if hedgeKey == "" then r.(coinFilledPrice := Some(coinPrice), filledAmount := Some(amount), gapRevenue := Some(0.0))
    else r
  }

  /** The gap is what the hedge earned: for a sale to the user the agreed value less the hedging
      cost, for a purchase from the user the hedging proceeds less the agreed value. */
  lemma GapBalances(r: Revenue, filledPrice: real)
    ensures r.side == Buy ==> r.amount * filledPrice + GapRevenue(r, filledPrice) == r.amount * r.coinPrice
    ensures r.side == Sell ==> r.amount * r.coinPrice + GapRevenue(r, filledPrice) == r.amount * filledPrice
  {
    assert r.amount * (r.coinPrice - filledPrice) == r.amount * r.coinPrice - r.amount * filledPrice;
  }

  datatype Route = UserTrade | MarketTrade | UsdtIrt | Disabled | Requester | Delegated(closes: bool)

  /** Which branch of the settlement job takes the row. Only `Delegated` rows meet the shared blocks. */
  function RouteOf(r: Revenue, w: World): Route {
    if r.source == User then UserTrade
    else if r.source == OtcMarket then MarketTrade
    else if !w.hedgeIrtByInternalMarket && r.symbol.name == USDT_IRT then UsdtIrt
    else if !r.symbol.enabled then Disabled
    else if StartsWith(r.hedgeKey, "mm-") || StartsWith(r.hedgeKey, "tr-") then Requester
    else Delegated(r.hedgeKey != "")
  }

  /** A row that a run with this cutoff loads: not settled and recent enough. */
  predicate Active(t: Table, cutoff: int, i: nat)
    requires i < |t|
  {
    t[i].gapRevenue.None? && t[i].created >= cutoff
  }

  predicate Member(t: Table, w: World, cutoff: int, coin: string, i: nat)
    requires i < |t|
  {
    Active(t, cutoff, i) && RouteOf(t[i], w).Delegated? && t[i].symbol.coin == coin
  }

  predicate Keyed(t: Table, w: World, cutoff: int, coin: string, i: nat)
    requires i < |t|
  {
    Member(t, w, cutoff, coin, i) && t[i].hedgeKey != ""
  }

  /** The rows of `coin` that wait for a keyed one after the first `n` rows. */
  function Open(t: Table, w: World, cutoff: int, coin: string, n: nat): (open: seq<nat>)
    requires n <= |t|
    ensures forall k :: 0 <= k < |open| ==> open[k] < n
  {
    if n == 0 then []
    else if !Member(t, w, cutoff, coin, n - 1) then Open(t, w, cutoff, coin, n - 1)
    else if t[n - 1].hedgeKey != "" then []
    else Open(t, w, cutoff, coin, n - 1) + [n - 1]
  }

  /** The first keyed row of `coin` from `n` on: the one that closes the block a row at `n` stands in. */
  function Closer(t: Table, w: World, cutoff: int, coin: string, n: nat): (closer: Option<nat>)
    requires n <= |t|
    ensures closer.Some? ==> n <= closer.value < |t| && Keyed(t, w, cutoff, coin, closer.value)
    decreases |t| - n
  {
    if n == |t| then None
    else if Keyed(t, w, cutoff, coin, n) then Some(n)
    else Closer(t, w, cutoff, coin, n + 1)
  }

  function Amounts(t: Table, positions: seq<nat>): (amounts: seq<real>)
    requires forall k :: 0 <= k < |positions| ==> positions[k] < |t|
    ensures |amounts| == |positions|
  {
    seq(|positions|, k requires 0 <= k < |positions| => t[positions[k]].amount)
  }

  function Share(r: Revenue, price: real, share: real): Revenue {
    r.(coinFilledPrice := Some(price), filledAmount := Some(share), gapRevenue := Some(GapRevenue(r, price)))
  }

  /** The closing row was reached in this run and its order had an answer. */
  predicate Answered(t: Table, w: World, ready: set<nat>, closer: Option<nat>)
    requires closer.Some? ==> closer.value < |t|
  {
    closer.Some? && closer.value in ready && t[closer.value].hedgeKey in w.orders
  }

  /** What a row outside the blocks becomes when its branch completes. */
  function Direct(r: Revenue, w: World, i: nat): Revenue {
    match RouteOf(r, w)
    case UserTrade => r.(coinFilledPrice := Some(r.coinPrice), filledAmount := Some(r.amount), gapRevenue := Some(0.0))
    case UsdtIrt => Share(r, 1.0, r.amount)
    case Disabled => r.(gapRevenue := Some(0.0))
    case MarketTrade => if i in w.quotes then Quoted(r, w.quotes[i]) else r
    case Requester => if i in w.quotes then Quoted(r, w.quotes[i]) else r
    case Delegated(_) => r
  }

  function Quoted(r: Revenue, f: Fill): Revenue {
    r.(coinFilledPrice := Some(f.coinFilledPrice), filledAmount := Some(f.filledAmount), gapRevenue := Some(f.gapRevenue))
  }

  /** One run, row by row: a row in a block is filled exactly when its block's closing row was
      answered, with what the rows of the block before it left of the executed amount. */
  function RowAfter(t: Table, w: World, ready: set<nat>, cutoff: int, i: nat): Revenue
    requires i < |t|
  {
    if !Active(t, cutoff, i) then t[i]
    else if RouteOf(t[i], w).Delegated? then
      var coin := t[i].symbol.coin;
      var closer := Closer(t, w, cutoff, coin, i);
      if Answered(t, w, ready, closer) then
        var order := w.orders[t[closer.value].hedgeKey];
        var left := Left(Amounts(t, Open(t, w, cutoff, coin, i)), order.filledAmount);
        Share(t[i], order.filledPrice, Min(t[i].amount, left))
      else t[i]
    else if i in ready then Direct(t[i], w, i)
    else t[i]
  }

  function Run(t: Table, w: World, ready: set<nat>, cutoff: int): (t': Table)
    ensures |t'| == |t|
  {
    seq(|t|, i requires 0 <= i < |t| => RowAfter(t, w, ready, cutoff, i))
  }

  /** A new revenue is pending exactly when it has a hedge key; without one it stands as if its
      whole amount had been hedged at its own price. */
  lemma NewRevenueStanding(created: int, symbol: Symbol, side: Side, source: Source, hedgeKey: string,
                           amount: real, coinPrice: real, t: Table, cutoff: int)
    requires created >= cutoff
    ensures var r := NewRevenue(created, symbol, side, source, hedgeKey, amount, coinPrice);
            (Active(t + [r], cutoff, |t|) <==> hedgeKey != "") &&
            (hedgeKey != "" ==> r.coinFilledPrice == None && r.filledAmount == None) &&
            (hedgeKey == "" ==> r.coinFilledPrice == Some(coinPrice) && r.filledAmount == Some(amount) &&
                                r.gapRevenue == Some(GapRevenue(r, coinPrice)) == Some(0.0))
  {
    ZeroGap(side, amount, coinPrice);
  }

  lemma ZeroGap(side: Side, amount: real, price: real)
    ensures Gap(side, amount, price, price) == 0.0
  {
    assert price - price == 0.0;
    assert amount * 0.0 == 0.0;
  }

  // ----- positions within a block -----

  lemma Unfolds(t: Table, w: World, cutoff: int, coin: string, n: nat)
    requires n < |t|
    ensures Open(t, w, cutoff, coin, n + 1)
         == if !Member(t, w, cutoff, coin, n) then Open(t, w, cutoff, coin, n)
            else if t[n].hedgeKey != "" then [] else Open(t, w, cutoff, coin, n) + [n]
    ensures Closer(t, w, cutoff, coin, n) == if Keyed(t, w, cutoff, coin, n) then Some(n) else Closer(t, w, cutoff, coin, n + 1)
  {
  }

  lemma {:induction false} OpenMembers(t: Table, w: World, cutoff: int, coin: string, n: nat, k: nat)
    requires n <= |t| && k < n
    ensures k in Open(t, w, cutoff, coin, n) <==>
              Member(t, w, cutoff, coin, k) &&
              (Closer(t, w, cutoff, coin, k).None? || Closer(t, w, cutoff, coin, k).value >= n)
  {
    if n - 1 == k {
      assert k !in Open(t, w, cutoff, coin, n - 1);
    } else {
      OpenMembers(t, w, cutoff, coin, n - 1, k);
      var closer := Closer(t, w, cutoff, coin, k);
      if closer.None? || closer.value >= n - 1 {
        CloserStep(t, w, cutoff, coin, k, n - 1);
      }
    }
  }

  /** A keyed row at `m` is the closer of everything open before it. */
  lemma {:induction false} CloserStep(t: Table, w: World, cutoff: int, coin: string, k: nat, m: nat)
    requires k <= m < |t|
    requires Closer(t, w, cutoff, coin, k).None? || Closer(t, w, cutoff, coin, k).value >= m
    ensures Closer(t, w, cutoff, coin, k) == Closer(t, w, cutoff, coin, m)
    ensures Keyed(t, w, cutoff, coin, m) <==> Closer(t, w, cutoff, coin, k) == Some(m)
    decreases m - k
  {
    if k < m {
      CloserStep(t, w, cutoff, coin, k + 1, m);
    }
  }

  /** The open list in front of a row is the part of any later open list that precedes it. */
  lemma {:induction false} OpenPrefix(t: Table, w: World, cutoff: int, coin: string, n: nat, p: nat)
    requires n <= |t| && p < |Open(t, w, cutoff, coin, n)|
    ensures var open := Open(t, w, cutoff, coin, n);
            open[..p] == Open(t, w, cutoff, coin, open[p])
  {
    var open := Open(t, w, cutoff, coin, n);
    var before := Open(t, w, cutoff, coin, n - 1);
    if !Member(t, w, cutoff, coin, n - 1) {
      OpenPrefix(t, w, cutoff, coin, n - 1, p);
    } else if p < |before| {
      OpenPrefix(t, w, cutoff, coin, n - 1, p);
      assert open[..p] == before[..p];
    } else {
      assert open[..p] == before;
    }
  }

  ghost predicate Increasing(s: seq<nat>) {
    forall p, q :: 0 <= p < q < |s| ==> s[p] < s[q]
  }

  lemma {:induction false} OpenIncreasing(t: Table, w: World, cutoff: int, coin: string, n: nat)
    requires n <= |t|
    ensures Increasing(Open(t, w, cutoff, coin, n) + [n])
  {
    var open := Open(t, w, cutoff, coin, n);
    if n > 0 {
      OpenIncreasing(t, w, cutoff, coin, n - 1);
      var before := Open(t, w, cutoff, coin, n - 1) + [n - 1];
      assert forall p, q :: 0 <= p < q < |open| ==> open[p] == before[p] && open[q] == before[q];
    }
  }

  // ----- one step of the settlement loop -----

  /** Reaching a row that closes no block and is no direct one changes nothing. */
  lemma StepIdle(t: Table, w: World, ready: set<nat>, cutoff: int, i: nat)
    requires i < |t|
    requires !Active(t, cutoff, i) ||
             (RouteOf(t[i], w).Delegated? && (t[i].hedgeKey == "" || t[i].hedgeKey !in w.orders))
    ensures Run(t, w, ready + {i}, cutoff) == Run(t, w, ready, cutoff)
  {
  }

  lemma StepDirect(t: Table, w: World, ready: set<nat>, cutoff: int, i: nat)
    requires i < |t| && i !in ready
    requires Active(t, cutoff, i) && !RouteOf(t[i], w).Delegated?
    ensures Run(t, w, ready, cutoff)[i] == t[i]
    ensures Run(t, w, ready + {i}, cutoff) == Run(t, w, ready, cutoff)[i := Direct(t[i], w, i)]
  {
  }

  /** Reaching a keyed row with an answer fills its whole block, greedily, and nothing else. */
  lemma StepClose(t: Table, w: World, ready: set<nat>, cutoff: int, coin: string, i: nat, k: nat)
    requires i < |t| && i !in ready && k < |t|
    requires Keyed(t, w, cutoff, coin, i) && t[i].hedgeKey in w.orders
    ensures var block := Open(t, w, cutoff, coin, i) + [i];
            var order := w.orders[t[i].hedgeKey];
            (k !in block ==> RowAfter(t, w, ready + {i}, cutoff, k) == RowAfter(t, w, ready, cutoff, k)) &&
            (k in block ==> RowAfter(t, w, ready, cutoff, k) == t[k] && Member(t, w, cutoff, coin, k) &&
                            RowAfter(t, w, ready + {i}, cutoff, k) ==
                              Share(t[k], order.filledPrice,
                                    Min(t[k].amount, Left(Amounts(t, Open(t, w, cutoff, coin, k)), order.filledAmount))))
  {
    var block := Open(t, w, cutoff, coin, i) + [i];
    if k < i {
      OpenMembers(t, w, cutoff, coin, i, k);
      if Member(t, w, cutoff, coin, k) {
        var closer := Closer(t, w, cutoff, coin, k);
        if k in block {
          CloserStep(t, w, cutoff, coin, k, i);
        }
      }
    }
  }
}
