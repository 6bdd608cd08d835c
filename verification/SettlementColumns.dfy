/** What settlement stores, column by column and in the job's own conditions. */
module SettlementColumns {
  import opened Options
  import opened Allocation
  import opened Settlement
  import opened SettlementTask
  import opened SettlementBlocks

  /** Nothing but the three settlement columns differs. */
  predicate OnlyFilled(r: Revenue, r': Revenue) {
    r'.created == r.created && r'.symbol == r.symbol && r'.side == r.side && r'.source == r.source &&
    r'.hedgeKey == r.hedgeKey && r'.amount == r.amount && r'.coinPrice == r.coinPrice
  }

  /** The stored price and gap explain the agreed value: what a buyer agreed to pay is the hedging cost
      plus the gap, what a seller was promised is the hedging proceeds less the gap. */
  predicate Explained(r: Revenue, r': Revenue, price: real) {
    && OnlyFilled(r, r') && r'.coinFilledPrice == Some(price) && r'.filledAmount.Some? && r'.gapRevenue.Some?
    && (r.side == Buy ==> r.amount * price + r'.gapRevenue.value == r.amount * r.coinPrice)
    && (r.side == Sell ==> r.amount * price - r'.gapRevenue.value == r.amount * r.coinPrice)
  }

  lemma ShareExplained(r: Revenue, price: real, share: real)
    ensures Explained(r, Share(r, price, share), price) && Share(r, price, share).filledAmount == Some(share)
  {
    GapBalances(r, price);
  }

  // ----- blocks -----

  /** The rows that meet in blocks: hedged through a provider or too small to be hedged alone. */
  lemma BlockRow(t: Table, w: World, cutoff: int, coin: string, i: nat)
    requires i < |t|
    ensures Member(t, w, cutoff, coin, i) <==>
              && t[i].gapRevenue == None && cutoff <= t[i].created && t[i].symbol.coin == coin && t[i].symbol.enabled
              && t[i].source in {OtcProvider, Taker, Maker, Manual}
              && (t[i].symbol.name == "USDTIRT" ==> w.hedgeIrtByInternalMarket)
              && !("mm-" <= t[i].hedgeKey) && !("tr-" <= t[i].hedgeKey)
  {
  }

  /** An answered block: every row gets the order's price, the gap that explains its agreed value, and
      its amount, until the executed amount is used up; after that nothing. */
  lemma BlockStored(t: Table, w: World, ready: set<nat>, cutoff: int, coin: string, b: nat) returns (full: nat)
    requires b < |Blocks(t, w, cutoff, coin, |t|)| && Closed(t, Blocks(t, w, cutoff, coin, |t|)[b])
    requires var block := Blocks(t, w, cutoff, coin, |t|)[b]; var closer := block[|block| - 1];
             closer in ready && t[closer].hedgeKey in w.orders && w.orders[t[closer].hedgeKey].filledAmount >= 0.0 &&
             NonNegative(Amounts(t, block))
    ensures var block, t' := Blocks(t, w, cutoff, coin, |t|)[b], Run(t, w, ready, cutoff);
            var order := w.orders[t[block[|block| - 1]].hedgeKey];
            forall k :: 0 <= k < |block| ==>
              Explained(t[block[k]], t'[block[k]], order.filledPrice) &&
              (k < full ==> t'[block[k]].filledAmount == Some(t[block[k]].amount)) &&
              (k > full ==> t'[block[k]].filledAmount == Some(0.0))
  {
    var block, t' := Blocks(t, w, cutoff, coin, |t|)[b], Run(t, w, ready, cutoff);
    var order := w.orders[t[block[|block| - 1]].hedgeKey];
    BlockOutcome(t, w, ready, cutoff, coin, b);
    full := GreedyAllocation(Amounts(t, block), order.filledAmount);
    forall k | 0 <= k < |block|
      ensures Explained(t[block[k]], t'[block[k]], order.filledPrice)
      ensures t'[block[k]].filledAmount == Some(Fills(Amounts(t, block), order.filledAmount)[k])
    {
      ShareExplained(t[block[k]], order.filledPrice, Fills(Amounts(t, block), order.filledAmount)[k]);
    }
  }

  /** What the users of a block bought, sales counted negative. */
  function Bought(t: Table, block: seq<nat>): real
    requires forall k :: 0 <= k < |block| ==> block[k] < |t|
  {
    if block == [] then 0.0
    else
      var r := t[block[|block| - 1]];
      Bought(t, block[..|block| - 1]) + if r.side == Buy then r.amount else -r.amount
  }

  /** What they agreed to pay for it, receipts counted negative. */
  function Agreed(t: Table, block: seq<nat>): real
    requires forall k :: 0 <= k < |block| ==> block[k] < |t|
  {
    if block == [] then 0.0
    else
      var r := t[block[|block| - 1]];
      Agreed(t, block[..|block| - 1]) + if r.side == Buy then r.amount * r.coinPrice else -(r.amount * r.coinPrice)
  }

  function StoredGaps(t: Table, block: seq<nat>): real
    requires forall k :: 0 <= k < |block| ==> block[k] < |t|
    requires forall k :: 0 <= k < |block| ==> t[block[k]].gapRevenue.Some?
  {
    if block == [] then 0.0 else StoredGaps(t, block[..|block| - 1]) + t[block[|block| - 1]].gapRevenue.value
  }

  /** The gaps stored over rows of one price add up to what the users agreed to pay less what their
      net purchase costs at that price. */
  lemma {:induction false} GapsAddUp(t: Table, t': Table, block: seq<nat>, price: real)
    requires |t'| == |t| && forall k :: 0 <= k < |block| ==> block[k] < |t|
    requires forall k :: 0 <= k < |block| ==> t'[block[k]].gapRevenue.Some? && Explained(t[block[k]], t'[block[k]], price)
    ensures StoredGaps(t', block) == Agreed(t, block) - price * Bought(t, block)
  {
    if block != [] {
      var init, last := block[..|block| - 1], block[|block| - 1];
      GapsAddUp(t, t', init, price);
      OneMoreGap(price, Bought(t, init), t[last].amount);
    }
  }

  lemma OneMoreGap(price: real, bought: real, amount: real)
    ensures price * (bought + amount) == price * bought + amount * price
    ensures price * (bought - amount) == price * bought - amount * price
  {
  }

  lemma BlockGaps(t: Table, w: World, ready: set<nat>, cutoff: int, coin: string, b: nat)
    requires b < |Blocks(t, w, cutoff, coin, |t|)| && Closed(t, Blocks(t, w, cutoff, coin, |t|)[b])
    requires var block := Blocks(t, w, cutoff, coin, |t|)[b]; var closer := block[|block| - 1];
             closer in ready && t[closer].hedgeKey in w.orders && w.orders[t[closer].hedgeKey].filledAmount >= 0.0 &&
             NonNegative(Amounts(t, block))
    ensures var block, t' := Blocks(t, w, cutoff, coin, |t|)[b], Run(t, w, ready, cutoff);
            (forall k :: 0 <= k < |block| ==> t'[block[k]].gapRevenue.Some?) &&
            StoredGaps(t', block) == Agreed(t, block) - w.orders[t[block[|block| - 1]].hedgeKey].filledPrice * Bought(t, block)
  {
    var block := Blocks(t, w, cutoff, coin, |t|)[b];
    var _ := BlockStored(t, w, ready, cutoff, coin, b);
    GapsAddUp(t, Run(t, w, ready, cutoff), block, w.orders[t[block[|block| - 1]].hedgeKey].filledPrice);
  }

  // ----- rows that stand alone -----

  predicate Pending(r: Revenue, cutoff: int) {
    r.gapRevenue == None && cutoff <= r.created
  }

  predicate AsQuoted(r: Revenue, r': Revenue, quotes: map<nat, Fill>, i: nat) {
    if i in quotes then
      OnlyFilled(r, r') && r'.coinFilledPrice == Some(quotes[i].coinFilledPrice) &&
      r'.filledAmount == Some(quotes[i].filledAmount) && r'.gapRevenue == Some(quotes[i].gapRevenue)
    else r' == r
  }

  predicate UsdtByMarket(r: Revenue, w: World) {
    !w.hedgeIrtByInternalMarket && r.symbol.name == "USDTIRT"
  }

  /** A row outside the blocks that a run completes. A user's own trade was its own hedge; USDT against
      IRT is worth 1 dollar and leaves the rest as gap; a disabled asset leaves nothing but a zero gap;
      the others carry what the market or the requester answered, if it did. */
  lemma AloneStored(t: Table, w: World, ready: set<nat>, cutoff: int, i: nat)
    requires i < |t| && i in ready && Pending(t[i], cutoff)
    ensures var r, r' := t[i], Run(t, w, ready, cutoff)[i];
            && (r.source == User ==>
                  Explained(r, r', r.coinPrice) && r'.filledAmount == Some(r.amount) && r'.gapRevenue == Some(0.0))
            && (r.source == OtcMarket ==> AsQuoted(r, r', w.quotes, i))
            && (r.source !in {User, OtcMarket} ==>
                  (UsdtByMarket(r, w) ==> Explained(r, r', 1.0) && r'.filledAmount == Some(r.amount)) &&
                  (!UsdtByMarket(r, w) ==>
                     (!r.symbol.enabled ==> r' == r.(gapRevenue := Some(0.0))) &&
                     (r.symbol.enabled && ("mm-" <= r.hedgeKey || "tr-" <= r.hedgeKey) ==> AsQuoted(r, r', w.quotes, i))))
  {
    var r := t[i];
    ShareExplained(r, 1.0, r.amount);
    assert RowAfter(t, w, ready, cutoff, i) == if RouteOf(r, w).Delegated? then RowAfter(t, w, ready, cutoff, i) else Direct(r, w, i);
  }

  /** A row that a run does not load, or one outside the blocks that it does not complete, stays. */
  lemma NotReached(t: Table, w: World, ready: set<nat>, cutoff: int, i: nat)
    requires i < |t|
    requires !Pending(t[i], cutoff) ||
             (i !in ready &&
              (t[i].source in {User, OtcMarket} || UsdtByMarket(t[i], w) || !t[i].symbol.enabled ||
               "mm-" <= t[i].hedgeKey || "tr-" <= t[i].hedgeKey))
    ensures Run(t, w, ready, cutoff)[i] == t[i]
  {
  }

  /** What one run of the job completes: of the rows it gets to, those it can settle by itself, and
      those whose answer came. */
  lemma ReachedRows(t: Table, w: World, answered: set<nat>, stop: nat, i: nat)
    requires i < |t|
    ensures i in Reached(t, w, answered, stop) <==>
              i < stop &&
              (i in answered || t[i].source == User ||
               (t[i].source != OtcMarket && (UsdtByMarket(t[i], w) || !t[i].symbol.enabled)))
  {
  }
}
