/** What repeated settlement runs add up to: runs compose, appended rows do not disturb
    earlier blocks, and when a history of partial runs equals one run with all its answers. */
module SettlementRuns {
  import opened Options
  import opened Allocation
  import opened Settlement

  // ----- one run leaves the grouping of the rest alone -----

  /** A run changes nothing that the grouping reads, except that a filled row stops being active. */
  lemma RowIdentity(t: Table, w: World, ready: set<nat>, cutoff: int, i: nat)
    requires i < |t|
    ensures var r := RowAfter(t, w, ready, cutoff, i);
            RouteOf(r, w) == RouteOf(t[i], w) && r.hedgeKey == t[i].hedgeKey && r.amount == t[i].amount &&
            r.symbol == t[i].symbol && r.created == t[i].created &&
            (r.gapRevenue.None? ==> t[i].gapRevenue.None?)
  {
  }

  lemma MemberAfter(t: Table, w: World, ready: set<nat>, cutoff: int, coin: string, i: nat)
    requires i < |t|
    ensures var t' := Run(t, w, ready, cutoff);
            t'[i].hedgeKey == t[i].hedgeKey &&
            (Member(t', w, cutoff, coin, i) <==>
               Member(t, w, cutoff, coin, i) && !Answered(t, w, ready, Closer(t, w, cutoff, coin, i)))
  {
    RowIdentity(t, w, ready, cutoff, i);
  }

  lemma {:induction false} OpenAfter(t: Table, w: World, ready: set<nat>, cutoff: int, coin: string, n: nat)
    requires n <= |t|
    ensures Open(Run(t, w, ready, cutoff), w, cutoff, coin, n)
         == if Answered(t, w, ready, Closer(t, w, cutoff, coin, n)) then [] else Open(t, w, cutoff, coin, n)
  {
    if n > 0 {
      OpenAfter(t, w, ready, cutoff, coin, n - 1);
      MemberAfter(t, w, ready, cutoff, coin, n - 1);
      Unfolds(t, w, cutoff, coin, n - 1);
      Unfolds(Run(t, w, ready, cutoff), w, cutoff, coin, n - 1);
    }
  }

  lemma {:induction false} CloserAfter(t: Table, w: World, ready: set<nat>, cutoff: int, coin: string, n: nat)
    requires n <= |t| && !Answered(t, w, ready, Closer(t, w, cutoff, coin, n))
    ensures Closer(Run(t, w, ready, cutoff), w, cutoff, coin, n) == Closer(t, w, cutoff, coin, n)
    decreases |t| - n
  {
    if n < |t| {
      RowIdentity(t, w, ready, cutoff, n);
      if !Keyed(t, w, cutoff, coin, n) {
        CloserAfter(t, w, ready, cutoff, coin, n + 1);
      }
    }
  }

  lemma AmountsAfter(t: Table, w: World, ready: set<nat>, cutoff: int, positions: seq<nat>)
    requires forall k :: 0 <= k < |positions| ==> positions[k] < |t|
    ensures Amounts(Run(t, w, ready, cutoff), positions) == Amounts(t, positions)
  {
    forall k | 0 <= k < |positions|
      ensures Run(t, w, ready, cutoff)[positions[k]].amount == t[positions[k]].amount
    {
      RowIdentity(t, w, ready, cutoff, positions[k]);
    }
  }

  lemma RowCompose(t: Table, w: World, first: set<nat>, second: set<nat>, cutoff: int, i: nat)
    requires i < |t|
    ensures RowAfter(Run(t, w, first, cutoff), w, second, cutoff, i) == RowAfter(t, w, first + second, cutoff, i)
  {
    var t' := Run(t, w, first, cutoff);
    RowIdentity(t, w, first, cutoff, i);
    if Active(t, cutoff, i) && RouteOf(t[i], w).Delegated? {
      var coin := t[i].symbol.coin;
      var closer := Closer(t, w, cutoff, coin, i);
      if !Answered(t, w, first, closer) {
        CloserAfter(t, w, first, cutoff, coin, i);
        OpenAfter(t, w, first, cutoff, coin, i);
        AmountsAfter(t, w, first, cutoff, Open(t, w, cutoff, coin, i));
        if closer.Some? {
          RowIdentity(t, w, first, cutoff, closer.value);
        }
      }
    }
  }

  /** Two runs, each with whatever answers it had, are one run with the answers of both:
      only whole blocks leave the pending rows. Holds of every table. */
  lemma RunsCompose(t: Table, w: World, first: set<nat>, second: set<nat>, cutoff: int)
    ensures Run(Run(t, w, first, cutoff), w, second, cutoff) == Run(t, w, first + second, cutoff)
  {
    forall i | 0 <= i < |t|
      ensures Run(Run(t, w, first, cutoff), w, second, cutoff)[i] == Run(t, w, first + second, cutoff)[i]
    {
      RowCompose(t, w, first, second, cutoff, i);
    }
  }

  // ----- appending -----

  lemma {:induction false} OpenAppend(t: Table, r: Revenue, w: World, cutoff: int, coin: string, n: nat)
    requires n <= |t|
    ensures Open(t + [r], w, cutoff, coin, n) == Open(t, w, cutoff, coin, n)
  {
    if n > 0 {
      OpenAppend(t, r, w, cutoff, coin, n - 1);
    }
  }

  lemma {:induction false} CloserAppend(t: Table, r: Revenue, w: World, cutoff: int, coin: string, n: nat)
    requires n <= |t|
    ensures var closer, closer' := Closer(t, w, cutoff, coin, n), Closer(t + [r], w, cutoff, coin, n);
            closer' == closer || (closer.None? && closer' == Some(|t|))
    decreases |t| - n
  {
    if n < |t| && !Keyed(t, w, cutoff, coin, n) {
      CloserAppend(t, r, w, cutoff, coin, n + 1);
    }
  }

  /** A run that does not reach the newest row is the run without it. */
  lemma RunAppend(t: Table, r: Revenue, w: World, ready: set<nat>, cutoff: int)
    requires |t| !in ready
    ensures Run(t + [r], w, ready, cutoff) == Run(t, w, ready, cutoff) + [r]
  {
    forall i | 0 <= i <= |t|
      ensures RowAfter(t + [r], w, ready, cutoff, i) == (Run(t, w, ready, cutoff) + [r])[i]
    {
      var coin := (t + [r])[i].symbol.coin;
      if i < |t| {
        OpenAppend(t, r, w, cutoff, coin, i);
        CloserAppend(t, r, w, cutoff, coin, i);
        assert Amounts(t + [r], Open(t, w, cutoff, coin, i)) == Amounts(t, Open(t, w, cutoff, coin, i));
      }
    }
  }

  // ----- the time window -----

  /** No pending row is too old for a run with this cutoff. */
  ghost predicate InWindow(t: Table, cutoff: int) {
    forall i :: 0 <= i < |t| && t[i].gapRevenue.None? ==> t[i].created >= cutoff
  }

  lemma {:induction false} OpenCutoff(t: Table, w: World, c1: int, c2: int, coin: string, n: nat)
    requires n <= |t| && InWindow(t, c1) && InWindow(t, c2)
    ensures Open(t, w, c1, coin, n) == Open(t, w, c2, coin, n)
  {
    if n > 0 {
      OpenCutoff(t, w, c1, c2, coin, n - 1);
    }
  }

  lemma {:induction false} CloserCutoff(t: Table, w: World, c1: int, c2: int, coin: string, n: nat)
    requires n <= |t| && InWindow(t, c1) && InWindow(t, c2)
    ensures Closer(t, w, c1, coin, n) == Closer(t, w, c2, coin, n)
    decreases |t| - n
  {
    if n < |t| {
      CloserCutoff(t, w, c1, c2, coin, n + 1);
    }
  }

  lemma RunCutoff(t: Table, w: World, ready: set<nat>, c1: int, c2: int)
    requires InWindow(t, c1) && InWindow(t, c2)
    ensures Run(t, w, ready, c1) == Run(t, w, ready, c2)
  {
    forall i | 0 <= i < |t|
      ensures RowAfter(t, w, ready, c1, i) == RowAfter(t, w, ready, c2, i)
    {
      OpenCutoff(t, w, c1, c2, t[i].symbol.coin, i);
      CloserCutoff(t, w, c1, c2, t[i].symbol.coin, i);
    }
  }

  // ----- rows that have left the window -----

  /** Creation times do not fall with the ids. */
  ghost predicate Ordered(t: Table) {
    forall i, j :: 0 <= i < j < |t| ==> t[i].created <= t[j].created
  }

  /** A run that still saw row `i` would leave it pending: its block's closing row has no answer, or
      the row stands alone and has none. */
  ghost predicate Unanswered(t: Table, w: World, ready: set<nat>, floor: int, i: nat)
    requires i < |t|
  {
    if RouteOf(t[i], w).Delegated? then !Answered(t, w, ready, Closer(t, w, floor, t[i].symbol.coin, i))
    else i !in ready || Direct(t[i], w, i) == t[i]
  }

  /** Every pending row older than the cutoff is one that would have stayed pending anyway. */
  ghost predicate OldUnanswered(t: Table, w: World, ready: set<nat>, cutoff: int, floor: int) {
    forall i :: 0 <= i < |t| && t[i].gapRevenue.None? && t[i].created < cutoff ==> Unanswered(t, w, ready, floor, i)
  }

  lemma UnansweredStays(t: Table, w: World, ready: set<nat>, floor: int, i: nat)
    requires i < |t| && t[i].gapRevenue.None? && t[i].created >= floor
    ensures Unanswered(t, w, ready, floor, i) <==> RowAfter(t, w, ready, floor, i) == t[i]
    ensures Unanswered(t, w, ready, floor, i) <==> RowAfter(t, w, ready, floor, i).gapRevenue.None?
  {
  }

  lemma {:induction false} CloserLater(t: Table, w: World, cutoff: int, floor: int, coin: string, n: nat)
    requires n <= |t| && InWindow(t, floor)
    requires forall j :: n <= j < |t| ==> t[j].created >= cutoff
    ensures Closer(t, w, cutoff, coin, n) == Closer(t, w, floor, coin, n)
    decreases |t| - n
  {
    if n < |t| {
      CloserLater(t, w, cutoff, floor, coin, n + 1);
    }
  }

  lemma {:induction false} OpenAllOld(t: Table, w: World, cutoff: int, coin: string, n: nat)
    requires n <= |t| && forall j :: 0 <= j < n ==> t[j].created < cutoff
    ensures Open(t, w, cutoff, coin, n) == []
  {
    if n > 0 {
      OpenAllOld(t, w, cutoff, coin, n - 1);
    }
  }

  /** An open list without old rows does not depend on the cutoff. */
  lemma {:induction false} OpenLater(t: Table, w: World, cutoff: int, floor: int, coin: string, n: nat)
    requires n <= |t| && Ordered(t) && InWindow(t, floor) && floor <= cutoff
    requires forall p :: p in Open(t, w, floor, coin, n) ==> t[p].created >= cutoff
    ensures Open(t, w, cutoff, coin, n) == Open(t, w, floor, coin, n)
  {
    if n > 0 {
      if Keyed(t, w, floor, coin, n - 1) {
        if t[n - 1].created < cutoff {
          OpenAllOld(t, w, cutoff, coin, n);
        }
      } else if Member(t, w, floor, coin, n - 1) {
        var before := Open(t, w, floor, coin, n - 1);
        assert Open(t, w, floor, coin, n) == before + [n - 1];
        assert n - 1 in before + [n - 1] && forall p :: p in before ==> p in before + [n - 1];
        OpenLater(t, w, cutoff, floor, coin, n - 1);
      } else {
        OpenLater(t, w, cutoff, floor, coin, n - 1);
      }
    }
  }

  /** Old rows in front of an answered row of the window share its closer, so they are answered too. */
  lemma OpenOldAnswered(t: Table, w: World, ready: set<nat>, cutoff: int, floor: int, coin: string, i: nat, p: nat)
    requires i < |t| && p in Open(t, w, floor, coin, i) && OldUnanswered(t, w, ready, cutoff, floor)
    requires Answered(t, w, ready, Closer(t, w, floor, coin, i))
    ensures t[p].created >= cutoff
  {
    OpenMembers(t, w, floor, coin, i, p);
    CloserStep(t, w, floor, coin, p, i);
  }

  lemma RowLater(t: Table, w: World, ready: set<nat>, cutoff: int, floor: int, i: nat)
    requires i < |t| && Ordered(t) && InWindow(t, floor) && floor <= cutoff
    requires OldUnanswered(t, w, ready, cutoff, floor)
    ensures RowAfter(t, w, ready, cutoff, i) == RowAfter(t, w, ready, floor, i)
  {
    if t[i].gapRevenue.None? {
      if t[i].created < cutoff {
        UnansweredStays(t, w, ready, floor, i);
      } else if RouteOf(t[i], w).Delegated? {
        var coin := t[i].symbol.coin;
        CloserLater(t, w, cutoff, floor, coin, i);
        if Answered(t, w, ready, Closer(t, w, floor, coin, i)) {
          forall p | p in Open(t, w, floor, coin, i)
            ensures t[p].created >= cutoff
          {
            OpenOldAnswered(t, w, ready, cutoff, floor, coin, i, p);
          }
          OpenLater(t, w, cutoff, floor, coin, i);
        }
      }
    }
  }

  /** When the window matters: a run that misses the rows before its cutoff fills the table as one
      that misses none exactly when those rows would have stayed pending anyway. */
  lemma WindowMatters(t: Table, w: World, ready: set<nat>, cutoff: int, floor: int)
    requires Ordered(t) && InWindow(t, floor)
    ensures Run(t, w, ready, cutoff) == Run(t, w, ready, floor) <==> OldUnanswered(t, w, ready, cutoff, floor)
  {
    if cutoff < floor {
      RunCutoff(t, w, ready, cutoff, floor);
    } else {
      if OldUnanswered(t, w, ready, cutoff, floor) {
        forall i | 0 <= i < |t|
          ensures RowAfter(t, w, ready, cutoff, i) == RowAfter(t, w, ready, floor, i)
        {
          RowLater(t, w, ready, cutoff, floor, i);
        }
      } else {
        var i :| 0 <= i < |t| && t[i].gapRevenue.None? && t[i].created < cutoff && !Unanswered(t, w, ready, floor, i);
        UnansweredStays(t, w, ready, floor, i);
        assert Run(t, w, ready, cutoff)[i] == t[i];
      }
    }
  }

  // ----- histories -----

  /** Trading appends rows; the settlement job passes over the table with the answers it happens to get. */
  datatype Event = Append(row: Revenue) | Pass(ready: set<nat>, cutoff: int)

  function Replay(h: seq<Event>, w: World): Table {
    if h == [] then []
    else
      var t := Replay(h[..|h| - 1], w);
      match h[|h| - 1]
      case Append(row) => t + [row]
      case Pass(ready, cutoff) => Run(t, w, ready, cutoff)
  }

  /** The rows as they were appended. */
  function Rows(h: seq<Event>): Table {
    if h == [] then []
    else
      match h[|h| - 1]
      case Append(row) => Rows(h[..|h| - 1]) + [row]
      case Pass(_, _) => Rows(h[..|h| - 1])
  }

  /** Every row that some pass reached with an answer. */
  function Reached(h: seq<Event>): set<nat> {
    if h == [] then {}
    else
      match h[|h| - 1]
      case Append(_) => Reached(h[..|h| - 1])
      case Pass(ready, _) => Reached(h[..|h| - 1]) + set i | i in ready && i < |Rows(h[..|h| - 1])|
  }

  lemma {:induction false} ReplayIdentity(h: seq<Event>, w: World)
    ensures |Replay(h, w)| == |Rows(h)|
    ensures forall i :: 0 <= i < |Rows(h)| ==> Replay(h, w)[i].created == Rows(h)[i].created
  {
    if h != [] {
      ReplayIdentity(h[..|h| - 1], w);
    }
  }

  lemma {:induction false} ReachedRows(h: seq<Event>)
    ensures forall i :: i in Reached(h) ==> i < |Rows(h)|
  {
    if h != [] {
      ReachedRows(h[..|h| - 1]);
    }
  }

  ghost predicate AllFrom(t: Table, floor: int) {
    forall i :: 0 <= i < |t| ==> t[i].created >= floor
  }

  lemma InitRows(h: seq<Event>, floor: int)
    requires h != []
    ensures AllFrom(Rows(h), floor) ==> AllFrom(Rows(h[..|h| - 1]), floor)
    ensures Ordered(Rows(h)) ==> Ordered(Rows(h[..|h| - 1]))
  {
    var t, t0 := Rows(h), Rows(h[..|h| - 1]);
    assert |t0| <= |t| && forall i :: 0 <= i < |t0| ==> t0[i] == t[i];
  }

  /** One more pass, in terms of the single run that knows every answer so far. */
  lemma PassOverRun(t: Table, w: World, reached: set<nat>, ready: set<nat>, floor: int)
    ensures var some := set i | i in ready && i < |t|;
            Run(Run(t, w, reached, floor), w, ready, floor) == Run(t, w, reached + some, floor)
  {
    var some := set i | i in ready && i < |t|;
    Beyond(Run(t, w, reached, floor), w, ready, some, floor);
    RunsCompose(t, w, reached, some, floor);
  }

  /** No row leaves the job's time window while it is pending. */
  ghost predicate AlwaysInWindow(h: seq<Event>, w: World) {
    forall k :: 0 <= k < |h| && h[k].Pass? ==> InWindow(Replay(h[..k], w), h[k].cutoff)
  }

  /** While no pending row leaves the window, in whatever order rows were created, any interleaving of
      appends and passes, complete or cut short, ends with exactly the fills of one pass over all rows
      that has every answer at once. */
  lemma {:induction false} RetryInWindow(h: seq<Event>, w: World, floor: int)
    requires AlwaysInWindow(h, w) && AllFrom(Rows(h), floor)
    ensures Replay(h, w) == Run(Rows(h), w, Reached(h), floor)
  {
    if h != [] {
      var n := |h| - 1;
      var init := h[..n];
      assert forall k :: 0 <= k < n ==> init[..k] == h[..k];
      InitRows(h, floor);
      RetryInWindow(init, w, floor);
      ReachedRows(init);
      match h[n] {
        case Append(row) =>
          RunAppend(Rows(init), row, w, Reached(init), floor);
        case Pass(ready, cutoff) =>
          AfterRun(Rows(init), w, Reached(init), floor);
          RunCutoff(Replay(init, w), w, ready, cutoff, floor);
          PassOverRun(Rows(init), w, Reached(init), ready, floor);
      }
    }
  }

  /** The pass misses no row that it would have settled. */
  ghost predicate MissesNothing(h: seq<Event>, w: World, floor: int, k: nat)
    requires k < |h|
  {
    h[k].Pass? ==> OldUnanswered(Replay(h[..k], w), w, h[k].ready, h[k].cutoff, floor)
  }

  ghost predicate NothingMissed(h: seq<Event>, w: World, floor: int) {
    forall k :: 0 <= k < |h| ==> MissesNothing(h, w, floor, k)
  }

  /** The clock does not go back between passes. */
  ghost predicate RisingCutoffs(h: seq<Event>) {
    forall j, k :: 0 <= j < k < |h| && h[j].Pass? && h[k].Pass? ==> h[j].cutoff <= h[k].cutoff
  }

  lemma InitMissed(h: seq<Event>, w: World, floor: int)
    requires h != []
    ensures NothingMissed(h, w, floor) <==> NothingMissed(h[..|h| - 1], w, floor) && MissesNothing(h, w, floor, |h| - 1)
  {
    var init := h[..|h| - 1];
    forall k | 0 <= k < |init|
      ensures MissesNothing(init, w, floor, k) <==> MissesNothing(h, w, floor, k)
    {
      assert init[..k] == h[..k];
    }
  }

  /** The table and the single run agree after a pass exactly when the pass missed nothing, given that
      they agreed before. */
  lemma PassAgrees(h: seq<Event>, w: World, floor: int)
    requires h != [] && h[|h| - 1].Pass? && AllFrom(Rows(h), floor) && Ordered(Rows(h))
    requires Replay(h[..|h| - 1], w) == Run(Rows(h[..|h| - 1]), w, Reached(h[..|h| - 1]), floor)
    ensures Replay(h, w) == Run(Rows(h), w, Reached(h), floor) <==> MissesNothing(h, w, floor, |h| - 1)
  {
    var n := |h| - 1;
    var init, e := h[..n], h[n];
    ReplayIdentity(init, w);
    AfterRun(Rows(init), w, Reached(init), floor);
    WindowMatters(Replay(init, w), w, e.ready, e.cutoff, floor);
    PassOverRun(Rows(init), w, Reached(init), e.ready, floor);
  }

  lemma {:induction false} MissingNothingAgrees(h: seq<Event>, w: World, floor: int)
    requires AllFrom(Rows(h), floor) && Ordered(Rows(h)) && NothingMissed(h, w, floor)
    ensures Replay(h, w) == Run(Rows(h), w, Reached(h), floor)
  {
    if h != [] {
      var init := h[..|h| - 1];
      InitRows(h, floor);
      InitMissed(h, w, floor);
      MissingNothingAgrees(init, w, floor);
      if h[|h| - 1].Pass? {
        PassAgrees(h, w, floor);
      } else {
        ReachedRows(init);
        RunAppend(Rows(init), h[|h| - 1].row, w, Reached(init), floor);
      }
    }
  }

  /** A row that pass `k` was too late for: pending for ever, although a run that saw it would have
      settled it. */
  ghost predicate Missed(h: seq<Event>, w: World, floor: int, i: nat, k: nat) {
    && k < |h| && h[k].Pass? && i < |Rows(h)| == |Replay(h, w)|
    && Rows(h)[i].created < h[k].cutoff
    && Replay(h, w)[i].gapRevenue.None?
    && Run(Rows(h), w, Reached(h), floor)[i].gapRevenue.Some?
  }

  /** A settled row is never touched again. */
  lemma SettledStays(t: Table, w: World, ready: set<nat>, cutoff: int, i: nat)
    requires i < |t| && (t[i].gapRevenue.Some? || t[i].created < cutoff)
    ensures Run(t, w, ready, cutoff)[i] == t[i]
  {
  }

  lemma MissedStays(h: seq<Event>, w: World, floor: int, i: nat, k: nat)
    requires h != [] && Missed(h[..|h| - 1], w, floor, i, k) && RisingCutoffs(h)
    ensures Missed(h, w, floor, i, k)
  {
    var n := |h| - 1;
    var init := h[..n];
    ReplayIdentity(init, w);
    ReplayIdentity(h, w);
    ReachedRows(init);
    match h[n] {
      case Append(row) =>
        RunAppend(Rows(init), row, w, Reached(init), floor);
      case Pass(ready, cutoff) =>
        assert h[k] == init[k];
        SettledStays(Replay(init, w), w, ready, cutoff, i);
        PassOverRun(Rows(init), w, Reached(init), ready, floor);
        SettledStays(Run(Rows(init), w, Reached(init), floor), w, ready, floor, i);
    }
  }

  /** The first pass that misses something leaves such a row. */
  lemma FirstMissed(h: seq<Event>, w: World, floor: int) returns (i: nat)
    requires h != [] && AllFrom(Rows(h), floor) && Ordered(Rows(h))
    requires NothingMissed(h[..|h| - 1], w, floor) && !MissesNothing(h, w, floor, |h| - 1)
    ensures Missed(h, w, floor, i, |h| - 1)
  {
    var n := |h| - 1;
    var init, e := h[..n], h[n];
    InitRows(h, floor);
    MissingNothingAgrees(init, w, floor);
    var t := Replay(init, w);
    ReplayIdentity(init, w);
    ReplayIdentity(h, w);
    i :| 0 <= i < |t| && t[i].gapRevenue.None? && t[i].created < e.cutoff && !Unanswered(t, w, e.ready, floor, i);
    UnansweredStays(t, w, e.ready, floor, i);
    SettledStays(t, w, e.ready, e.cutoff, i);
    PassOverRun(Rows(init), w, Reached(init), e.ready, floor);
  }

  lemma {:induction false} SomethingMissed(h: seq<Event>, w: World, floor: int) returns (i: nat, k: nat)
    requires AllFrom(Rows(h), floor) && Ordered(Rows(h)) && RisingCutoffs(h) && !NothingMissed(h, w, floor)
    ensures Missed(h, w, floor, i, k)
  {
    var init := h[..|h| - 1];
    InitMissed(h, w, floor);
    InitRows(h, floor);
    if NothingMissed(init, w, floor) {
      i := FirstMissed(h, w, floor);
      k := |h| - 1;
    } else {
      i, k := SomethingMissed(init, w, floor);
      MissedStays(h, w, floor, i, k);
    }
  }

  /** Retry equivalence: any interleaving of appends and passes, complete or cut short, ends with the
      fills of one pass over all rows that has every answer at once exactly when no pass misses a row
      that it would have settled. */
  lemma RetryEquivalence(h: seq<Event>, w: World, floor: int)
    requires AllFrom(Rows(h), floor) && Ordered(Rows(h)) && RisingCutoffs(h)
    ensures Replay(h, w) == Run(Rows(h), w, Reached(h), floor) <==> NothingMissed(h, w, floor)
  {
    if NothingMissed(h, w, floor) {
      MissingNothingAgrees(h, w, floor);
    } else {
      var i, k := SomethingMissed(h, w, floor);
    }
  }

  lemma Beyond(t: Table, w: World, ready: set<nat>, some: set<nat>, cutoff: int)
    requires forall i :: 0 <= i < |t| ==> (i in ready <==> i in some)
    ensures Run(t, w, ready, cutoff) == Run(t, w, some, cutoff)
  {
  }

  lemma AfterRun(t: Table, w: World, ready: set<nat>, floor: int)
    requires AllFrom(t, floor)
    ensures InWindow(Run(t, w, ready, floor), floor)
  {
    forall i | 0 <= i < |t| ensures RowAfter(t, w, ready, floor, i).created >= floor {
      RowIdentity(t, w, ready, floor, i);
    }
  }

  /** In particular, once every row has been reached with its answer, however many passes that
      took, the table is the one a single fully answered pass produces, on the same condition. */
  lemma EventuallyComplete(h: seq<Event>, w: World, floor: int, all: set<nat>)
    requires AllFrom(Rows(h), floor) && Ordered(Rows(h)) && RisingCutoffs(h)
    requires forall i :: 0 <= i < |Rows(h)| ==> i in Reached(h) && i in all
    ensures Replay(h, w) == Run(Rows(h), w, all, floor) <==> NothingMissed(h, w, floor)
  {
    RetryEquivalence(h, w, floor);
    Beyond(Rows(h), w, Reached(h), all, floor);
  }

  lemma AppendLast(h: seq<Event>, row: Revenue, w: World)
    ensures Replay(h + [Append(row)], w) == Replay(h, w) + [row]
    ensures Rows(h + [Append(row)]) == Rows(h) + [row]
  {
    assert (h + [Append(row)])[..|h|] == h;
  }

  /** A pass can miss rows: when the first row of a block grows too old before the answer comes, the
      closing row takes the share the first one would have had. */
  lemma LeavingTheWindowChangesFills(symbol: Symbol, price: real)
    requires symbol.enabled && symbol.name != USDT_IRT
    ensures var w := World(false, map["k" := Order(1.0, price)], map[]);
            var early := Revenue(0, symbol, Buy, OtcProvider, "", 1.0, price, None, None, None);
            var keyed := Revenue(10, symbol, Buy, OtcProvider, "k", 1.0, price, None, None, None);
            var h := [Append(early), Append(keyed), Pass({0, 1}, 5)];
            |Replay(h, w)| == |Rows(h)| == 2 && Replay(h, w)[1].filledAmount == Some(1.0) &&
            Run(Rows(h), w, {0, 1}, 0)[1].filledAmount == Some(0.0)
  {
    var w := World(false, map["k" := Order(1.0, price)], map[]);
    var early := Revenue(0, symbol, Buy, OtcProvider, "", 1.0, price, None, None, None);
    var keyed := Revenue(10, symbol, Buy, OtcProvider, "k", 1.0, price, None, None, None);
    var h := [Append(early), Append(keyed), Pass({0, 1}, 5)];
    var t := [early, keyed];
    AppendLast([], early, w);
    AppendLast([Append(early)], keyed, w);
    assert [] + [Append(early)] == [Append(early)] && h[..2] == [Append(early)] + [Append(keyed)];
    assert Replay(h[..2], w) == t && Rows(h[..2]) == t;
    var coin := symbol.coin;
    assert !Active(t, 5, 0) && Keyed(t, w, 5, coin, 1) && Keyed(t, w, 0, coin, 1) && Member(t, w, 0, coin, 0);
    assert Open(t, w, 5, coin, 0) == [] && Open(t, w, 5, coin, 1) == [];
    assert Open(t, w, 0, coin, 0) == [] && Open(t, w, 0, coin, 1) == [0];
    assert Amounts(t, [0]) == [1.0] && [1.0][..0] == [] && Left([1.0], 1.0) == 0.0;
    assert Amounts(t, []) == [];
  }
}
