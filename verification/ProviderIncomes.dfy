/** The tables behind the periodic fetchers, and the job that fills provider incomes
    (accounting/tasks/provider.py). */
module ProviderIncomes {
  import opened Options
  import opened Fetching

  datatype VaultType = Provider | Gateway | HotWallet | ColdWallet | Bank | App | Manual

  datatype VaultMarket = Spot | Futures

  datatype Vault = Vault(kind: VaultType, market: VaultMarket, key: string)

  const HOUR := 3_600_000_000

  const ITERATIONS: nat := 100

  predicate Fetchable(v: Vault) {
    v.kind == Provider && v.market == Futures
  }

  /** The calls of one run of the job, in order: one per provider futures vault. */
  function VaultCalls(vaults: seq<Vault>, scripts: seq<seq<Attempt>>): seq<Call>
    requires |scripts| == |vaults|
  {
    if vaults == [] then []
    else
      var n := |vaults| - 1;
      var before := VaultCalls(vaults[..n], scripts[..n]);
      if Fetchable(vaults[n]) then before + [Call(FetcherName(vaults[n]), ITERATIONS, scripts[n])] else before
  }

  lemma {:induction false} CallsAppend(s: Store, interval: int, calls: seq<Call>, c: Call)
    ensures Calls(s, interval, calls + [c])
         == RepetitiveFetch(Calls(s, interval, calls), c.name, interval, c.iterations, c.script).0
    decreases |calls|
  {
    if calls == [] {
      assert [c][1..] == [];
    } else {
      assert (calls + [c])[1..] == calls[1..] + [c];
      var first := calls[0];
      CallsAppend(RepetitiveFetch(s, first.name, interval, first.iterations, first.script).0, interval, calls[1..], c);
    }
  }

  function FetcherName(v: Vault): string {
    "vault-income-" + v.key
  }

  /** The tables after the calls for the first `k` vaults. */
  function AfterVaults(s: Store, vaults: seq<Vault>, scripts: seq<seq<Attempt>>, k: nat): Store
    requires k <= |vaults| == |scripts|
  {
    Calls(s, HOUR, VaultCalls(vaults[..k], scripts[..k]))
  }

  /** A provider's futures vault gets one call of at most 100 hourly ranges under its own name; other
      vaults get none. */
  lemma NextVault(s: Store, vaults: seq<Vault>, scripts: seq<seq<Attempt>>, k: nat)
    requires k < |vaults| == |scripts|
    ensures AfterVaults(s, vaults, scripts, 0) == s
    ensures var before := AfterVaults(s, vaults, scripts, k);
            AfterVaults(s, vaults, scripts, k + 1) ==
            if vaults[k].kind == Provider && vaults[k].market == Futures
            then RepetitiveFetch(before, "vault-income-" + vaults[k].key, 3_600_000_000, 100, scripts[k]).0
            else before
  {
    var vs, ss := vaults[..k + 1], scripts[..k + 1];
    assert vs[..k] == vaults[..k] && ss[..k] == scripts[..k];
    CallsAppend(s, HOUR, VaultCalls(vaults[..k], scripts[..k]), Call(FetcherName(vaults[k]), ITERATIONS, scripts[k]));
  }

  /** The worker dies during the call for vault `k`. */
  predicate DiesAt(s: Store, vaults: seq<Vault>, scripts: seq<seq<Attempt>>, k: nat)
    requires k < |vaults| == |scripts|
  {
    Fetchable(vaults[k]) &&
    RepetitiveFetch(AfterVaults(s, vaults, scripts, k), FetcherName(vaults[k]), HOUR, ITERATIONS, scripts[k]).1 == Crashed
  }

  class AccountingTables {
    var cursors: map<string, int>
    var incomes: seq<Income>
    ghost var log: seq<Confirmed>

    ghost function Snapshot(): Store
      reads this
    {
      Store(cursors, incomes, log)
    }

    constructor ()
      ensures Snapshot() == Store(map[], [], [])
    {
      cursors, incomes, log := map[], [], [];
    }

    /** `update_or_create` of the cursor row. */
    method ConfirmRange(name: string, end: int)
      modifies this`cursors
      ensures cursors == old(cursors)[name := end]
    {
      cursors := cursors[name := end];
    }

    /** The insertion loop of `income_fetcher` over as much of the answer as it gets through. */
    method IncomeFetcher(rows: seq<Income>)
      modifies this`incomes
      ensures incomes == InsertNew(old(incomes), rows)
    {
      for n := 0 to |rows|
        invariant incomes == InsertNew(old(incomes), rows[..n])
      {
        assert rows[..n + 1][..n] == rows[..n];
        var found := false;
        for k := 0 to |incomes|
          invariant found <==> exists j :: 0 <= j < k && incomes[j].tranId == rows[n].tranId
        {
          if incomes[k].tranId == rows[n].tranId {
            found := true;
          }
        }
        if !found {
          incomes := incomes + [rows[n]];
        }
      }
      assert rows[..|rows|] == rows;
    }

    method FetchRepeatedly(name: string, interval: int, iterations: nat, script: seq<Attempt>) returns (ended: Ended)
      modifies this
      ensures (Snapshot(), ended) == RepetitiveFetch(old(Snapshot()), name, interval, iterations, script)
    {
      for i := 0 to iterations
        invariant i <= |script|
        invariant RepetitiveFetch(old(Snapshot()), name, interval, iterations, script)
               == RepetitiveFetch(Snapshot(), name, interval, iterations - i, script[i..])
      {
        if i == |script| {
          return Crashed;
        }
        var a := script[i];
        assert script[i..][0] == a && script[i..][1..] == script[i + 1..];
        var range := GetNextRange(cursors, name, interval, a.clock);
        if range.None? {
          return UpToDate;
        }
        var (start, end) := range.value;
        IncomeFetcher(a.rows);
        if a.outcome == FetchError {
          return Failed;
        }
        if a.outcome == Crash {
          return Crashed;
        }
        ConfirmRange(name, end);
        log := log + [Confirmed(name, start, end, a.rows, a.clock)];
      }
      return Exhausted;
    }

    /** One run of `fill_provider_incomes`. It ends early exactly when the worker dies, at the first
        call where that happens; that call's writes stay. */
    method FillProviderIncomes(vaults: seq<Vault>, scripts: seq<seq<Attempt>>) returns (done: nat, crashed: bool)
      requires |scripts| == |vaults|
      modifies this
      ensures done <= |vaults| && (crashed ==> done > 0) && (!crashed ==> done == |vaults|)
      ensures forall k :: 0 <= k < done ==> (DiesAt(old(Snapshot()), vaults, scripts, k) <==> crashed && k == done - 1)
      ensures Snapshot() == AfterVaults(old(Snapshot()), vaults, scripts, done)
    {
      done, crashed := 0, false;
      while done < |vaults|
        invariant done <= |vaults|
        invariant forall k :: 0 <= k < done ==> !DiesAt(old(Snapshot()), vaults, scripts, k)
        invariant Snapshot() == AfterVaults(old(Snapshot()), vaults, scripts, done)
      {
        var v := vaults[done];
        NextVault(old(Snapshot()), vaults, scripts, done);
        if Fetchable(v) {
          var ended := FetchRepeatedly(FetcherName(v), HOUR, ITERATIONS, scripts[done]);
          done := done + 1;
          if ended == Crashed {
            crashed := true;
            return;
          }
        } else {
          done := done + 1;
        }
      }
    }
  }
}
