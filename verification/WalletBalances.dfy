/** The balance map of `build_user_wallets_balance` (accounting/reports/wallet_balances.py):
    transactions are first summed per (sender, receiver) pair, then debited and credited. */
module WalletBalances {

  type Account = nat

  datatype Trx = Trx(created: int, asset: string, sender: Account, receiver: Account, amount: real)

  datatype Group = Group(sender: Account, receiver: Account, amount: real)

  const IRT := "IRT"

  predicate Selected(t: Trx, date: int) {
    t.created <= date && t.asset == IRT
  }

  /** Total amount of the selected transactions from `sender` to `receiver`. */
  function PairSum(trxs: seq<Trx>, date: int, sender: Account, receiver: Account): real {
    if trxs == [] then 0.0
    else
      var t := trxs[|trxs| - 1];
      PairSum(trxs[..|trxs| - 1], date, sender, receiver) +
      if Selected(t, date) && t.sender == sender && t.receiver == receiver then t.amount else 0.0
  }

  predicate HasPair(trxs: seq<Trx>, date: int, sender: Account, receiver: Account) {
    exists i :: 0 <= i < |trxs| && Selected(trxs[i], date) && trxs[i].sender == sender && trxs[i].receiver == receiver
  }

  /** What the grouping query may answer: one group per pair that occurs, in any order, with its sum. */
  ghost predicate Grouping(trxs: seq<Trx>, date: int, groups: seq<Group>) {
    && (forall i, j :: 0 <= i < j < |groups| ==>
          !(groups[i].sender == groups[j].sender && groups[i].receiver == groups[j].receiver))
    && (forall i :: 0 <= i < |groups| ==>
          HasPair(trxs, date, groups[i].sender, groups[i].receiver) &&
          groups[i].amount == PairSum(trxs, date, groups[i].sender, groups[i].receiver))
    && (forall i :: 0 <= i < |trxs| && Selected(trxs[i], date) ==>
          exists j :: 0 <= j < |groups| && groups[j].sender == trxs[i].sender && groups[j].receiver == trxs[i].receiver)
  }

  /** Reading a `defaultdict(Decimal)`. */
  function Balance(m: map<Account, real>, a: Account): real {
    if a in m then m[a] else 0.0
  }

  /** What one movement does to one account; sending to oneself cancels out. */
  function Effect(sender: Account, receiver: Account, amount: real, a: Account): real {
    (if a == receiver then amount else 0.0) - (if a == sender then amount else 0.0)
  }

  /** An account's balance when every selected transaction is replayed. */
  function Replayed(trxs: seq<Trx>, date: int, a: Account): real {
    if trxs == [] then 0.0
    else
      var t := trxs[|trxs| - 1];
      Replayed(trxs[..|trxs| - 1], date, a) + if Selected(t, date) then Effect(t.sender, t.receiver, t.amount, a) else 0.0
  }

  function FromGroups(groups: seq<Group>, a: Account): real {
    if groups == [] then 0.0
    else
      var g := groups[|groups| - 1];
      FromGroups(groups[..|groups| - 1], a) + Effect(g.sender, g.receiver, g.amount, a)
  }

  /** The accounts that occur in the groups. */
  function Touched(groups: seq<Group>): set<Account> {
    if groups == [] then {}
    else Touched(groups[..|groups| - 1]) + {groups[|groups| - 1].sender, groups[|groups| - 1].receiver}
  }

  /** The debit/credit loop over the query's answer. */
  method BookGroups(groups: seq<Group>) returns (balance: map<Account, real>)
    ensures balance.Keys == Touched(groups)
    ensures forall a :: Balance(balance, a) == FromGroups(groups, a)
  {
    balance := map[];
    for i := 0 to |groups|
      invariant balance.Keys == Touched(groups[..i])
      invariant forall a :: Balance(balance, a) == FromGroups(groups[..i], a)
    {
      assert groups[..i + 1][..i] == groups[..i];
      var g := groups[i];
      balance := balance[g.sender := Balance(balance, g.sender) - g.amount];
      balance := balance[g.receiver := Balance(balance, g.receiver) + g.amount];
    }
    assert groups[..|groups|] == groups;
  }

  /** The balances after the query's answer. */
  method BuildBalanceMap(ghost trxs: seq<Trx>, ghost date: int, groups: seq<Group>) returns (balance: map<Account, real>)
    requires Grouping(trxs, date, groups)
    ensures forall a :: a in balance ==> balance[a] == Replayed(trxs, date, a)
    ensures forall a :: a !in balance ==> Replayed(trxs, date, a) == 0.0
    ensures forall a :: a in balance <==>
              exists i :: 0 <= i < |trxs| && trxs[i].created <= date && trxs[i].asset == "IRT" && a in {trxs[i].sender, trxs[i].receiver}
  {
    balance := BookGroups(groups);
    forall a ensures Balance(balance, a) == Replayed(trxs, date, a) {
      GroupsReplay(trxs, date, groups, a);
    }
    TouchedExactly(trxs, date, groups);
  }

  // ----- grouping loses nothing -----

  lemma {:induction false} TouchedByGroups(groups: seq<Group>, a: Account)
    ensures a in Touched(groups) <==> exists j :: 0 <= j < |groups| && (groups[j].sender == a || groups[j].receiver == a)
  {
    if groups != [] {
      var n := |groups| - 1;
      TouchedByGroups(groups[..n], a);
      if exists j :: 0 <= j < |groups| && (groups[j].sender == a || groups[j].receiver == a) {
        var j :| 0 <= j < |groups| && (groups[j].sender == a || groups[j].receiver == a);
        if j < n {
          assert groups[..n][j] == groups[j];
        }
      }
    }
  }

  lemma TouchedExactly(trxs: seq<Trx>, date: int, groups: seq<Group>)
    requires Grouping(trxs, date, groups)
    ensures forall a :: a in Touched(groups) <==>
              exists i :: 0 <= i < |trxs| && Selected(trxs[i], date) && (trxs[i].sender == a || trxs[i].receiver == a)
  {
    forall a
      ensures a in Touched(groups) <==>
                exists i :: 0 <= i < |trxs| && Selected(trxs[i], date) && (trxs[i].sender == a || trxs[i].receiver == a)
    {
      TouchedByGroups(groups, a);
    }
  }

  /** The grouped effect, restricted to pairs that a list of groups names. */
  lemma {:induction false} GroupsOfPrefix(trxs: seq<Trx>, date: int, groups: seq<Group>, a: Account)
    requires trxs != []
    requires forall i, j :: 0 <= i < j < |groups| ==>
               !(groups[i].sender == groups[j].sender && groups[i].receiver == groups[j].receiver)
    ensures var t := trxs[|trxs| - 1];
            Resummed(trxs, date, groups, a) == Resummed(trxs[..|trxs| - 1], date, groups, a) +
              if Selected(t, date) && (exists j :: 0 <= j < |groups| && groups[j].sender == t.sender && groups[j].receiver == t.receiver)
              then Effect(t.sender, t.receiver, t.amount, a) else 0.0
  {
    if groups != [] {
      var n, t := |groups| - 1, trxs[|trxs| - 1];
      GroupsOfPrefix(trxs, date, groups[..n], a);
      if exists j :: 0 <= j < |groups| && groups[j].sender == t.sender && groups[j].receiver == t.receiver {
        var j :| 0 <= j < |groups| && groups[j].sender == t.sender && groups[j].receiver == t.receiver;
        if j < n {
          assert groups[..n][j] == groups[j];
        }
      }
    }
  }

  /** The groups' effect with every amount recomputed from the transactions. */
  function Resummed(trxs: seq<Trx>, date: int, groups: seq<Group>, a: Account): real {
    if groups == [] then 0.0
    else
      var g := groups[|groups| - 1];
      Resummed(trxs, date, groups[..|groups| - 1], a) +
      Effect(g.sender, g.receiver, PairSum(trxs, date, g.sender, g.receiver), a)
  }

  lemma {:induction false} ResummedIsGroups(trxs: seq<Trx>, date: int, groups: seq<Group>, a: Account)
    requires forall i :: 0 <= i < |groups| ==> groups[i].amount == PairSum(trxs, date, groups[i].sender, groups[i].receiver)
    ensures Resummed(trxs, date, groups, a) == FromGroups(groups, a)
  {
    if groups != [] {
      ResummedIsGroups(trxs, date, groups[..|groups| - 1], a);
    }
  }

  lemma {:induction false} ResummedOfNothing(date: int, groups: seq<Group>, a: Account)
    ensures Resummed([], date, groups, a) == 0.0
  {
    if groups != [] {
      ResummedOfNothing(date, groups[..|groups| - 1], a);
    }
  }

  lemma {:induction false} ResummedReplays(trxs: seq<Trx>, date: int, groups: seq<Group>, a: Account)
    requires forall i, j :: 0 <= i < j < |groups| ==>
               !(groups[i].sender == groups[j].sender && groups[i].receiver == groups[j].receiver)
    requires forall i :: 0 <= i < |trxs| && Selected(trxs[i], date) ==>
               exists j :: 0 <= j < |groups| && groups[j].sender == trxs[i].sender && groups[j].receiver == trxs[i].receiver
    ensures Resummed(trxs, date, groups, a) == Replayed(trxs, date, a)
  {
    if trxs == [] {
      ResummedOfNothing(date, groups, a);
    } else {
      var n := |trxs| - 1;
      assert forall i :: 0 <= i < n ==> trxs[..n][i] == trxs[i];
      ResummedReplays(trxs[..n], date, groups, a);
      GroupsOfPrefix(trxs, date, groups, a);
    }
  }

  lemma GroupsReplay(trxs: seq<Trx>, date: int, groups: seq<Group>, a: Account)
    requires Grouping(trxs, date, groups)
    ensures FromGroups(groups, a) == Replayed(trxs, date, a)
  {
    ResummedReplays(trxs, date, groups, a);
    ResummedIsGroups(trxs, date, groups, a);
  }

  // ----- credits and debits -----

  /** What the account received in IRT up to the date. */
  function Received(trxs: seq<Trx>, date: int, a: Account): real {
    if trxs == [] then 0.0
    else
      var t := trxs[|trxs| - 1];
      Received(trxs[..|trxs| - 1], date, a) + if t.receiver == a && t.asset == "IRT" && t.created <= date then t.amount else 0.0
  }

  function Sent(trxs: seq<Trx>, date: int, a: Account): real {
    if trxs == [] then 0.0
    else
      var t := trxs[|trxs| - 1];
      Sent(trxs[..|trxs| - 1], date, a) + if t.sender == a && t.asset == "IRT" && t.created <= date then t.amount else 0.0
  }

  /** A balance is what came in less what went out. */
  lemma {:induction false} BalanceIsReceivedLessSent(trxs: seq<Trx>, date: int, a: Account)
    ensures Replayed(trxs, date, a) == Received(trxs, date, a) - Sent(trxs, date, a)
  {
    if trxs != [] {
      BalanceIsReceivedLessSent(trxs[..|trxs| - 1], date, a);
    }
  }

  // ----- conservation and dates -----

  function Total(accounts: seq<Account>, trxs: seq<Trx>, date: int): real {
    if accounts == [] then 0.0
    else Total(accounts[..|accounts| - 1], trxs, date) + Replayed(trxs, date, accounts[|accounts| - 1])
  }

  function EffectTotal(accounts: seq<Account>, t: Trx): real {
    if accounts == [] then 0.0
    else EffectTotal(accounts[..|accounts| - 1], t) + Effect(t.sender, t.receiver, t.amount, accounts[|accounts| - 1])
  }

  ghost predicate Distinct(s: seq<Account>) {
    forall i, j :: 0 <= i < j < |s| ==> s[i] != s[j]
  }

  lemma {:induction false} EffectTotalValue(accounts: seq<Account>, t: Trx)
    requires Distinct(accounts)
    ensures EffectTotal(accounts, t) == (if t.receiver in accounts then t.amount else 0.0) - (if t.sender in accounts then t.amount else 0.0)
  {
    if accounts != [] {
      var init, last := accounts[..|accounts| - 1], accounts[|accounts| - 1];
      EffectTotalValue(init, t);
      assert accounts == init + [last] && last !in init;
    }
  }

  lemma {:induction false} TotalStep(accounts: seq<Account>, trxs: seq<Trx>, date: int)
    requires trxs != []
    ensures Total(accounts, trxs, date) == Total(accounts, trxs[..|trxs| - 1], date) +
              if Selected(trxs[|trxs| - 1], date) then EffectTotal(accounts, trxs[|trxs| - 1]) else 0.0
  {
    if accounts != [] {
      TotalStep(accounts[..|accounts| - 1], trxs, date);
    }
  }

  lemma {:induction false} TotalOfNothing(accounts: seq<Account>, date: int)
    ensures Total(accounts, [], date) == 0.0
  {
    if accounts != [] {
      TotalOfNothing(accounts[..|accounts| - 1], date);
    }
  }

  /** Double entry: over all accounts that move, the balances cancel, whatever the amounts. */
  lemma {:induction false} BalancesCancel(accounts: seq<Account>, trxs: seq<Trx>, date: int)
    requires Distinct(accounts)
    requires forall i :: 0 <= i < |trxs| && Selected(trxs[i], date) ==> trxs[i].sender in accounts && trxs[i].receiver in accounts
    ensures Total(accounts, trxs, date) == 0.0
  {
    if trxs == [] {
      TotalOfNothing(accounts, date);
    } else {
      BalancesCancel(accounts, trxs[..|trxs| - 1], date);
      TotalStep(accounts, trxs, date);
      EffectTotalValue(accounts, trxs[|trxs| - 1]);
    }
  }

  /** The net movement of an account after `from` and up to `to`. */
  function Net(trxs: seq<Trx>, from: int, to: int, a: Account): real {
    if trxs == [] then 0.0
    else
      var t := trxs[|trxs| - 1];
      Net(trxs[..|trxs| - 1], from, to, a) +
      if from < t.created && Selected(t, to) then Effect(t.sender, t.receiver, t.amount, a) else 0.0
  }

  /** A later report is the earlier one plus the movements between. */
  lemma {:induction false} LaterReport(trxs: seq<Trx>, from: int, to: int, a: Account)
    requires from <= to
    ensures Replayed(trxs, to, a) == Replayed(trxs, from, a) + Net(trxs, from, to, a)
  {
    if trxs != [] {
      LaterReport(trxs[..|trxs| - 1], from, to, a);
    }
  }
}
