/** `process_bulk_notifications` (accounts/tasks/notification.py): a batch job with one worker
    that may die between any two database writes and is started again later. */
module BulkNotifications {

  datatype Notification = Notification(recipient: nat, groupId: nat)

  datatype Bulk = Bulk(groupId: nat, done: bool)

  datatype Tables = Tables(rows: seq<Notification>, bulks: seq<Bulk>)

  /** The job flushes its buffer when it holds more than 1000 notifications. */
  const BATCH: nat := 1001

  ghost predicate Distinct<T>(s: seq<T>) {
    forall i, j :: 0 <= i < j < |s| ==> s[i] != s[j]
  }

  /** The users of the snapshot that have no notification of the group yet. */
  function Unsent(rows: seq<Notification>, groupId: nat, users: seq<nat>): (unsent: seq<nat>) {
    if users == [] then []
    else
      var before := Unsent(rows, groupId, users[..|users| - 1]);
      var u := users[|users| - 1];
      if Notification(u, groupId) in rows then before else before + [u]
  }

  function Addressed(users: seq<nat>, groupId: nat): (rows: seq<Notification>)
    ensures |rows| == |users|
  {
    seq(|users|, k requires 0 <= k < |users| => Notification(users[k], groupId))
  }

  function Batches(n: nat): nat {
    (n + BATCH - 1) / BATCH
  }

  /** How many of `n` notifications the first `writes` inserts store. */
  function Stored(n: nat, writes: nat): (m: nat)
    ensures m <= n
  {
    if writes * BATCH <= n then writes * BATCH else n
  }

  /** Handling bulk `k` with at most `budget` writes before the worker dies. */
  function Process(t: Tables, k: nat, users: seq<nat>, budget: nat): Tables
    requires k < |t.bulks|
  {
    var g := t.bulks[k].groupId;
    var unsent := Unsent(t.rows, g, users);
    Tables(t.rows + Addressed(unsent[..Stored(|unsent|, budget)], g),
           if budget > Batches(|unsent|) then t.bulks[k := Bulk(g, true)] else t.bulks)
  }

  /** Writes left after bulk `k`; the worker is dead when none was left for the DONE mark. */
  function Remaining(t: Tables, k: nat, users: seq<nat>, budget: nat): int
    requires k < |t.bulks|
  {
    budget - Batches(|Unsent(t.rows, t.bulks[k].groupId, users)|) - 1
  }

  /** One run over the bulks from `k` on, with the user table as each bulk finds it. */
  function RunFrom(t: Tables, k: nat, snapshots: seq<seq<nat>>, budget: nat): (t': Tables)
    requires k <= |t.bulks| == |snapshots|
    ensures |t'.bulks| == |t.bulks|
    decreases |t.bulks| - k
  {
    if k == |t.bulks| then t
    else if t.bulks[k].done then RunFrom(t, k + 1, snapshots, budget)
    else
      var left := Remaining(t, k, snapshots[k], budget);
      var t' := Process(t, k, snapshots[k], budget);
      if left < 0 then t' else RunFrom(t', k + 1, snapshots, left)
  }

  lemma {:induction false} UnsentPrefix(rows: seq<Notification>, groupId: nat, users: seq<nat>, n: nat)
    requires n <= |users|
    ensures Unsent(rows, groupId, users[..n]) <= Unsent(rows, groupId, users)
  {
    if n < |users| {
      assert users[..|users| - 1][..n] == users[..n];
      UnsentPrefix(rows, groupId, users[..|users| - 1], n);
    } else {
      assert users[..n] == users;
    }
  }

  /** After `writes` full batches of the unsent users seen so far, the rest waits in the buffer. */
  ghost predicate Buffered(sent: seq<Notification>, seen: seq<nat>, writes: nat, rows: seq<Notification>,
                           notifs: seq<Notification>, groupId: nat) {
    && |seen| == writes * BATCH + |notifs|
    && rows == sent + Addressed(seen[..writes * BATCH], groupId)
    && notifs == Addressed(seen[writes * BATCH..], groupId)
  }

  lemma BufferMore(sent: seq<Notification>, seen: seq<nat>, writes: nat, rows: seq<Notification>,
                   notifs: seq<Notification>, groupId: nat, u: nat)
    requires Buffered(sent, seen, writes, rows, notifs, groupId)
    ensures Buffered(sent, seen + [u], writes, rows, notifs + [Notification(u, groupId)], groupId)
  {
    var from := writes * BATCH;
    assert (seen + [u])[..from] == seen[..from] && (seen + [u])[from..] == seen[from..] + [u];
  }

  lemma BufferAll(sent: seq<Notification>, seen: seq<nat>, writes: nat, rows: seq<Notification>,
                  notifs: seq<Notification>, groupId: nat)
    requires Buffered(sent, seen, writes, rows, notifs, groupId)
    ensures rows + notifs == sent + Addressed(seen, groupId)
  {
    assert seen[..writes * BATCH] + seen[writes * BATCH..] == seen;
  }

  lemma BufferFlush(sent: seq<Notification>, seen: seq<nat>, writes: nat, rows: seq<Notification>,
                    notifs: seq<Notification>, groupId: nat)
    requires Buffered(sent, seen, writes, rows, notifs, groupId) && |notifs| == BATCH
    ensures Buffered(sent, seen, writes + 1, rows + notifs, [], groupId)
  {
    BufferAll(sent, seen, writes, rows, notifs, groupId);
    assert |seen| == (writes + 1) * BATCH;
    assert seen[..|seen|] == seen && seen[|seen|..] == [];
  }

  /** Dying with something in the buffer leaves exactly what the writes could store. */
  lemma BufferLost(sent: seq<Notification>, seen: seq<nat>, writes: nat, rows: seq<Notification>,
                   notifs: seq<Notification>, groupId: nat, unsent: seq<nat>)
    requires Buffered(sent, seen, writes, rows, notifs, groupId) && notifs != [] && seen <= unsent
    ensures rows == sent + Addressed(unsent[..Stored(|unsent|, writes)], groupId)
    ensures writes < Batches(|unsent|)
  {
    assert unsent[..writes * BATCH] == seen[..writes * BATCH];
  }

  class NotificationStore {
    var rows: seq<Notification>
    var bulks: seq<Bulk>

    constructor ()
      ensures rows == [] && bulks == []
    {
      rows, bulks := [], [];
    }

    function Snapshot(): Tables
      reads this
    {
      Tables(rows, bulks)
    }

    /** The loop over users for one bulk. `left` is negative when the worker died. */
    method ProcessOne(k: nat, users: seq<nat>, budget: nat) returns (left: int)
      requires k < |bulks|
      modifies this
      ensures Snapshot() == Process(old(Snapshot()), k, users, budget)
      ensures left < 0 <==> Remaining(old(Snapshot()), k, users, budget) < 0
      ensures left >= 0 ==> left == Remaining(old(Snapshot()), k, users, budget)
    {
      var groupId := bulks[k].groupId;
      var sent := rows;
      ghost var unsent := Unsent(sent, groupId, users);
      var notifs: seq<Notification> := [];
      var writes := 0;
      for n := 0 to |users|
        invariant bulks == old(bulks) && writes <= budget && |notifs| < BATCH
        invariant Buffered(sent, Unsent(sent, groupId, users[..n]), writes, rows, notifs, groupId)
      {
        ghost var seen := Unsent(sent, groupId, users[..n]);
        assert users[..n + 1][..n] == users[..n];
        UnsentPrefix(sent, groupId, users, n + 1);
        if Notification(users[n], groupId) !in sent {
          BufferMore(sent, seen, writes, rows, notifs, groupId, users[n]);
          notifs := notifs + [Notification(users[n], groupId)];
          if |notifs| > 1000 {
            if writes == budget {
              BufferLost(sent, seen + [users[n]], writes, rows, notifs, groupId, unsent);
              return -1;
            }
            BufferFlush(sent, seen + [users[n]], writes, rows, notifs, groupId);
            rows := rows + notifs;
            notifs := [];
            writes := writes + 1;
          }
        }
      }
      assert users[..|users|] == users;
      BufferAll(sent, unsent, writes, rows, notifs, groupId);
      if notifs != [] {
        if writes == budget {
          BufferLost(sent, unsent, writes, rows, notifs, groupId, unsent);
          return -1;
        }
        rows := rows + notifs;
        writes := writes + 1;
      }
      assert writes == Batches(|unsent|) && unsent[..|unsent|] == unsent;
      if writes == budget {
        return -1;
      }
      bulks := bulks[k := Bulk(groupId, true)];
      left := budget - writes - 1;
    }

    /** One run of the job. */
    method ProcessBulkNotifications(snapshots: seq<seq<nat>>, budget: nat)
      requires |snapshots| == |bulks|
      modifies this
      ensures Snapshot() == RunFrom(old(Snapshot()), 0, snapshots, budget)
    {
      var left := budget;
      for k := 0 to |bulks|
        invariant |bulks| == |old(bulks)| && left >= 0
        invariant RunFrom(old(Snapshot()), 0, snapshots, budget) == RunFrom(Snapshot(), k, snapshots, left)
      {
        if !bulks[k].done {
          left := ProcessOne(k, snapshots[k], left);
          if left < 0 {
            return;
          }
        }
      }
    }
  }

  // ----- what one run does -----

  /** With `budget` writes left, a pending bulk gets the first 1001 * budget of the users not yet
      addressed, in the order of the snapshot, or all of them; it is marked DONE only with a write to
      spare after the last batch. */
  lemma ProcessOutcome(t: Tables, k: nat, users: seq<nat>, budget: nat)
    requires k < |t.bulks|
    ensures var t', g := Process(t, k, users, budget), t.bulks[k].groupId;
            var unsent := Unsent(t.rows, g, users);
            var stored := if 1001 * budget < |unsent| then 1001 * budget else |unsent|;
            && |t'.rows| == |t.rows| + stored && t.rows <= t'.rows
            && (forall i :: 0 <= i < stored ==> t'.rows[|t.rows| + i] == Notification(unsent[i], g))
            && t'.bulks == if budget > 0 && 1001 * (budget - 1) >= |unsent| then t.bulks[k := Bulk(g, true)] else t.bulks
  {
  }

  /** The users not yet addressed keep the order of the snapshot. */
  lemma {:induction false} UnsentInOrder(rows: seq<Notification>, groupId: nat, a: seq<nat>, u: nat, b: seq<nat>)
    ensures Unsent(rows, groupId, a + [u] + b) ==
            Unsent(rows, groupId, a) + (if Notification(u, groupId) in rows then [] else [u]) + Unsent(rows, groupId, b)
    decreases |b|
  {
    if b == [] {
      assert a + [u] + b == a + [u] && (a + [u])[..|a|] == a;
    } else {
      var n := |b| - 1;
      var all := a + [u] + b;
      assert all[..|all| - 1] == a + [u] + b[..n];
      UnsentInOrder(rows, groupId, a, u, b[..n]);
    }
  }

  /** Writes that suffice for a pending bulk at any point of the run. */
  function Suffices(snapshots: seq<seq<nat>>): nat {
    if snapshots == [] then 0 else Batches(|snapshots[0]|) + 1 + Suffices(snapshots[1..])
  }

  lemma {:induction false} UnsentFewer(rows: seq<Notification>, groupId: nat, users: seq<nat>)
    ensures |Unsent(rows, groupId, users)| <= |users|
  {
    if users != [] {
      UnsentFewer(rows, groupId, users[..|users| - 1]);
    }
  }

  lemma BatchesMonotone(m: nat, n: nat)
    requires m <= n
    ensures Batches(m) <= Batches(n)
  {
  }

  lemma SufficesStep(snapshots: seq<seq<nat>>, k: nat)
    requires k < |snapshots|
    ensures Suffices(snapshots[k..]) == Batches(|snapshots[k]|) + 1 + Suffices(snapshots[k + 1..])
  {
    assert snapshots[k..][0] == snapshots[k] && snapshots[k..][1..] == snapshots[k + 1..];
  }

  /** A bulk costs at most the batches of its whole snapshot and the mark; short of its own cost it
      stays pending. */
  lemma CostOfOne(t: Tables, k: nat, users: seq<nat>, budget: nat)
    requires k < |t.bulks|
    ensures Remaining(t, k, users, budget) >= budget - Batches(|users|) - 1
    ensures Process(t, k, users, budget).bulks ==
            if Remaining(t, k, users, budget) >= 0 then t.bulks[k := Bulk(t.bulks[k].groupId, true)] else t.bulks
  {
    UnsentFewer(t.rows, t.bulks[k].groupId, users);
    BatchesMonotone(|Unsent(t.rows, t.bulks[k].groupId, users)|, |users|);
  }

  /** A run whose worker does not run out of writes leaves no bulk pending; one that does handles bulks
      in order, all before the one it died at and none after. */
  lemma {:induction false} RunFinishes(t: Tables, k: nat, snapshots: seq<seq<nat>>, budget: nat) returns (m: nat)
    requires k <= |t.bulks| == |snapshots|
    ensures k <= m <= |snapshots| && (budget >= Suffices(snapshots[k..]) ==> m == |snapshots|)
    ensures var t' := RunFrom(t, k, snapshots, budget);
            && (forall j :: k <= j < m ==> t'.bulks[j].done)
            && (m < |snapshots| ==> !t'.bulks[m].done)
            && (forall j :: 0 <= j < |snapshots| && !(k <= j < m) ==> t'.bulks[j] == t.bulks[j])
    decreases |t.bulks| - k
  {
    m := k;
    if k < |t.bulks| {
      SufficesStep(snapshots, k);
      if t.bulks[k].done {
        m := RunFinishes(t, k + 1, snapshots, budget);
        assert RunFrom(t, k, snapshots, budget).bulks[k] == t.bulks[k];
      } else {
        CostOfOne(t, k, snapshots[k], budget);
        var left, t1 := Remaining(t, k, snapshots[k], budget), Process(t, k, snapshots[k], budget);
        if left >= 0 {
          m := RunFinishes(t1, k + 1, snapshots, left);
          assert RunFrom(t, k, snapshots, budget).bulks[k] == t1.bulks[k];
        }
      }
    }
  }

  // ----- what one run keeps -----

  lemma {:induction false} UnsentExact(rows: seq<Notification>, groupId: nat, users: seq<nat>)
    requires Distinct(users)
    ensures Distinct(Unsent(rows, groupId, users))
    ensures forall u :: u in Unsent(rows, groupId, users) <==> u in users && Notification(u, groupId) !in rows
  {
    if users != [] {
      var init, last := users[..|users| - 1], users[|users| - 1];
      UnsentExact(rows, groupId, init);
      assert users == init + [last];
      assert last !in init;
    }
  }

  lemma AppendDistinct(rows: seq<Notification>, groupId: nat, users: seq<nat>)
    requires Distinct(rows) && Distinct(users)
    requires forall u :: u in users ==> Notification(u, groupId) !in rows
    ensures Distinct(rows + Addressed(users, groupId))
  {
    var added := Addressed(users, groupId);
    var all := rows + added;
    forall i, j | 0 <= i < j < |all| ensures all[i] != all[j] {
      if i < |rows| <= j {
        assert users[j - |rows|] in users;
        assert all[i] in rows;
      }
    }
  }

  /** Everybody in the snapshot has a notification of the group. */
  ghost predicate Covered(rows: seq<Notification>, groupId: nat, users: seq<nat>) {
    forall u :: u in users ==> Notification(u, groupId) in rows
  }

  lemma ProcessKeeps(t: Tables, k: nat, users: seq<nat>, budget: nat)
    requires k < |t.bulks| && Distinct(t.rows) && Distinct(users)
    ensures var t' := Process(t, k, users, budget);
            Distinct(t'.rows) && t.rows <= t'.rows &&
            (Remaining(t, k, users, budget) >= 0 ==> Covered(t'.rows, t.bulks[k].groupId, users)) &&
            (t'.bulks == if Remaining(t, k, users, budget) >= 0 then t.bulks[k := Bulk(t.bulks[k].groupId, true)] else t.bulks)
  {
    var g := t.bulks[k].groupId;
    var unsent := Unsent(t.rows, g, users);
    UnsentExact(t.rows, g, users);
    var stored := unsent[..Stored(|unsent|, budget)];
    assert forall u :: u in stored ==> u in unsent;
    AppendDistinct(t.rows, g, stored);
    var t' := Process(t, k, users, budget);
    if budget > Batches(|unsent|) {
      assert stored == unsent;
      forall u | u in users ensures Notification(u, g) in t'.rows {
        if Notification(u, g) !in t.rows {
          var i :| 0 <= i < |unsent| && unsent[i] == u;
          assert t'.rows[|t.rows| + i] == Notification(u, g);
        }
      }
    }
  }

  /** Bulks are only ever marked, and marking one means that its snapshot is covered. */
  ghost predicate Progress(t: Tables, t': Tables, snapshots: seq<seq<nat>>)
    requires |t.bulks| == |snapshots|
  {
    && |t'.bulks| == |t.bulks| && t.rows <= t'.rows
    && (forall j :: 0 <= j < |t.bulks| ==> t'.bulks[j].groupId == t.bulks[j].groupId)
    && (forall j :: 0 <= j < |t.bulks| && t.bulks[j].done ==> t'.bulks[j].done)
    && (forall j :: 0 <= j < |t.bulks| && !t.bulks[j].done && t'.bulks[j].done ==>
          Covered(t'.rows, t.bulks[j].groupId, snapshots[j]))
  }

  lemma CoveredLater(rows: seq<Notification>, rows': seq<Notification>, groupId: nat, users: seq<nat>)
    requires Covered(rows, groupId, users) && rows <= rows'
    ensures Covered(rows', groupId, users)
  {
    forall u | u in users ensures Notification(u, groupId) in rows' {
      var i :| 0 <= i < |rows| && rows[i] == Notification(u, groupId);
      assert rows'[i] == rows[i];
    }
  }

  lemma {:induction false} RunKeeps(t: Tables, k: nat, snapshots: seq<seq<nat>>, budget: nat)
    requires k <= |t.bulks| == |snapshots| && Distinct(t.rows)
    requires forall j :: 0 <= j < |snapshots| ==> Distinct(snapshots[j])
    ensures Distinct(RunFrom(t, k, snapshots, budget).rows)
    ensures Progress(t, RunFrom(t, k, snapshots, budget), snapshots)
    decreases |t.bulks| - k
  {
    if k < |t.bulks| {
      if t.bulks[k].done {
        RunKeeps(t, k + 1, snapshots, budget);
      } else {
        var left, t1 := Remaining(t, k, snapshots[k], budget), Process(t, k, snapshots[k], budget);
        ProcessKeeps(t, k, snapshots[k], budget);
        if left >= 0 {
          RunKeeps(t1, k + 1, snapshots, left);
          var t' := RunFrom(t, k, snapshots, budget);
          CoveredLater(t1.rows, t'.rows, t.bulks[k].groupId, snapshots[k]);
        }
      }
    }
  }

  // ----- every history of runs -----

  datatype Event = Announce(groupId: nat) | Work(snapshots: seq<seq<nat>>, budget: nat)

  function Apply(t: Tables, e: Event): (t': Tables)
    ensures |t'.bulks| >= |t.bulks|
  {
    match e
    case Announce(g) => t.(bulks := t.bulks + [Bulk(g, false)])
    case Work(snapshots, budget) => if |snapshots| == |t.bulks| then RunFrom(t, 0, snapshots, budget) else t
  }

  function Replay(h: seq<Event>): Tables {
    if h == [] then Tables([], []) else Apply(Replay(h[..|h| - 1]), h[|h| - 1])
  }

  /** A snapshot of the user table names every user once. */
  ghost predicate ProperSnapshots(h: seq<Event>) {
    forall k, j :: 0 <= k < |h| && h[k].Work? && 0 <= j < |h[k].snapshots| ==> Distinct(h[k].snapshots[j])
  }

  lemma ProperPrefix(h: seq<Event>, n: nat)
    requires ProperSnapshots(h) && n <= |h|
    ensures ProperSnapshots(h[..n])
  {
    forall k, j | 0 <= k < n && h[..n][k].Work? && 0 <= j < |h[..n][k].snapshots|
      ensures Distinct(h[..n][k].snapshots[j])
    {
      assert h[..n][k] == h[k];
    }
  }

  lemma {:induction false} NoDuplicates(h: seq<Event>)
    requires ProperSnapshots(h)
    ensures Distinct(Replay(h).rows)
  {
    if h != [] {
      var n := |h| - 1;
      ProperPrefix(h, n);
      NoDuplicates(h[..n]);
      var t := Replay(h[..n]);
      if h[n].Work? && |h[n].snapshots| == |t.bulks| {
        RunKeeps(t, 0, h[n].snapshots, h[n].budget);
      }
    }
  }

  lemma {:induction false} RowsOnlyGrow(h: seq<Event>, r: nat)
    requires ProperSnapshots(h) && r <= |h|
    ensures Replay(h[..r]).rows <= Replay(h).rows
    decreases |h| - r
  {
    if r == |h| {
      assert h[..r] == h;
    } else {
      RowsOnlyGrow(h, r + 1);
      assert h[..r + 1][..r] == h[..r];
      ProperPrefix(h, r);
      NoDuplicates(h[..r]);
      var t := Replay(h[..r]);
      if h[r].Work? && |h[r].snapshots| == |t.bulks| {
        RunKeeps(t, 0, h[r].snapshots, h[r].budget);
      }
    }
  }

  lemma {:induction false} DistinctMultiplicity(rows: seq<Notification>, x: Notification)
    requires Distinct(rows)
    ensures multiset(rows)[x] == if x in rows then 1 else 0
  {
    if rows != [] {
      var init := rows[..|rows| - 1];
      DistinctMultiplicity(init, x);
      assert rows == init + [rows[|rows| - 1]];
      assert multiset(rows) == multiset(init) + multiset{rows[|rows| - 1]};
    }
  }

  /** However often the worker died, nobody has two notifications of one group. */
  lemma NeverTwice(h: seq<Event>, user: nat, groupId: nat)
    requires ProperSnapshots(h)
    ensures multiset(Replay(h).rows)[Notification(user, groupId)] <= 1
  {
    NoDuplicates(h);
    DistinctMultiplicity(Replay(h).rows, Notification(user, groupId));
  }

  /** If run `r` of the history marks bulk `k` DONE, every user of the snapshot it worked from has
      exactly one notification of the group, then and ever after. */
  lemma DoneMeansExactlyOne(h: seq<Event>, r: nat, k: nat, user: nat)
    requires ProperSnapshots(h) && r < |h| && h[r].Work?
    requires |h[r].snapshots| == |Replay(h[..r]).bulks| && k < |h[r].snapshots|
    requires !Replay(h[..r]).bulks[k].done && Apply(Replay(h[..r]), h[r]).bulks[k].done
    requires user in h[r].snapshots[k]
    ensures multiset(Replay(h).rows)[Notification(user, Replay(h[..r]).bulks[k].groupId)] == 1
  {
    var t := Replay(h[..r]);
    assert h[..r + 1][..r] == h[..r];
    ProperPrefix(h, r);
    NoDuplicates(h[..r]);
    RunKeeps(t, 0, h[r].snapshots, h[r].budget);
    RowsOnlyGrow(h, r + 1);
    CoveredLater(Replay(h[..r + 1]).rows, Replay(h).rows, t.bulks[k].groupId, h[r].snapshots[k]);
    NoDuplicates(h);
    DistinctMultiplicity(Replay(h).rows, Notification(user, t.bulks[k].groupId));
  }

  /** And a worker that is given enough writes does finish. */
  lemma EnoughWritesFinish(t: Tables, k: nat, users: seq<nat>, budget: nat)
    requires k < |t.bulks|
    ensures Process(t, k, users, budget).bulks[k].done <==>
              t.bulks[k].done || budget >= Batches(|Unsent(t.rows, t.bulks[k].groupId, users)|) + 1
  {
  }
}
