/** `PeriodicFetcher` (accounting/models/periodic_fetcher.py) as a state machine over its
    persistent cursor, together with the income table its fetcher fills
    (accounting/tasks/provider.py). Times are integers in one fixed unit. */
module Fetching {
  import opened Options

  datatype Income = Income(tranId: string, symbol: string, kind: string, date: int, income: real, coin: string)

  /** One reading of the clock: now, and the last local midnight. */
  datatype Clock = Clock(now: int, midnight: int) {
    ghost predicate Valid() { midnight <= now }
  }

  /** How one call of the fetcher goes. Rows are inserted one by one; a `FetchError` or a crash
      leaves only `rows` behind, a complete call inserts its whole answer. */
  datatype Outcome = Fetched | FetchError | Crash

  datatype Attempt = Attempt(clock: Clock, rows: seq<Income>, outcome: Outcome)

  /** A confirmed range, what the provider had answered for it, and the clock reading it came from. */
  datatype Confirmed = Confirmed(name: string, start: int, end: int, answer: seq<Income>, reading: Clock)

  /** The two tables; `log` is a history of confirmations that no code reads. */
  datatype Store = Store(cursors: map<string, int>, incomes: seq<Income>, log: seq<Confirmed>)

  /** `UpToDate`, `Failed` and `Crashed` end a call early; `Exhausted` means all iterations were used. */
  datatype Ended = Exhausted | UpToDate | Failed | Crashed

  function NextStart(cursors: map<string, int>, name: string, interval: int, clock: Clock): int {
    if name in cursors then cursors[name] else clock.midnight - interval
  }

  function GetNextRange(cursors: map<string, int>, name: string, interval: int, clock: Clock): Option<(int, int)> {
    var start := NextStart(cursors, name, interval, clock);
    if start + interval <= clock.now then Some((start, start + interval)) else None
  }

  predicate Recorded(incomes: seq<Income>, tranId: string) {
    exists k :: 0 <= k < |incomes| && incomes[k].tranId == tranId
  }

  /** `get_or_create(tran_id=...)` for each row of an answer. */
  function InsertNew(incomes: seq<Income>, rows: seq<Income>): seq<Income> {
    if rows == [] then incomes
    else
      var before := InsertNew(incomes, rows[..|rows| - 1]);
      var row := rows[|rows| - 1];
      if Recorded(before, row.tranId) then before else before + [row]
  }

  /** One loop iteration. `None` means that the loop goes on. */
  function Step(s: Store, name: string, interval: int, a: Attempt): (Store, Option<Ended>) {
    match GetNextRange(s.cursors, name, interval, a.clock)
    case None => (s, Some(UpToDate))
    case Some((start, end)) =>
      var fetched := s.(incomes := InsertNew(s.incomes, a.rows));
      match a.outcome
      case FetchError => (fetched, Some(Failed))
      case Crash => (fetched, Some(Crashed))
      case Fetched =>
        (fetched.(cursors := s.cursors[name := end],
                  log := s.log + [Confirmed(name, start, end, a.rows, a.clock)]), None)
  }

  /** One call of `repetitive_fetch`. Running out of attempts early means that the process died
      between two iterations. */
  function RepetitiveFetch(s: Store, name: string, interval: int, iterations: nat, script: seq<Attempt>): (Store, Ended)
    decreases iterations
  {
    if iterations == 0 then (s, Exhausted)
    else if script == [] then (s, Crashed)
    else
      var (s', ended) := Step(s, name, interval, script[0]);
      if ended.Some? then (s', ended.value)
      else RepetitiveFetch(s', name, interval, iterations - 1, script[1..])
  }

  // ----- invariants -----

  function Ranges(log: seq<Confirmed>, name: string): (ranges: seq<Confirmed>)
    ensures forall k :: 0 <= k < |ranges| ==> ranges[k] in log && ranges[k].name == name
  {
    if log == [] then []
    else
      var e := log[|log| - 1];
      var before := Ranges(log[..|log| - 1], name);
      if e.name == name then before + [e] else before
  }

  lemma RangesAppend(log: seq<Confirmed>, e: Confirmed, name: string)
    ensures Ranges(log + [e], name) == if e.name == name then Ranges(log, name) + [e] else Ranges(log, name)
  {
    assert (log + [e])[..|log|] == log;
  }

  /** Consecutive ranges of one width, the last one ending at the cursor. */
  ghost predicate Consecutive(ranges: seq<Confirmed>, interval: int) {
    && (forall k :: 0 <= k < |ranges| ==> ranges[k].end == ranges[k].start + interval)
    && (forall k :: 0 <= k < |ranges| - 1 ==> ranges[k + 1].start == ranges[k].end)
  }

  ghost predicate Tiled(s: Store, interval: int, name: string) {
    var ranges := Ranges(s.log, name);
    && Consecutive(ranges, interval)
    && (ranges != [] ==> name in s.cursors && s.cursors[name] == ranges[|ranges| - 1].end)
  }

  ghost predicate ExactlyOnce(incomes: seq<Income>) {
    forall j, k :: 0 <= j < k < |incomes| ==> incomes[j].tranId != incomes[k].tranId
  }

  ghost predicate Complete(s: Store) {
    forall k, r :: 0 <= k < |s.log| && r in s.log[k].answer ==> Recorded(s.incomes, r.tranId)
  }

  /** No confirmed range reaches past a time that the clock has shown by `now`. */
  ghost predicate NoneAhead(s: Store, now: int) {
    forall k :: 0 <= k < |s.log| ==> s.log[k].end <= s.log[k].reading.now <= now
  }

  ghost predicate Inv(s: Store, interval: int, now: int) {
    && (forall name :: Tiled(s, interval, name))
    && ExactlyOnce(s.incomes)
    && Complete(s)
    && NoneAhead(s, now)
  }

  /** Valid readings that never go back, starting from `now`. */
  ghost predicate ClockFrom(script: seq<Attempt>, now: int) {
    && (forall k :: 0 <= k < |script| ==> script[k].clock.Valid() && now <= script[k].clock.now)
    && (forall j, k :: 0 <= j < k < |script| ==> script[j].clock.now <= script[k].clock.now)
  }

  function LastReading(script: seq<Attempt>, now: int): int {
    if script == [] then now else script[|script| - 1].clock.now
  }

  // ----- the income table -----

  lemma {:induction false} InsertNewProperties(incomes: seq<Income>, rows: seq<Income>)
    requires ExactlyOnce(incomes)
    ensures ExactlyOnce(InsertNew(incomes, rows))
    ensures incomes <= InsertNew(incomes, rows)
    ensures forall r :: r in rows ==> Recorded(InsertNew(incomes, rows), r.tranId)
    ensures forall id :: Recorded(incomes, id) ==> Recorded(InsertNew(incomes, rows), id)
  {
    if rows != [] {
      var init, row := rows[..|rows| - 1], rows[|rows| - 1];
      InsertNewProperties(incomes, init);
      var before, after := InsertNew(incomes, init), InsertNew(incomes, rows);
      if !Recorded(before, row.tranId) {
        assert after[|before|] == row;
      }
      forall id | Recorded(before, id) ensures Recorded(after, id) {
        var k :| 0 <= k < |before| && before[k].tranId == id;
        assert after[k] == before[k];
      }
      forall r | r in rows ensures Recorded(after, r.tranId) {
        assert r in init || r == row;
      }
    }
  }

  /** Position `j` is the first row of the answer with its transaction id. */
  ghost predicate FirstOf(rows: seq<Income>, j: nat)
    requires j < |rows|
  {
    forall i :: 0 <= i < j ==> rows[i].tranId != rows[j].tranId
  }

  lemma {:induction false} RowRecorded(incomes: seq<Income>, rows: seq<Income>, j: nat)
    requires j < |rows|
    ensures Recorded(InsertNew(incomes, rows), rows[j].tranId)
  {
    var n := |rows| - 1;
    var before, after := InsertNew(incomes, rows[..n]), InsertNew(incomes, rows);
    if j < n {
      RowRecorded(incomes, rows[..n], j);
      var k :| 0 <= k < |before| && before[k].tranId == rows[j].tranId;
      assert after[k] == before[k];
    } else if !Recorded(before, rows[n].tranId) {
      assert after[|before|] == rows[n];
    }
  }

  /** Every new row is stored as it was answered, in all its columns, from the first row of the answer
      with its transaction id. */
  lemma {:induction false} InsertedAsAnswered(incomes: seq<Income>, rows: seq<Income>, k: nat) returns (j: nat)
    requires |incomes| <= k < |InsertNew(incomes, rows)|
    ensures j < |rows| && rows[j] == InsertNew(incomes, rows)[k] && FirstOf(rows, j)
  {
    if rows == [] {
      assert false;
    } else {
      var n := |rows| - 1;
      var before := InsertNew(incomes, rows[..n]);
      if k < |before| {
        j := InsertedAsAnswered(incomes, rows[..n], k);
      } else {
        j := n;
        forall i | 0 <= i < n ensures rows[i].tranId != rows[n].tranId {
          RowRecorded(incomes, rows[..n], i);
        }
      }
    }
  }

  /** And every transaction that was unknown is stored so. */
  lemma {:induction false} UnknownInserted(incomes: seq<Income>, rows: seq<Income>, j: nat)
    requires j < |rows| && FirstOf(rows, j) && !Recorded(incomes, rows[j].tranId)
    ensures rows[j] in InsertNew(incomes, rows)
  {
    var n := |rows| - 1;
    var before, after := InsertNew(incomes, rows[..n]), InsertNew(incomes, rows);
    if j < n {
      UnknownInserted(incomes, rows[..n], j);
      var k :| 0 <= k < |before| && before[k] == rows[j];
      assert after[k] == rows[j];
    } else {
      if Recorded(before, rows[n].tranId) {
        var k :| 0 <= k < |before| && before[k].tranId == rows[n].tranId;
        OldOrAnswered(incomes, rows[..n], k);
      }
      assert after[|before|] == rows[n];
    }
  }

  lemma OldOrAnswered(incomes: seq<Income>, rows: seq<Income>, k: nat)
    requires k < |InsertNew(incomes, rows)|
    ensures Recorded(incomes, InsertNew(incomes, rows)[k].tranId) ||
            exists i :: 0 <= i < |rows| && rows[i].tranId == InsertNew(incomes, rows)[k].tranId
  {
    InsertPrefix(incomes, rows);
    if k < |incomes| {
      assert incomes[k] == InsertNew(incomes, rows)[k];
    } else {
      var j := InsertedAsAnswered(incomes, rows, k);
      assert rows[j].tranId == InsertNew(incomes, rows)[k].tranId;
    }
  }

  lemma {:induction false} InsertPrefix(incomes: seq<Income>, rows: seq<Income>)
    ensures incomes <= InsertNew(incomes, rows)
  {
    if rows != [] {
      InsertPrefix(incomes, rows[..|rows| - 1]);
    }
  }

  lemma {:induction false} InsertConcat(incomes: seq<Income>, a: seq<Income>, b: seq<Income>)
    ensures InsertNew(incomes, a + b) == InsertNew(InsertNew(incomes, a), b)
    decreases |b|
  {
    if b == [] {
      assert a + b == a;
    } else {
      var n := |b| - 1;
      assert (a + b)[..|a + b| - 1] == a + b[..n];
      InsertConcat(incomes, a, b[..n]);
    }
  }

  // ----- one iteration, one call -----

  /** A failed or crashed fetch leaves cursors and history alone. */
  lemma InsertKeepsInv(s: Store, interval: int, now: int, rows: seq<Income>)
    requires Inv(s, interval, now)
    ensures Inv(s.(incomes := InsertNew(s.incomes, rows)), interval, now)
  {
    InsertNewProperties(s.incomes, rows);
    var s' := s.(incomes := InsertNew(s.incomes, rows));
    forall name ensures Tiled(s', interval, name) {
      assert Tiled(s, interval, name);
    }
  }

  lemma ConfirmTiles(s: Store, interval: int, e: Confirmed, name: string)
    requires Tiled(s, interval, name) && e.end == e.start + interval
    requires e.name in s.cursors ==> e.start == s.cursors[e.name]
    ensures Tiled(s.(cursors := s.cursors[e.name := e.end], log := s.log + [e]), interval, name)
  {
    RangesAppend(s.log, e, name);
    if e.name == name {
      ConsecutiveAppend(Ranges(s.log, name), interval, e);
    }
  }

  lemma ConsecutiveAppend(ranges: seq<Confirmed>, interval: int, e: Confirmed)
    requires Consecutive(ranges, interval) && e.end == e.start + interval
    requires ranges != [] ==> e.start == ranges[|ranges| - 1].end
    ensures Consecutive(ranges + [e], interval)
  {
  }

  lemma ConfirmKeepsInv(s: Store, interval: int, now: int, e: Confirmed)
    requires Inv(s, interval, now) && e.end == e.start + interval && e.end <= e.reading.now <= now
    requires e.name in s.cursors ==> e.start == s.cursors[e.name]
    requires forall r :: r in e.answer ==> Recorded(s.incomes, r.tranId)
    ensures Inv(s.(cursors := s.cursors[e.name := e.end], log := s.log + [e]), interval, now)
  {
    var s' := s.(cursors := s.cursors[e.name := e.end], log := s.log + [e]);
    forall name ensures Tiled(s', interval, name) {
      assert Tiled(s, interval, name);
      ConfirmTiles(s, interval, e, name);
    }
    forall k, r | 0 <= k < |s'.log| && r in s'.log[k].answer ensures Recorded(s'.incomes, r.tranId) {
      if k < |s.log| {
        assert r in s.log[k].answer;
      }
    }
  }

  lemma LaterInv(s: Store, interval: int, now: int, later: int)
    requires Inv(s, interval, now) && now <= later
    ensures Inv(s, interval, later)
  {
  }

  lemma StepKeepsInv(s: Store, name: string, interval: int, now: int, a: Attempt)
    requires Inv(s, interval, now) && a.clock.Valid() && now <= a.clock.now
    ensures Inv(Step(s, name, interval, a).0, interval, a.clock.now)
    ensures s.incomes <= Step(s, name, interval, a).0.incomes && s.log <= Step(s, name, interval, a).0.log
  {
    LaterInv(s, interval, now, a.clock.now);
    InsertKeepsInv(s, interval, a.clock.now, a.rows);
    InsertNewProperties(s.incomes, a.rows);
    var range := GetNextRange(s.cursors, name, interval, a.clock);
    if range.Some? && a.outcome == Fetched {
      var e := Confirmed(name, range.value.0, range.value.1, a.rows, a.clock);
      ConfirmKeepsInv(s.(incomes := InsertNew(s.incomes, a.rows)), interval, a.clock.now, e);
    }
  }

  lemma ClockRest(script: seq<Attempt>, now: int)
    requires ClockFrom(script, now) && script != []
    ensures script[0].clock.Valid() && now <= script[0].clock.now <= LastReading(script, now)
    ensures ClockFrom(script[1..], script[0].clock.now)
    ensures LastReading(script[1..], script[0].clock.now) == LastReading(script, now)
  {
    var rest := script[1..];
    assert forall k :: 0 <= k < |rest| ==> rest[k] == script[k + 1];
  }

  /** A call is one iteration and, if that goes on, the rest of the call. */
  lemma FetchUnfold(s: Store, name: string, interval: int, iterations: nat, script: seq<Attempt>)
    requires iterations > 0 && script != []
    ensures var (s', ended) := Step(s, name, interval, script[0]);
            RepetitiveFetch(s, name, interval, iterations, script) ==
            if ended.Some? then (s', ended.value) else RepetitiveFetch(s', name, interval, iterations - 1, script[1..])
  {
  }

  /** The store `s'` comes from `s` and keeps what was recorded. */
  ghost predicate Grown(s: Store, s': Store, interval: int, now: int) {
    Inv(s', interval, now) && s.incomes <= s'.incomes && s.log <= s'.log
  }

  lemma GrownStep(s: Store, name: string, interval: int, now: int, a: Attempt, later: int)
    requires Inv(s, interval, now) && a.clock.Valid() && now <= a.clock.now <= later
    ensures Grown(s, Step(s, name, interval, a).0, interval, a.clock.now)
    ensures Grown(s, Step(s, name, interval, a).0, interval, later)
  {
    StepKeepsInv(s, name, interval, now, a);
    LaterInv(Step(s, name, interval, a).0, interval, a.clock.now, later);
  }

  lemma {:induction false} FetchKeepsInv(s: Store, name: string, interval: int, iterations: nat, script: seq<Attempt>, now: int)
    requires Inv(s, interval, now) && ClockFrom(script, now)
    ensures Grown(s, RepetitiveFetch(s, name, interval, iterations, script).0, interval, LastReading(script, now))
    decreases iterations
  {
    if script == [] {
    } else {
      ClockRest(script, now);
      if iterations == 0 {
        LaterInv(s, interval, now, LastReading(script, now));
      } else {
        var s' := Step(s, name, interval, script[0]).0;
        FetchUnfold(s, name, interval, iterations, script);
        GrownStep(s, name, interval, now, script[0], LastReading(script, now));
        FetchKeepsInv(s', name, interval, iterations - 1, script[1..], script[0].clock.now);
      }
    }
  }

  // ----- a call, attempt by attempt -----

  /** The rows of all attempts, in order. */
  function AllRows(script: seq<Attempt>): seq<Income> {
    if script == [] then [] else script[0].rows + AllRows(script[1..])
  }

  /** One confirmation after another for this name, from the first attempts of the script on. */
  ghost predicate Confirms(log: seq<Confirmed>, name: string, interval: int, script: seq<Attempt>, n: nat) {
    && |log| == n <= |script|
    && (forall j :: 0 <= j < n ==>
          script[j].outcome == Fetched && log[j].name == name && log[j].end == log[j].start + interval <= script[j].clock.now &&
          log[j].answer == script[j].rows && log[j].reading == script[j].clock)
    && (forall j :: 0 < j < n ==> log[j].start == log[j - 1].end)
  }

  lemma ConfirmsFirst(e: Confirmed, log: seq<Confirmed>, name: string, interval: int, script: seq<Attempt>, n: nat)
    requires script != [] && script[0].outcome == Fetched && Confirms(log, name, interval, script[1..], n)
    requires e.name == name && e.end == e.start + interval <= script[0].clock.now
    requires e.answer == script[0].rows && e.reading == script[0].clock
    requires n > 0 ==> log[0].start == e.end
    ensures Confirms([e] + log, name, interval, script, n + 1)
  {
    var all := [e] + log;
    forall j | 0 < j < n + 1
      ensures script[j].outcome == Fetched && all[j].name == name && all[j].end == all[j].start + interval <= script[j].clock.now &&
              all[j].answer == script[j].rows && all[j].reading == script[j].clock && all[j].start == all[j - 1].end
    {
      assert all[j] == log[j - 1] && script[j] == script[1..][j - 1];
      if j > 1 {
        assert all[j - 1] == log[j - 2];
      }
    }
  }

  /** What one call does: it confirms the ranges of its first `n` attempts, the first one from the
      cursor, or for a new name from one interval before the reading's midnight; it moves the cursor
      behind them; the rows of these attempts are inserted, and of one that fails after them. */
  ghost predicate Traced(s: Store, s': Store, name: string, interval: int, script: seq<Attempt>, n: nat, log: seq<Confirmed>,
                         used: nat) {
    && s'.log == s.log + log && Confirms(log, name, interval, script, n)
    && (n > 0 ==> log[0].start == if name in s.cursors then s.cursors[name] else script[0].clock.midnight - interval)
    && s'.cursors == (if n > 0 then s.cursors[name := log[n - 1].end] else s.cursors)
    && n <= used <= n + 1 && used <= |script| && s'.incomes == InsertNew(s.incomes, AllRows(script[..used]))
  }

  /** And why it ends: all iterations are done, the script is over, the next range would reach past the
      clock, or the next attempt failed. */
  ghost predicate EndedRightly(s': Store, ended: Ended, name: string, interval: int, iterations: nat, script: seq<Attempt>, n: nat,
                               used: nat) {
    if n >= iterations then n == iterations && ended == Exhausted && used == n
    else if n >= |script| then ended == Crashed && used == n
    else
      var clock := script[n].clock;
      if (if name in s'.cursors then s'.cursors[name] + interval else clock.midnight) > clock.now then ended == UpToDate && used == n
      else
        used == n + 1 && script[n].outcome != Fetched && ended == if script[n].outcome == FetchError then Failed else Crashed
  }

  lemma {:induction false} CallTrace(s: Store, name: string, interval: int, iterations: nat, script: seq<Attempt>)
      returns (n: nat, log: seq<Confirmed>, used: nat)
    ensures var (s', ended) := RepetitiveFetch(s, name, interval, iterations, script);
            Traced(s, s', name, interval, script, n, log, used) && EndedRightly(s', ended, name, interval, iterations, script, n, used)
    decreases iterations
  {
    n, log, used := 0, [], 0;
    if iterations > 0 && script != [] {
      var (s', ended) := Step(s, name, interval, script[0]);
      FetchUnfold(s, name, interval, iterations, script);
      if ended.None? {
        var m, rest, more := CallTrace(s', name, interval, iterations - 1, script[1..]);
        var last := RepetitiveFetch(s', name, interval, iterations - 1, script[1..]);
        var e := StepConfirms(s, name, interval, script[0]);
        TraceMore(s, s', last.0, name, interval, script, m, rest, more, e);
        EndMore(last.0, last.1, name, interval, iterations, script, m, more);
        n, log, used := m + 1, [e] + rest, more + 1;
      } else {
        used := if ended == Some(UpToDate) then 0 else 1;
        StepEnds(s, name, interval, iterations, script, used);
      }
    } else {
      AllRowsStart(script);
    }
  }

  lemma StepConfirms(s: Store, name: string, interval: int, a: Attempt) returns (e: Confirmed)
    requires Step(s, name, interval, a).1.None?
    ensures var s' := Step(s, name, interval, a).0;
            a.outcome == Fetched && s' == Store(s.cursors[name := e.end], InsertNew(s.incomes, a.rows), s.log + [e])
    ensures e.name == name && e.end == e.start + interval <= a.clock.now && e.answer == a.rows && e.reading == a.clock
    ensures e.start == if name in s.cursors then s.cursors[name] else a.clock.midnight - interval
  {
    var range := GetNextRange(s.cursors, name, interval, a.clock);
    e := Confirmed(name, range.value.0, range.value.1, a.rows, a.clock);
  }

  lemma StepEnds(s: Store, name: string, interval: int, iterations: nat, script: seq<Attempt>, used: nat)
    requires iterations > 0 && script != [] && Step(s, name, interval, script[0]).1.Some?
    requires used == if Step(s, name, interval, script[0]).1 == Some(UpToDate) then 0 else 1
    ensures var (s', ended) := Step(s, name, interval, script[0]);
            Traced(s, s', name, interval, script, 0, [], used) &&
            EndedRightly(s', ended.value, name, interval, iterations, script, 0, used)
  {
    AllRowsStart(script);
  }

  lemma TraceMore(s: Store, s1: Store, s': Store, name: string, interval: int, script: seq<Attempt>, m: nat, rest: seq<Confirmed>,
                  more: nat, e: Confirmed)
    requires script != [] && script[0].outcome == Fetched && Traced(s1, s', name, interval, script[1..], m, rest, more)
    requires s1 == Store(s.cursors[name := e.end], InsertNew(s.incomes, script[0].rows), s.log + [e])
    requires e.name == name && e.end == e.start + interval <= script[0].clock.now
    requires e.answer == script[0].rows && e.reading == script[0].clock
    requires e.start == if name in s.cursors then s.cursors[name] else script[0].clock.midnight - interval
    ensures Traced(s, s', name, interval, script, m + 1, [e] + rest, more + 1)
  {
    ConfirmsFirst(e, rest, name, interval, script, m);
    LogJoins(s.log, e, rest);
    AllRowsMore(script, more);
    InsertConcat(s.incomes, script[0].rows, AllRows(script[1..][..more]));
    if m > 0 {
      assert ([e] + rest)[m] == rest[m - 1];
      assert s.cursors[name := e.end][name := rest[m - 1].end] == s.cursors[name := rest[m - 1].end];
    }
  }

  lemma EndMore(s': Store, ended: Ended, name: string, interval: int, iterations: nat, script: seq<Attempt>, m: nat, more: nat)
    requires iterations > 0 && script != [] && EndedRightly(s', ended, name, interval, iterations - 1, script[1..], m, more)
    ensures EndedRightly(s', ended, name, interval, iterations, script, m + 1, more + 1)
  {
    if m + 1 < |script| {
      assert script[1..][m] == script[m + 1];
    }
  }

  lemma LogJoins(log: seq<Confirmed>, e: Confirmed, rest: seq<Confirmed>)
    ensures log + [e] + rest == log + ([e] + rest)
  {
  }

  lemma AllRowsStart(script: seq<Attempt>)
    ensures AllRows(script[..0]) == [] && (script != [] ==> AllRows(script[..1]) == script[0].rows)
  {
    if script != [] {
      assert script[..1][1..] == [];
    }
  }

  lemma AllRowsMore(script: seq<Attempt>, more: nat)
    requires script != [] && more < |script|
    ensures AllRows(script[..more + 1]) == script[0].rows + AllRows(script[1..][..more])
  {
    assert script[..more + 1][1..] == script[1..][..more];
  }

  // ----- any number of calls -----

  datatype Call = Call(name: string, iterations: nat, script: seq<Attempt>)

  function Calls(s: Store, interval: int, calls: seq<Call>): Store
    decreases |calls|
  {
    if calls == [] then s
    else
      var c := calls[0];
      Calls(RepetitiveFetch(s, c.name, interval, c.iterations, c.script).0, interval, calls[1..])
  }

  ghost predicate ClocksFrom(calls: seq<Call>, now: int) {
    calls != [] ==> ClockFrom(calls[0].script, now) && ClocksFrom(calls[1..], LastReading(calls[0].script, now))
  }

  function LastOf(calls: seq<Call>, now: int): int {
    if calls == [] then now else LastOf(calls[1..], LastReading(calls[0].script, now))
  }

  /** Over any calls, for any names, with errors and crashes anywhere: each name's confirmed ranges
      are consecutive and end at its cursor, none ends after the clock, no transaction is recorded
      twice, and everything answered for a confirmed range is recorded and stays recorded. */
  lemma {:induction false} EveryRunKeepsInv(s: Store, interval: int, calls: seq<Call>, now: int)
    requires Inv(s, interval, now) && ClocksFrom(calls, now)
    ensures Grown(s, Calls(s, interval, calls), interval, LastOf(calls, now))
    decreases |calls|
  {
    if calls != [] {
      var c := calls[0];
      FetchKeepsInv(s, c.name, interval, c.iterations, c.script, now);
      EveryRunKeepsInv(RepetitiveFetch(s, c.name, interval, c.iterations, c.script).0, interval, calls[1..],
                       LastReading(c.script, now));
    }
  }

  // ----- where a name begins -----

  /** The first confirmed range of a name starts at its initial cursor, or without one at one interval
      before the midnight of the reading that confirmed it; until then the cursor is untouched. */
  ghost predicate Anchored(initial: map<string, int>, s: Store, interval: int, name: string) {
    var ranges := Ranges(s.log, name);
    if ranges == [] then (name in s.cursors <==> name in initial) && (name in initial ==> s.cursors[name] == initial[name])
    else ranges[0].start == if name in initial then initial[name] else ranges[0].reading.midnight - interval
  }

  lemma StepAnchored(initial: map<string, int>, s: Store, name: string, interval: int, a: Attempt, other: string)
    requires Anchored(initial, s, interval, other)
    ensures Anchored(initial, Step(s, name, interval, a).0, interval, other)
  {
    var range := GetNextRange(s.cursors, name, interval, a.clock);
    if range.Some? && a.outcome == Fetched {
      RangesAppend(s.log, Confirmed(name, range.value.0, range.value.1, a.rows, a.clock), other);
    }
  }

  lemma {:induction false} FetchAnchored(initial: map<string, int>, s: Store, name: string, interval: int, iterations: nat,
                                         script: seq<Attempt>, other: string)
    requires Anchored(initial, s, interval, other)
    ensures Anchored(initial, RepetitiveFetch(s, name, interval, iterations, script).0, interval, other)
    decreases iterations
  {
    if iterations > 0 && script != [] {
      FetchUnfold(s, name, interval, iterations, script);
      StepAnchored(initial, s, name, interval, script[0], other);
      FetchAnchored(initial, Step(s, name, interval, script[0]).0, name, interval, iterations - 1, script[1..], other);
    }
  }

  lemma {:induction false} RunAnchored(initial: map<string, int>, s: Store, interval: int, calls: seq<Call>, name: string)
    requires Anchored(initial, s, interval, name)
    ensures Anchored(initial, Calls(s, interval, calls), interval, name)
    decreases |calls|
  {
    if calls != [] {
      var c := calls[0];
      FetchAnchored(initial, s, c.name, interval, c.iterations, c.script, name);
      RunAnchored(initial, RepetitiveFetch(s, c.name, interval, c.iterations, c.script).0, interval, calls[1..], name);
    }
  }

  /** In particular from tables without incomes, whatever cursors they start with. */
  lemma RunsFromEmptyTables(cursors: map<string, int>, interval: int, calls: seq<Call>, now: int)
    requires ClocksFrom(calls, now)
    ensures Inv(Calls(Store(cursors, [], []), interval, calls), interval, LastOf(calls, now))
    ensures forall name :: Anchored(cursors, Calls(Store(cursors, [], []), interval, calls), interval, name)
  {
    EveryRunKeepsInv(Store(cursors, [], []), interval, calls, now);
    forall name ensures Anchored(cursors, Calls(Store(cursors, [], []), interval, calls), interval, name) {
      RunAnchored(cursors, Store(cursors, [], []), interval, calls, name);
    }
  }

  /** What tiling means: between the first confirmed start and the cursor, every instant lies in
      exactly one confirmed range. */
  lemma {:induction false} CoveredOnce(s: Store, interval: int, name: string, x: int) returns (k: nat)
    requires interval > 0 && Tiled(s, interval, name) && Ranges(s.log, name) != []
    requires Ranges(s.log, name)[0].start <= x < s.cursors[name]
    ensures k < |Ranges(s.log, name)|
    ensures forall j :: 0 <= j < |Ranges(s.log, name)| ==>
              (Ranges(s.log, name)[j].start <= x < Ranges(s.log, name)[j].end <==> j == k)
  {
    var ranges := Ranges(s.log, name);
    k := 0;
    while x >= ranges[k].end
      invariant k < |ranges| && ranges[k].start <= x
      decreases |ranges| - k
    {
      k := k + 1;
    }
    forall j | 0 <= j < |ranges| && j != k
      ensures !(ranges[j].start <= x < ranges[j].end)
    {
      if j < k { Ordered(ranges, interval, j, k); } else { Ordered(ranges, interval, k, j); }
    }
  }

  /** So in every run from such tables each instant from a name's beginning to its cursor lies in exactly
      one confirmed range: nothing since its initial cursor is skipped, and for a new name nothing since
      one interval before the midnight of its first fetch. */
  lemma CoveredFromTheStart(cursors: map<string, int>, interval: int, calls: seq<Call>, now: int, name: string, x: int)
      returns (k: nat)
    requires interval > 0 && ClocksFrom(calls, now)
    requires var s := Calls(Store(cursors, [], []), interval, calls); var ranges := Ranges(s.log, name);
             ranges != [] && name in s.cursors && x < s.cursors[name] &&
             (if name in cursors then cursors[name] else ranges[0].reading.midnight - interval) <= x
    ensures var ranges := Ranges(Calls(Store(cursors, [], []), interval, calls).log, name);
            k < |ranges| && forall j :: 0 <= j < |ranges| ==> (ranges[j].start <= x < ranges[j].end <==> j == k)
  {
    var s := Calls(Store(cursors, [], []), interval, calls);
    RunsFromEmptyTables(cursors, interval, calls, now);
    assert Tiled(s, interval, name) && Anchored(cursors, s, interval, name);
    k := CoveredOnce(s, interval, name, x);
  }

  lemma {:induction false} Ordered(ranges: seq<Confirmed>, interval: int, j: nat, k: nat)
    requires interval > 0 && j < k < |ranges|
    requires Consecutive(ranges, interval)
    ensures ranges[j].end <= ranges[k].start
  {
    if j + 1 < k {
      Ordered(ranges, interval, j, k - 1);
    }
  }

  /** A call without failures confirms `iterations` ranges, or stops because less than one
      interval is left before the clock. */
  lemma {:induction false} FailureFreeProgress(s: Store, name: string, interval: int, iterations: nat, script: seq<Attempt>)
      returns (used: nat)
    requires interval > 0 && |script| >= iterations
    requires forall k :: 0 <= k < |script| ==> script[k].outcome == Fetched && script[k].clock.Valid()
    ensures var (s', ended) := RepetitiveFetch(s, name, interval, iterations, script);
            && used <= iterations && |s'.log| == |s.log| + used && s.log <= s'.log
            && (forall k :: |s.log| <= k < |s'.log| ==> s'.log[k].name == name)
            && (ended == Exhausted ==> used == iterations)
            && (ended != Exhausted ==> ended == UpToDate && used < iterations && name in s'.cursors &&
                                       script[used].clock.now - s'.cursors[name] < interval)
    decreases iterations
  {
    used := 0;
    if iterations > 0 {
      var (s', ended) := Step(s, name, interval, script[0]);
      if ended.None? {
        var rest := FailureFreeProgress(s', name, interval, iterations - 1, script[1..]);
        used := rest + 1;
      }
    }
  }

  /** Calls for one name never move another name's cursor. */
  lemma {:induction false} OtherCursorsUntouched(s: Store, name: string, interval: int, iterations: nat, script: seq<Attempt>, other: string)
    requires other != name
    ensures var s' := RepetitiveFetch(s, name, interval, iterations, script).0;
            (other in s'.cursors <==> other in s.cursors) &&
            (other in s.cursors ==> s'.cursors[other] == s.cursors[other])
    decreases iterations
  {
    if iterations > 0 && script != [] {
      var (s', ended) := Step(s, name, interval, script[0]);
      if ended.None? {
        OtherCursorsUntouched(s', name, interval, iterations - 1, script[1..], other);
      }
    }
  }
}
