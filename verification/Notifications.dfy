/** `Notification.send` and `make_read` (accounts/models/notification.py): ordinary,
    replaceable and DIFF notifications over one table. */
module Notifications {
  import opened Options

  datatype Kind = Ordinary | Replaceable | Diff | OtherKind

  datatype Source = Core | Ninja | Crm

  const TEMPLATES := ["like", "comment", "follow", "plain"]

  const PLAIN := "plain"

  /** The message column: the text as given, or rendered by one of the two template tables. */
  datatype Message =
    | Given(text: string)
    | NobodyElse(template: string, last: string)
    | AndOthers(template: string, last: string, count: int)

  datatype Row = Row(
    recipient: nat, groupId: Option<nat>, template: string, source: Source, kind: Kind,
    count: int, message: Message, push: bool, read: bool, readDate: Option<int>)

  datatype Request = Request(
    recipient: Option<nat>, groupId: Option<nat>, template: string, source: Source, kind: Kind,
    total: int, message: string, push: bool)

  /** `Stored` carries the row's position, `Ignored` is a plain `return`, `Raised` an exception. */
  datatype Result = Stored(at: nat) | Ignored | Raised

  /** The two unique constraints of the table; rows without a group never collide. */
  predicate Collide(a: Row, b: Row) {
    a.groupId.Some? && a.groupId == b.groupId && a.template == b.template &&
    ((!a.read && !b.read && a.source == Ninja && b.source == Ninja) ||
     (a.recipient == b.recipient && a.template == PLAIN))
  }

  /** Whether the table has room for `r` at position `k`, a new position included. */
  predicate Fits(rows: seq<Row>, k: nat, r: Row) {
    forall i :: 0 <= i < |rows| && i != k ==> !Collide(rows[i], r)
  }

  /** Total of the counts of a group's read rows: the aggregate that a DIFF send subtracts. */
  function ReadSum(rows: seq<Row>, groupId: Option<nat>): int {
    if rows == [] then 0
    else
      var r := rows[|rows| - 1];
      ReadSum(rows[..|rows| - 1], groupId) + if r.groupId == groupId && r.read then r.count else 0
  }

  function Sum(rows: seq<Row>, groupId: Option<nat>): int {
    if rows == [] then 0
    else
      var r := rows[|rows| - 1];
      Sum(rows[..|rows| - 1], groupId) + if r.groupId == groupId then r.count else 0
  }

  predicate Unread(r: Row, groupId: Option<nat>, template: string) {
    r.groupId == groupId && r.template == template && !r.read
  }

  /** Positions of the rows that `update_or_create(group_id, template, read=False)` looks up. */
  function Matches(rows: seq<Row>, groupId: Option<nat>, template: string): (ps: seq<nat>)
    ensures forall k :: 0 <= k < |ps| ==> ps[k] < |rows| && Unread(rows[ps[k]], groupId, template)
  {
    if rows == [] then []
    else
      var n := |rows| - 1;
      var before := Matches(rows[..n], groupId, template);
      if Unread(rows[n], groupId, template) then before + [n] else before
  }

  function CountOf(rows: seq<Row>, q: Request): int {
    if q.kind == Diff then q.total - 1 - ReadSum(rows, q.groupId) else q.total - 1
  }

  function MessageOf(rows: seq<Row>, q: Request): Message {
    if q.kind != Diff then Given(q.message)
    else if CountOf(rows, q) <= 0 then NobodyElse(q.template, q.message)
    else AndOthers(q.template, q.message, CountOf(rows, q))
  }

  function RowOf(rows: seq<Row>, q: Request): Row
    requires q.recipient.Some?
  {
    Row(q.recipient.value, q.groupId, q.template, q.source, q.kind, CountOf(rows, q), MessageOf(rows, q), q.push, false, None)
  }

  /** Store `r` at `k`, or raise the database's integrity error and store nothing. */
  function Put(rows: seq<Row>, k: nat, r: Row): (seq<Row>, Result)
    requires k <= |rows|
  {
    if !Fits(rows, k, r) then (rows, Raised)
    else if k == |rows| then (rows + [r], Stored(k))
    else (rows[k := r], Stored(k))
  }

  /** The table after one send. */
  function AfterSend(rows: seq<Row>, q: Request): (seq<Row>, Result) {
    if q.recipient.None? then (rows, Ignored)
    else if q.template !in TEMPLATES then (rows, Raised)
    else if q.kind == Ordinary then
      if exists i :: 0 <= i < |rows| && rows[i].groupId == q.groupId && !rows[i].read && rows[i].source == Ninja
      then (rows, Ignored)
      else Put(rows, |rows|, RowOf(rows, q))
    else if q.groupId.None? || q.kind == OtherKind then (rows, Ignored)
    else
      var found := Matches(rows, q.groupId, q.template);
      if |found| > 1 then (rows, Raised)
      else if |found| == 0 then Put(rows, |rows|, RowOf(rows, q))
      else Put(rows, found[0], RowOf(rows, q).(readDate := rows[found[0]].readDate))
  }

  function AfterRead(rows: seq<Row>, k: nat, now: int): seq<Row> {
    if k < |rows| && !rows[k].read then rows[k := rows[k].(read := true, readDate := Some(now))] else rows
  }

  class NotificationTable {
    var rows: seq<Row>

    constructor ()
      ensures rows == []
    {
      rows := [];
    }

    method Save(k: nat, r: Row) returns (result: Result)
      requires k <= |rows|
      modifies this
      ensures (rows, result) == Put(old(rows), k, r)
    {
      if !Fits(rows, k, r) {
        return Raised;
      }
      rows := if k == |rows| then rows + [r] else rows[k := r];
      return Stored(k);
    }

    method Send(q: Request) returns (result: Result)
      modifies this
      ensures (rows, result) == AfterSend(old(rows), q)
    {
      var count := q.total - 1;
      var message := Given(q.message);
      if q.recipient.None? {
        return Ignored;
      }
      if q.template !in TEMPLATES {
        return Raised;
      }
      if q.kind == Diff {
        var readCount := ReadSum(rows, q.groupId);
        if readCount != 0 {
          count := count - readCount;
        }
        message := if count <= 0 then NobodyElse(q.template, q.message) else AndOthers(q.template, q.message, count);
      }
      var r := Row(q.recipient.value, q.groupId, q.template, q.source, q.kind, count, message, q.push, false, None);
      if q.kind == Ordinary {
        if exists i :: 0 <= i < |rows| && rows[i].groupId == q.groupId && !rows[i].read && rows[i].source == Ninja {
          return Ignored;
        }
        result := Save(|rows|, r);
      } else if q.groupId.None? {
        return Ignored;
      } else if q.kind == Replaceable || q.kind == Diff {
        var found := Matches(rows, q.groupId, q.template);
        if |found| > 1 {
          return Raised;
        } else if |found| == 0 {
          result := Save(|rows|, r);
        } else {
          r := r.(readDate := rows[found[0]].readDate);
          result := Save(found[0], r);
        }
      } else {
        return Ignored;
      }
    }

    method MakeRead(k: nat, now: int)
      requires k < |rows|
      modifies this
      ensures rows == AfterRead(old(rows), k, now)
      ensures old(rows)[k].read ==> rows == old(rows)
      ensures !old(rows)[k].read ==> rows == old(rows)[k := old(rows)[k].(read := true, readDate := Some(now))]
    {
      var r := rows[k];
      if !r.read {
        r := r.(read := true);
        r := r.(readDate := Some(now));
        rows := rows[k := r];
      }
    }
  }

  // ----- what a send does to the table -----

  /** The two unique constraints: one unread row of the Ninja service per group and template, one row
      of the plain template per recipient and group. */
  ghost predicate Constrained(rows: seq<Row>) {
    forall i, j :: 0 <= i < j < |rows| && rows[i].groupId != None && rows[i].groupId == rows[j].groupId ==>
      !(rows[i].template == rows[j].template && !rows[i].read && !rows[j].read && rows[i].source == rows[j].source == Ninja) &&
      !(rows[i].recipient == rows[j].recipient && rows[i].template == rows[j].template == "plain")
  }

  lemma CollideBothWays(a: Row, b: Row)
    ensures Collide(a, b) == Collide(b, a)
    ensures Collide(a, b) <==>
              a.groupId != None && a.groupId == b.groupId &&
              ((a.template == b.template && !a.read && !b.read && a.source == b.source == Ninja) ||
               (a.recipient == b.recipient && a.template == b.template == "plain"))
  {
  }

  lemma PutConstrained(rows: seq<Row>, k: nat, r: Row)
    requires Constrained(rows) && k <= |rows|
    ensures Constrained(Put(rows, k, r).0)
  {
    var rows' := Put(rows, k, r).0;
    forall i, j | 0 <= i < j < |rows'|
      ensures !Collide(rows'[i], rows'[j])
    {
      if Fits(rows, k, r) && (i == k || j == k) {
        CollideBothWays(rows'[i], rows'[j]);
      }
    }
  }

  /** A row as the request asks for it: unread and undated, with its recipient, group, template, source,
      kind and push mark. */
  predicate AsAsked(r: Row, q: Request) {
    Some(r.recipient) == q.recipient && r.groupId == q.groupId && r.template == q.template && r.source == q.source &&
    r.kind == q.kind && r.push == q.push && !r.read
  }

  /** A row with this position and content would break a constraint. */
  ghost predicate Blocked(rows: seq<Row>, k: nat, r: Row) {
    exists i :: 0 <= i < |rows| && i != k && Collide(rows[i], r)
  }

  /** Nothing is stored without a recipient, nor for an unknown template, which raises. */
  lemma UnsentOutcome(rows: seq<Row>, q: Request)
    ensures q.recipient == None ==> AfterSend(rows, q) == (rows, Ignored)
    ensures q.recipient != None && q.template !in ["like", "comment", "follow", "plain"] ==> AfterSend(rows, q) == (rows, Raised)
  {
  }

  /** An ordinary send is dropped while the group has an unread row of the Ninja service; otherwise it
      adds one row with the message as given and a count one less than the total, unless a constraint
      forbids it. */
  lemma OrdinaryOutcome(rows: seq<Row>, q: Request)
    requires q.kind == Ordinary && q.recipient != None && q.template in ["like", "comment", "follow", "plain"]
    ensures var (rows', result) := AfterSend(rows, q);
            if exists i :: 0 <= i < |rows| && rows[i].groupId == q.groupId && rows[i].source == Ninja && rows[i].read == false
            then result == Ignored && rows' == rows
            else
              (result == Raised && rows' == rows && Blocked(rows, |rows|, RowOf(rows, q))) ||
              (result == Stored(|rows|) && |rows'| == |rows| + 1 && rows'[..|rows|] == rows &&
               AsAsked(rows'[|rows|], q) && rows'[|rows|].count == q.total - 1 && rows'[|rows|].message == Given(q.message) &&
               rows'[|rows|].readDate == None && !Blocked(rows, |rows|, rows'[|rows|]))
  {
  }

  /** With at most one unread row of group and template every other row is read or of another kind. */
  lemma OthersRead(rows: seq<Row>, groupId: Option<nat>, template: string, i: nat)
    requires i < |rows| && |Matches(rows, groupId, template)| <= 1 && i !in Matches(rows, groupId, template)
    ensures !(rows[i].groupId == groupId && rows[i].template == template && rows[i].read == false)
  {
    if Unread(rows[i], groupId, template) {
      NoMatchNoUnread(rows, groupId, template, i);
    }
  }

  /** A replacing send without a group, or one of another kind, is dropped. */
  lemma DroppedOutcome(rows: seq<Row>, q: Request)
    requires q.kind != Ordinary && q.recipient != None && q.template in ["like", "comment", "follow", "plain"]
    ensures AfterSend(rows, q).1 == Ignored <==> q.groupId == None || q.kind == OtherKind
    ensures !AfterSend(rows, q).1.Stored? ==> AfterSend(rows, q).0 == rows
  {
  }

  /** A replacing send, DIFF or not, overwrites the one unread row of group and template, keeping its
      date column, or adds a row when there is none. A DIFF send counts what is new since the rows that
      were read, and its message names others only if there are any. */
  lemma ReplacingOutcome(rows: seq<Row>, q: Request, k: nat)
    requires q.kind != Ordinary && AfterSend(rows, q).1 == Stored(k)
    ensures var rows' := AfterSend(rows, q).0;
            k <= |rows| && k < |rows'| && AsAsked(rows'[k], q) && !Blocked(rows, k, rows'[k]) &&
            rows'[k].count == q.total - 1 - (if q.kind == Diff then ReadSum(rows, q.groupId) else 0) &&
            rows'[k].message == (if q.kind == Replaceable then Given(q.message)
                                 else if rows'[k].count > 0 then AndOthers(q.template, q.message, rows'[k].count)
                                 else NobodyElse(q.template, q.message)) &&
            (k < |rows| ==> rows' == rows[k := rows'[k]] && rows[k].groupId == q.groupId && rows[k].template == q.template &&
                            rows[k].read == false && rows'[k].readDate == rows[k].readDate) &&
            (k == |rows| ==> rows' == rows + [rows'[k]] && rows'[k].readDate == None)
  {
    assert Put(rows, k, (if k < |rows| then RowOf(rows, q).(readDate := rows[k].readDate) else RowOf(rows, q))) == AfterSend(rows, q);
  }

  /** Where it stores, no other unread row of group and template is left. */
  lemma ReplacingUnique(rows: seq<Row>, q: Request, k: nat, i: nat)
    requires q.kind != Ordinary && AfterSend(rows, q).1 == Stored(k) && i < |rows| && i != k
    ensures !(rows[i].groupId == q.groupId && rows[i].template == q.template && rows[i].read == false)
  {
    OthersRead(rows, q.groupId, q.template, i);
  }

  /** When such a send raises. */
  lemma ReplacingRaises(rows: seq<Row>, q: Request)
    requires q.kind in {Replaceable, Diff} && q.groupId != None && q.recipient != None && q.template in ["like", "comment", "follow", "plain"]
    ensures var found := Matches(rows, q.groupId, q.template);
            AfterSend(rows, q).1 == Raised <==>
              |found| > 1 || Blocked(rows, if found == [] then |rows| else found[0], RowOf(rows, q))
  {
    var found := Matches(rows, q.groupId, q.template);
    if found != [] {
      assert forall i :: 0 <= i < |rows| ==> Collide(rows[i], RowOf(rows, q).(readDate := rows[found[0]].readDate)) == Collide(rows[i], RowOf(rows, q));
    }
  }

  // ----- the DIFF counter over every run -----

  datatype Event = Send(q: Request) | Read(k: nat, now: int)

  function Apply(rows: seq<Row>, e: Event): seq<Row> {
    match e
    case Send(q) => AfterSend(rows, q).0
    case Read(k, now) => AfterRead(rows, k, now)
  }

  function Replay(h: seq<Event>): seq<Row> {
    if h == [] then [] else Apply(Replay(h[..|h| - 1]), h[|h| - 1])
  }

  lemma ApplyConstrained(rows: seq<Row>, e: Event)
    requires Constrained(rows)
    ensures Constrained(Apply(rows, e))
  {
    match e
    case Send(q) =>
      if q.recipient.Some? {
        PutConstrained(rows, |rows|, RowOf(rows, q));
        var found := Matches(rows, q.groupId, q.template);
        if found != [] {
          PutConstrained(rows, found[0], RowOf(rows, q).(readDate := rows[found[0]].readDate));
        }
      }
    case Read(k, now) =>
  }

  /** Over every history the table meets its two constraints. */
  lemma {:induction false} AlwaysConstrained(h: seq<Event>)
    ensures Constrained(Replay(h))
  {
    if h != [] {
      AlwaysConstrained(h[..|h| - 1]);
      ApplyConstrained(Replay(h[..|h| - 1]), h[|h| - 1]);
    }
  }

  // ----- a muted group -----

  ghost predicate Muted(rows: seq<Row>, groupId: Option<nat>) {
    exists i :: 0 <= i < |rows| && rows[i].groupId == groupId && rows[i].source == Ninja && !rows[i].read
  }

  /** The event neither reads a row of the group nor replaces one. */
  predicate LeavesGroup(rows: seq<Row>, e: Event, groupId: Option<nat>) {
    match e
    case Send(q) => q.groupId != groupId || q.kind == Ordinary
    case Read(k, _) => k >= |rows| || rows[k].groupId != groupId
  }

  /** The group has the same rows in the same places. */
  ghost predicate SameGroup(rows: seq<Row>, rows': seq<Row>, groupId: Option<nat>) {
    |rows| <= |rows'| &&
    (forall i :: 0 <= i < |rows| && (rows[i].groupId == groupId || rows'[i].groupId == groupId) ==> rows'[i] == rows[i]) &&
    (forall i :: |rows| <= i < |rows'| ==> rows'[i].groupId != groupId)
  }

  lemma StepLeavesGroup(rows: seq<Row>, e: Event, groupId: Option<nat>)
    requires Muted(rows, groupId) && LeavesGroup(rows, e, groupId)
    ensures SameGroup(rows, Apply(rows, e), groupId) && Muted(Apply(rows, e), groupId)
  {
    var i :| 0 <= i < |rows| && rows[i].groupId == groupId && rows[i].source == Ninja && !rows[i].read;
    assert SameGroup(rows, Apply(rows, e), groupId);
    assert Apply(rows, e)[i] == rows[i];
  }

  lemma SameGroupTransitive(a: seq<Row>, b: seq<Row>, c: seq<Row>, groupId: Option<nat>)
    requires SameGroup(a, b, groupId) && SameGroup(b, c, groupId)
    ensures SameGroup(a, c, groupId)
  {
  }

  /** From event `n` on nobody reads or replaces a row of the group. */
  ghost predicate LeftAlone(h: seq<Event>, n: nat, groupId: Option<nat>) {
    forall k :: n <= k < |h| ==> LeavesGroup(Replay(h[..k]), h[k], groupId)
  }

  lemma LeftAlonePrefix(h: seq<Event>, n: nat, groupId: Option<nat>)
    requires h != [] && LeftAlone(h, n, groupId)
    ensures LeftAlone(h[..|h| - 1], n, groupId)
  {
    var init := h[..|h| - 1];
    forall k | n <= k < |init| ensures LeavesGroup(Replay(init[..k]), init[k], groupId) {
      assert init[..k] == h[..k];
    }
  }

  /** While a group has an unread row of the Ninja service, and nobody reads or replaces its rows, no
      ordinary send changes them or adds one, whatever happens to other groups. */
  lemma {:induction false} MutedGroupStays(h: seq<Event>, n: nat, groupId: Option<nat>)
    requires n <= |h| && Muted(Replay(h[..n]), groupId) && LeftAlone(h, n, groupId)
    ensures SameGroup(Replay(h[..n]), Replay(h), groupId) && Muted(Replay(h), groupId)
    decreases |h|
  {
    if n == |h| {
      assert h[..n] == h;
    } else {
      var m := |h| - 1;
      assert h[..m][..n] == h[..n];
      LeftAlonePrefix(h, n, groupId);
      MutedGroupStays(h[..m], n, groupId);
      StepLeavesGroup(Replay(h[..m]), h[m], groupId);
      SameGroupTransitive(Replay(h[..n]), Replay(h[..m]), Replay(h), groupId);
    }
  }

  /** The total that the last stored send to the group announced. */
  function Announced(h: seq<Event>, groupId: nat): Option<int> {
    if h == [] then None
    else
      var e := h[|h| - 1];
      if e.Send? && e.q.groupId == Some(groupId) && AfterSend(Replay(h[..|h| - 1]), e.q).1.Stored?
      then Some(e.q.total)
      else Announced(h[..|h| - 1], groupId)
  }

  /** All sends to the group are DIFF sends with one template. Other groups may do as they like. */
  ghost predicate DiffOnly(h: seq<Event>, groupId: nat, template: string) {
    forall k :: 0 <= k < |h| && h[k].Send? && h[k].q.groupId == Some(groupId) ==>
      h[k].q.kind == Diff && h[k].q.template == template
  }

  /** The group's rows all carry the template, at most one is unread, and their counts add up to
      one less than the last announced total. */
  ghost predicate Telescoped(rows: seq<Row>, groupId: nat, template: string, announced: Option<int>) {
    && (forall i :: 0 <= i < |rows| && rows[i].groupId == Some(groupId) ==> rows[i].template == template)
    && (forall i, j :: 0 <= i < j < |rows| && rows[i].groupId == rows[j].groupId == Some(groupId) ==>
          rows[i].read || rows[j].read)
    && (announced.None? ==> forall i :: 0 <= i < |rows| ==> rows[i].groupId != Some(groupId))
    && (announced.Some? ==> Sum(rows, Some(groupId)) == announced.value - 1)
  }

  lemma {:induction false} SumSet(rows: seq<Row>, k: nat, r: Row, groupId: Option<nat>)
    requires k < |rows|
    ensures Sum(rows[k := r], groupId) == Sum(rows, groupId)
              - (if rows[k].groupId == groupId then rows[k].count else 0)
              + (if r.groupId == groupId then r.count else 0)
  {
    var n := |rows| - 1;
    if k == n {
      assert rows[k := r][..n] == rows[..n];
    } else {
      assert rows[k := r][..n] == rows[..n][k := r];
      SumSet(rows[..n], k, r, groupId);
    }
  }

  lemma SumAppend(rows: seq<Row>, r: Row, groupId: Option<nat>)
    ensures Sum(rows + [r], groupId) == Sum(rows, groupId) + if r.groupId == groupId then r.count else 0
  {
    assert (rows + [r])[..|rows|] == rows;
  }

  lemma {:induction false} SumOfNone(rows: seq<Row>, groupId: Option<nat>)
    requires forall i :: 0 <= i < |rows| ==> rows[i].groupId != groupId
    ensures Sum(rows, groupId) == 0
  {
    if rows != [] {
      SumOfNone(rows[..|rows| - 1], groupId);
    }
  }

  /** With at most one unread row, what is not read is that row's count. */
  lemma {:induction false} ReadSumSplit(rows: seq<Row>, groupId: nat, template: string)
    requires forall i :: 0 <= i < |rows| && rows[i].groupId == Some(groupId) ==> rows[i].template == template
    requires forall i, j :: 0 <= i < j < |rows| && rows[i].groupId == rows[j].groupId == Some(groupId) ==>
               rows[i].read || rows[j].read
    ensures var found := Matches(rows, Some(groupId), template);
            |found| <= 1 &&
            Sum(rows, Some(groupId)) - ReadSum(rows, Some(groupId)) == if found == [] then 0 else rows[found[0]].count
  {
    if rows != [] {
      ReadSumSplit(rows[..|rows| - 1], groupId, template);
    }
  }

  lemma {:induction false} NoMatchNoUnread(rows: seq<Row>, groupId: Option<nat>, template: string, i: nat)
    requires i < |rows| && Unread(rows[i], groupId, template)
    ensures i in Matches(rows, groupId, template)
  {
    if i < |rows| - 1 {
      NoMatchNoUnread(rows[..|rows| - 1], groupId, template, i);
    }
  }

  /** A new unread row brings the sum of counts to what it announces. */
  lemma CreateTelescopes(rows: seq<Row>, r: Row, groupId: nat, announced: Option<int>, total: int)
    requires Telescoped(rows, groupId, r.template, announced) && r.groupId == Some(groupId)
    requires forall i :: 0 <= i < |rows| && rows[i].groupId == Some(groupId) ==> rows[i].read
    requires Sum(rows, Some(groupId)) + r.count == total - 1
    ensures Telescoped(rows + [r], groupId, r.template, Some(total))
  {
    SumAppend(rows, r, Some(groupId));
  }

  lemma UpdateTelescopes(rows: seq<Row>, k: nat, r: Row, groupId: nat, announced: Option<int>, total: int)
    requires Telescoped(rows, groupId, r.template, announced) && r.groupId == Some(groupId)
    requires k < |rows| && Unread(rows[k], Some(groupId), r.template)
    requires Sum(rows, Some(groupId)) - rows[k].count + r.count == total - 1
    ensures Telescoped(rows[k := r], groupId, r.template, Some(total))
  {
    SumSet(rows, k, r, Some(groupId));
  }

  lemma SendTelescopes(rows: seq<Row>, q: Request, groupId: nat, announced: Option<int>)
    requires Telescoped(rows, groupId, q.template, announced)
    requires q.groupId == Some(groupId) && q.kind == Diff
    ensures var (rows', result) := AfterSend(rows, q);
            Telescoped(rows', groupId, q.template, if result.Stored? then Some(q.total) else announced) &&
            (!result.Stored? ==> rows' == rows)
  {
    var (rows', result) := AfterSend(rows, q);
    if result.Stored? {
      ReadSumSplit(rows, groupId, q.template);
      var found := Matches(rows, q.groupId, q.template);
      var r := RowOf(rows, q);
      if found == [] {
        forall i | 0 <= i < |rows| && rows[i].groupId == q.groupId ensures rows[i].read {
          if !rows[i].read {
            NoMatchNoUnread(rows, q.groupId, q.template, i);
          }
        }
        CreateTelescopes(rows, r, groupId, announced, q.total);
      } else {
        UpdateTelescopes(rows, found[0], r.(readDate := rows[found[0]].readDate), groupId, announced, q.total);
      }
    }
  }

  /** Rows of other groups do not matter. */
  lemma OtherRowTelescopes(rows: seq<Row>, k: nat, r: Row, groupId: nat, template: string, announced: Option<int>)
    requires Telescoped(rows, groupId, template, announced) && k <= |rows|
    requires r.groupId != Some(groupId) && (k < |rows| ==> rows[k].groupId != Some(groupId))
    ensures Telescoped(if k < |rows| then rows[k := r] else rows + [r], groupId, template, announced)
  {
    if k < |rows| {
      SumSet(rows, k, r, Some(groupId));
    } else {
      SumAppend(rows, r, Some(groupId));
    }
  }

  lemma OtherSendTelescopes(rows: seq<Row>, q: Request, groupId: nat, template: string, announced: Option<int>)
    requires Telescoped(rows, groupId, template, announced) && q.groupId != Some(groupId)
    ensures Telescoped(AfterSend(rows, q).0, groupId, template, announced)
  {
    var (rows', result) := AfterSend(rows, q);
    if result.Stored? {
      OtherRowTelescopes(rows, result.at, rows'[result.at], groupId, template, announced);
    }
  }

  /** After any interleaving of sends and reads the group has at most one unread row, and all its
      stored counts add up to the last announced total minus one. */
  lemma {:induction false} DiffTelescopes(h: seq<Event>, groupId: nat, template: string)
    requires DiffOnly(h, groupId, template)
    ensures Telescoped(Replay(h), groupId, template, Announced(h, groupId))
  {
    if h != [] {
      var n := |h| - 1;
      DiffTelescopes(h[..n], groupId, template);
      var rows, announced := Replay(h[..n]), Announced(h[..n], groupId);
      match h[n]
      case Send(q) =>
        if q.groupId == Some(groupId) {
          assert h[n].q.kind == Diff && q.template == template;
          SendTelescopes(rows, q, groupId, announced);
        } else {
          OtherSendTelescopes(rows, q, groupId, template, announced);
        }
      case Read(k, now) =>
        if k < |rows| && !rows[k].read {
          SumSet(rows, k, rows[k].(read := true, readDate := Some(now)), Some(groupId));
        }
    }
  }

  /** When such a send is refused: with a counting template never; with "plain", whose rows are
      unique per recipient and group, exactly when the recipient already has another row. */
  lemma DiffSendStored(rows: seq<Row>, q: Request, groupId: nat, announced: Option<int>)
    requires Telescoped(rows, groupId, q.template, announced)
    requires q.groupId == Some(groupId) && q.kind == Diff && q.recipient.Some? && q.template in TEMPLATES
    ensures AfterSend(rows, q).1.Stored? <==>
              q.template != PLAIN ||
              forall i :: 0 <= i < |rows| && rows[i].groupId == q.groupId && rows[i].recipient == q.recipient.value ==> !rows[i].read
  {
    ReadSumSplit(rows, groupId, q.template);
    var found := Matches(rows, q.groupId, q.template);
    var k := if found == [] then |rows| else found[0];
    forall i | 0 <= i < |rows| && i != k && rows[i].groupId == q.groupId ensures rows[i].read {
      if !rows[i].read {
        NoMatchNoUnread(rows, q.groupId, q.template, i);
      }
    }
    var r := if found == [] then RowOf(rows, q) else RowOf(rows, q).(readDate := rows[found[0]].readDate);
    assert AfterSend(rows, q) == Put(rows, k, r);
    if q.template == PLAIN {
      forall i | 0 <= i < |rows| && i != k
        ensures Collide(rows[i], r) <==> rows[i].groupId == q.groupId && rows[i].recipient == q.recipient.value
      {
      }
      if k < |rows| {
        assert !rows[k].read;
      }
    }
  }
}
