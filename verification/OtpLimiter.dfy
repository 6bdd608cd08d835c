/** `VerificationCode` (accounts/models/phone_verification.py): one-time codes and the two
    overlapping windows that limit how many are sent. Times are microseconds. */
module OtpLimiter {
  import opened Options

  const MINUTE := 60_000_000
  const FIVE_MINUTES := 5 * MINUTE
  const FIFTEEN_MINUTES := 15 * MINUTE
  const HOUR := 60 * MINUTE

  const BLACKLISTED := "09120889956"

  datatype Code = Code(
    phone: string, scope: string, code: string, token: string, user: Option<nat>,
    created: int, expiration: int, codeUsed: bool, tokenUsed: bool)

  /** The four clock readings of one send: one per query, one for the default expiration, and
      the insertion time of the row. */
  datatype Readings = Readings(minuteCheck: int, fiveCheck: int, expiry: int, insert: int) {
    predicate Ordered() { minuteCheck <= fiveCheck <= expiry <= insert }
  }

  predicate Within(c: Code, phone: string, scope: string, from: int, to: int) {
    c.phone == phone && c.scope == scope && from <= c.created <= to
  }

  predicate Since(c: Code, phone: string, scope: string, from: int) {
    c.phone == phone && c.scope == scope && from <= c.created
  }

  /** Codes of one phone and scope in a closed time window. */
  function InWindow(codes: seq<Code>, phone: string, scope: string, from: int, to: int): nat {
    if codes == [] then 0
    else InWindow(codes[..|codes| - 1], phone, scope, from, to) +
         if Within(codes[|codes| - 1], phone, scope, from, to) then 1 else 0
  }

  /** What the queries count: everything of this phone and scope from `from` on. */
  function CountSince(codes: seq<Code>, phone: string, scope: string, from: int): nat {
    if codes == [] then 0
    else CountSince(codes[..|codes| - 1], phone, scope, from) +
         if Since(codes[|codes| - 1], phone, scope, from) then 1 else 0
  }

  function CodeLength(scope: string): nat {
    if scope in ["tel", "verify", "verify_widget"] then 4 else 6
  }

  predicate Sends(codes: seq<Code>, phone: string, scope: string, at: Readings, debug: bool) {
    phone != BLACKLISTED &&
    (debug || (CountSince(codes, phone, scope, at.minuteCheck - MINUTE) < 2 &&
               CountSince(codes, phone, scope, at.fiveCheck - FIVE_MINUTES) < 5))
  }

  function NewCode(phone: string, scope: string, code: string, token: string, user: Option<nat>, at: Readings): Code {
    Code(phone, scope, code, token, user, at.insert, at.expiry + FIFTEEN_MINUTES, false, false)
  }

  /** Which rows `get_by_code` looks at. */
  predicate Usable(c: Code, code: string, phone: string, scope: string, user: Option<nat>, now: int) {
    c.code == code && !c.codeUsed && c.expiration > now && c.scope == scope && c.phone == phone &&
    (user.Some? ==> c.user == user)
  }

  predicate TokenUsable(c: Code, token: string, scope: string, now: int) {
    c.token == token && !c.tokenUsed && c.created >= now - HOUR && c.scope == scope
  }

  class VerificationCodes {
    var codes: seq<Code>

    constructor ()
      ensures codes == []
    {
      codes := [];
    }

    /** Check and insert are one atomic step. `random` is the generated code. */
    method SendOtpCode(phone: string, scope: string, user: Option<nat>, at: Readings, random: string, token: string, debug: bool)
        returns (sent: Option<Code>)
      requires |random| == CodeLength(scope)
      modifies this
      ensures Sends(old(codes), phone, scope, at, debug) ==>
                sent == Some(NewCode(phone, scope, if debug then seq(CodeLength(scope), _ => '1') else random, token, user, at)) &&
                codes == old(codes) + [sent.value] && |sent.value.code| == (if scope in ["tel", "verify", "verify_widget"] then 4 else 6)
      ensures !Sends(old(codes), phone, scope, at, debug) ==> sent.None? && codes == old(codes)
    {
      if phone == BLACKLISTED {
        return None;
      }
      if !debug {
        if CountSince(codes, phone, scope, at.minuteCheck - MINUTE) >= 2 {
          return None;
        }
        if CountSince(codes, phone, scope, at.fiveCheck - FIVE_MINUTES) >= 5 {
          return None;
        }
      }
      var code := if debug then seq(CodeLength(scope), _ => '1') else random;
      var otpCode := NewCode(phone, scope, code, token, user, at);
      codes := codes + [otpCode];
      return Some(otpCode);
    }

    /** The newest of the rows with this code, phone and scope, and of this user if one is given, that
        are neither used nor expired, as a position in the table; none if there is none. */
    method GetByCode(code: string, phone: string, scope: string, user: Option<nat>, now: int) returns (found: Option<nat>)
      ensures found.Some? ==> found.value < |codes|
      ensures found.Some? ==>
                var c := codes[found.value];
                c.code == code && c.phone == phone && c.scope == scope && (user != None ==> c.user == user) &&
                c.codeUsed == false && now < c.expiration
      ensures forall k |
                && 0 <= k < |codes| && codes[k].code == code && codes[k].phone == phone && codes[k].scope == scope
                && (user != None ==> codes[k].user == user) && !codes[k].codeUsed && now < codes[k].expiration ::
                found.Some? && codes[k].created <= codes[found.value].created
    {
      found := None;
      for n := 0 to |codes|
        invariant found.Some? ==> found.value < n && Usable(codes[found.value], code, phone, scope, user, now)
        invariant forall k :: 0 <= k < n && Usable(codes[k], code, phone, scope, user, now) ==>
                    found.Some? && codes[k].created <= codes[found.value].created
      {
        if Usable(codes[n], code, phone, scope, user, now) &&
           (found.None? || codes[found.value].created <= codes[n].created) {
          found := Some(n);
        }
      }
    }

    /** Some row with this token and scope that is not used and at most an hour old. */
    method GetByToken(token: string, scope: string, now: int) returns (found: Option<nat>)
      ensures found.Some? ==> found.value < |codes|
      ensures found.Some? ==>
                var c := codes[found.value];
                c.token == token && c.scope == scope && c.tokenUsed == false && now <= c.created + 3_600_000_000
      ensures found.None? ==> forall k :: 0 <= k < |codes| ==>
                !(codes[k].token == token && codes[k].scope == scope && !codes[k].tokenUsed && now <= codes[k].created + 3_600_000_000)
    {
      for n := 0 to |codes|
        invariant forall k :: 0 <= k < n ==> !TokenUsable(codes[k], token, scope, now)
      {
        if TokenUsable(codes[n], token, scope, now) {
          return Some(n);
        }
      }
      return None;
    }

    method SetCodeUsed(k: nat)
      requires k < |codes|
      modifies this
      ensures codes == old(codes)[k := old(codes)[k].(codeUsed := true)]
    {
      codes := codes[k := codes[k].(codeUsed := true)];
    }

    method SetTokenUsed(k: nat)
      requires k < |codes|
      modifies this
      ensures codes == old(codes)[k := old(codes)[k].(tokenUsed := true)]
    {
      codes := codes[k := codes[k].(tokenUsed := true)];
    }
  }

  // ----- the limit over every run -----

  datatype Event =
    | Send(phone: string, scope: string, user: Option<nat>, at: Readings, code: string, token: string)
    | UseCode(k: nat)
    | UseToken(k: nat)

  /** What one call does to the table in production mode. */
  function Apply(codes: seq<Code>, e: Event): seq<Code> {
    match e
    case Send(phone, scope, user, at, code, token) =>
      if Sends(codes, phone, scope, at, false) then codes + [NewCode(phone, scope, code, token, user, at)] else codes
    case UseCode(k) => if k < |codes| then codes[k := codes[k].(codeUsed := true)] else codes
    case UseToken(k) => if k < |codes| then codes[k := codes[k].(tokenUsed := true)] else codes
  }

  function Replay(events: seq<Event>): seq<Code> {
    if events == [] then [] else Apply(Replay(events[..|events| - 1]), events[|events| - 1])
  }

  lemma {:induction false} WindowMonotone(codes: seq<Code>, phone: string, scope: string, from: int, to: int, since: int)
    requires since <= from
    ensures InWindow(codes, phone, scope, from, to) <= CountSince(codes, phone, scope, since)
  {
    if codes != [] {
      WindowMonotone(codes[..|codes| - 1], phone, scope, from, to, since);
    }
  }

  lemma {:induction false} UseKeepsWindow(codes: seq<Code>, k: nat, c: Code, phone: string, scope: string, from: int, to: int)
    requires k < |codes| && c.phone == codes[k].phone && c.scope == codes[k].scope && c.created == codes[k].created
    ensures InWindow(codes[k := c], phone, scope, from, to) == InWindow(codes, phone, scope, from, to)
  {
    var n := |codes| - 1;
    if k == n {
      assert codes[k := c][..n] == codes[..n];
    } else {
      assert codes[k := c][..n] == codes[..n][k := c];
      UseKeepsWindow(codes[..n], k, c, phone, scope, from, to);
    }
  }

  /** A new row enters a window of length `width` only if the query that let it in saw at most
      `limit - 1` codes since the start of that window. */
  lemma InsertKeepsLimit(codes: seq<Code>, c: Code, width: int, limit: nat, read: int, phone: string, scope: string, from: int)
    requires InWindow(codes, phone, scope, from, from + width) <= limit
    requires CountSince(codes, c.phone, c.scope, read - width) < limit && read <= c.created
    ensures InWindow(codes + [c], phone, scope, from, from + width) <= limit
  {
    assert (codes + [c])[..|codes|] == codes;
    if Within(c, phone, scope, from, from + width) {
      WindowMonotone(codes, phone, scope, from, from + width, read - width);
    }
  }

  ghost predicate Limited(codes: seq<Code>, phone: string, scope: string, from: int) {
    InWindow(codes, phone, scope, from, from + MINUTE) <= 2 && InWindow(codes, phone, scope, from, from + FIVE_MINUTES) <= 5
  }

  lemma UseKeepsLimit(codes: seq<Code>, k: nat, c: Code, phone: string, scope: string, from: int)
    requires k < |codes| && c.phone == codes[k].phone && c.scope == codes[k].scope && c.created == codes[k].created
    requires Limited(codes, phone, scope, from)
    ensures Limited(codes[k := c], phone, scope, from)
  {
    UseKeepsWindow(codes, k, c, phone, scope, from, from + MINUTE);
    UseKeepsWindow(codes, k, c, phone, scope, from, from + FIVE_MINUTES);
  }

  lemma ApplyKeepsLimit(codes: seq<Code>, e: Event, phone: string, scope: string, from: int)
    requires Limited(codes, phone, scope, from) && (e.Send? ==> e.at.Ordered())
    ensures Limited(Apply(codes, e), phone, scope, from)
  {
    match e
    case Send(p, s, user, at, code, token) =>
      if Sends(codes, p, s, at, false) {
        var c := NewCode(p, s, code, token, user, at);
        InsertKeepsLimit(codes, c, MINUTE, 2, at.minuteCheck, phone, scope, from);
        InsertKeepsLimit(codes, c, FIVE_MINUTES, 5, at.fiveCheck, phone, scope, from);
      }
    case UseCode(k) =>
      if k < |codes| {
        UseKeepsLimit(codes, k, codes[k].(codeUsed := true), phone, scope, from);
      }
    case UseToken(k) =>
      if k < |codes| {
        UseKeepsLimit(codes, k, codes[k].(tokenUsed := true), phone, scope, from);
      }
  }

  /** Each phone and scope has at most 2 codes in every closed minute and at most 5 in every closed
      five minutes, over every run of atomic sends. The clock may even jump between calls: only
      the readings of one call have to be in order. */
  lemma {:induction false} SlidingWindowLimit(events: seq<Event>, phone: string, scope: string, from: int)
    requires forall k :: 0 <= k < |events| && events[k].Send? ==> events[k].at.Ordered()
    ensures InWindow(Replay(events), phone, scope, from, from + MINUTE) <= 2
    ensures InWindow(Replay(events), phone, scope, from, from + FIVE_MINUTES) <= 5
  {
    if events != [] {
      var n := |events| - 1;
      SlidingWindowLimit(events[..n], phone, scope, from);
      ApplyKeepsLimit(Replay(events[..n]), events[n], phone, scope, from);
    }
  }

  // ----- what the limit counts -----

  /** The rows of this phone and scope created since. */
  function SentSince(codes: seq<Code>, phone: string, scope: string, from: int): set<nat> {
    set k: nat | k < |codes| && codes[k].phone == phone && codes[k].scope == scope && codes[k].created >= from
  }

  lemma SentSinceStep(codes: seq<Code>, phone: string, scope: string, from: int)
    requires codes != []
    ensures var n: nat := |codes| - 1; var before := SentSince(codes[..n], phone, scope, from);
            n !in before && SentSince(codes, phone, scope, from) == if Since(codes[n], phone, scope, from) then before + {n} else before
  {
  }

  lemma {:induction false} CountSinceExact(codes: seq<Code>, phone: string, scope: string, from: int)
    ensures CountSince(codes, phone, scope, from) == |SentSince(codes, phone, scope, from)|
  {
    if codes == [] {
      assert SentSince(codes, phone, scope, from) == {};
    } else {
      CountSinceExact(codes[..|codes| - 1], phone, scope, from);
      SentSinceStep(codes, phone, scope, from);
    }
  }

  /** When a code is sent: the phone is not the blacklisted one, and outside debug mode fewer than two of
      its codes are from the last minute and fewer than five from the last five. */
  lemma SendsExactly(codes: seq<Code>, phone: string, scope: string, at: Readings, debug: bool)
    ensures Sends(codes, phone, scope, at, debug) <==>
              phone != "09120889956" &&
              (debug || (|SentSince(codes, phone, scope, at.minuteCheck - 60_000_000)| < 2 &&
                         |SentSince(codes, phone, scope, at.fiveCheck - 300_000_000)| < 5))
  {
    CountSinceExact(codes, phone, scope, at.minuteCheck - MINUTE);
    CountSinceExact(codes, phone, scope, at.fiveCheck - FIVE_MINUTES);
  }

  // ----- redeeming over every run -----

  /** Rows stay where they are; only the two marks change, and only from unused to used. */
  ghost predicate Later(codes: seq<Code>, codes': seq<Code>) {
    |codes| <= |codes'| &&
    forall k :: 0 <= k < |codes| ==>
      codes'[k].(codeUsed := codes[k].codeUsed, tokenUsed := codes[k].tokenUsed) == codes[k] &&
      (codes[k].codeUsed ==> codes'[k].codeUsed) && (codes[k].tokenUsed ==> codes'[k].tokenUsed)
  }

  lemma {:induction false} RunLater(events: seq<Event>, j: nat)
    requires j <= |events|
    ensures Later(Replay(events[..j]), Replay(events))
    decreases |events|
  {
    if j == |events| {
      assert events[..j] == events;
    } else {
      var n := |events| - 1;
      assert events[..n][..j] == events[..j];
      RunLater(events[..n], j);
    }
  }

  /** Whether some `get_by_code` call for the phone and scope can return the row. */
  ghost predicate Redeemable(c: Code, phone: string, scope: string, now: int) {
    exists code, user :: Usable(c, code, phone, scope, user, now)
  }

  lemma RedeemableExactly(c: Code, phone: string, scope: string, now: int)
    ensures Redeemable(c, phone, scope, now) <==> c.phone == phone && c.scope == scope && !c.codeUsed && now < c.expiration
  {
    if c.phone == phone && c.scope == scope && !c.codeUsed && now < c.expiration {
      assert Usable(c, c.code, phone, scope, None, now);
    }
  }

  /** Once a code was marked used, no later `get_by_code` call returns it, whatever is asked for and
      whatever happened in between. */
  lemma UsedCodeIsGone(events: seq<Event>, j: nat, k: nat, phone: string, scope: string, now: int)
    requires j < |events| && events[j] == UseCode(k) && k < |Replay(events[..j])|
    ensures k < |Replay(events)| && !Redeemable(Replay(events)[k], phone, scope, now)
  {
    var before, after := Replay(events[..j]), Replay(events[..j + 1]);
    assert events[..j + 1][..j] == events[..j];
    assert after == before[k := before[k].(codeUsed := true)];
    RunLater(events, j + 1);
    RedeemableExactly(Replay(events)[k], phone, scope, now);
  }

  lemma UsedTokenIsGone(events: seq<Event>, j: nat, k: nat, token: string, scope: string, now: int)
    requires j < |events| && events[j] == UseToken(k) && k < |Replay(events[..j])|
    ensures k < |Replay(events)| && !TokenUsable(Replay(events)[k], token, scope, now)
  {
    var before, after := Replay(events[..j]), Replay(events[..j + 1]);
    assert events[..j + 1][..j] == events[..j];
    assert after == before[k := before[k].(tokenUsed := true)];
    RunLater(events, j + 1);
  }

  lemma RowStays(codes: seq<Code>, e: Event, k: nat)
    requires k < |codes| && e != UseCode(k)
    ensures k < |Apply(codes, e)| && Apply(codes, e)[k].(tokenUsed := codes[k].tokenUsed) == codes[k]
  {
  }

  lemma {:induction false} SentCodeStays(events: seq<Event>, j: nat)
    requires j < |events| && events[j].Send? && Sends(Replay(events[..j]), events[j].phone, events[j].scope, events[j].at, false)
    requires forall i :: j < i < |events| ==> events[i] != UseCode(|Replay(events[..j])|)
    ensures var k, e := |Replay(events[..j])|, events[j];
            k < |Replay(events)| && Replay(events)[k].(tokenUsed := false) == NewCode(e.phone, e.scope, e.code, e.token, e.user, e.at)
    decreases |events|
  {
    var n := |events| - 1;
    var init := events[..n];
    if j < n {
      assert init[..j] == events[..j];
      SentCodeStays(init, j);
      RowStays(Replay(init), events[n], |Replay(events[..j])|);
    }
  }

  /** And until it is marked used a sent code can be redeemed by whoever has it, for 15 minutes. */
  lemma SentCodeIsFound(events: seq<Event>, j: nat, now: int)
    requires j < |events| && events[j].Send? && Sends(Replay(events[..j]), events[j].phone, events[j].scope, events[j].at, false)
    requires forall i :: j < i < |events| ==> events[i] != UseCode(|Replay(events[..j])|)
    ensures var k, e := |Replay(events[..j])|, events[j];
            k < |Replay(events)| && Replay(events)[k].created == e.at.insert &&
            (Usable(Replay(events)[k], e.code, e.phone, e.scope, e.user, now) <==> now < e.at.expiry + 900_000_000)
  {
    SentCodeStays(events, j);
  }

  /** Rows of the phone and scope that are neither used nor expired at `now`. */
  function Live(codes: seq<Code>, phone: string, scope: string, now: int): nat {
    if codes == [] then 0
    else
      var c := codes[|codes| - 1];
      Live(codes[..|codes| - 1], phone, scope, now) +
      if c.phone == phone && c.scope == scope && !c.codeUsed && c.expiration > now then 1 else 0
  }

  lemma {:induction false} RedeemableAreLive(codes: seq<Code>, rows: set<nat>, phone: string, scope: string, now: int)
    requires forall k :: k in rows ==> k < |codes| && Redeemable(codes[k], phone, scope, now)
    ensures |rows| <= Live(codes, phone, scope, now)
  {
    if codes == [] {
      assert rows == {};
    } else {
      var n: nat := |codes| - 1;
      var rest := rows - {n};
      forall k | k in rest ensures k < n && Redeemable(codes[..n][k], phone, scope, now) {
        assert codes[..n][k] == codes[k];
      }
      RedeemableAreLive(codes[..n], rest, phone, scope, now);
      RedeemableExactly(codes[n], phone, scope, now);
      assert n in rows ==> rows == rest + {n};
      assert n !in rows ==> rows == rest;
    }
  }

  ghost predicate Dated(codes: seq<Code>, now: int) {
    forall k :: 0 <= k < |codes| ==> codes[k].created <= now && codes[k].expiration <= codes[k].created + FIFTEEN_MINUTES
  }

  lemma {:induction false} LiveInThreeWindows(codes: seq<Code>, phone: string, scope: string, now: int)
    requires Dated(codes, now)
    ensures Live(codes, phone, scope, now)
         <= InWindow(codes, phone, scope, now - FIFTEEN_MINUTES, now - 10 * MINUTE)
          + InWindow(codes, phone, scope, now - 10 * MINUTE, now - FIVE_MINUTES)
          + InWindow(codes, phone, scope, now - FIVE_MINUTES, now)
  {
    if codes != [] {
      LiveInThreeWindows(codes[..|codes| - 1], phone, scope, now);
    }
  }

  lemma {:induction false} ReplayDated(events: seq<Event>, now: int)
    requires forall k :: 0 <= k < |events| && events[k].Send? ==> events[k].at.Ordered() && events[k].at.insert <= now
    ensures Dated(Replay(events), now)
  {
    if events != [] {
      ReplayDated(events[..|events| - 1], now);
    }
  }

  /** So at no time are there more than 15 rows that some `get_by_code` call for a phone and scope
      returns. */
  lemma LiveCodesBounded(events: seq<Event>, phone: string, scope: string, now: int, rows: set<nat>)
    requires forall k :: 0 <= k < |events| && events[k].Send? ==> events[k].at.Ordered() && events[k].at.insert <= now
    requires forall k :: k in rows ==> k < |Replay(events)| && Redeemable(Replay(events)[k], phone, scope, now)
    ensures |rows| <= 15
  {
    RedeemableAreLive(Replay(events), rows, phone, scope, now);
    ReplayDated(events, now);
    LiveInThreeWindows(Replay(events), phone, scope, now);
    SlidingWindowLimit(events, phone, scope, now - FIFTEEN_MINUTES);
    SlidingWindowLimit(events, phone, scope, now - 10 * MINUTE);
    SlidingWindowLimit(events, phone, scope, now - FIVE_MINUTES);
  }
}
