/** A run of ordinary forms and tasks, from an empty database, after which two verified users share
    a national code: a duplicate that comes back with another code is promoted at once, with a code
    nobody has confirmed, and the sign-up widget looks for confirmed codes only. */
module KycCollision {
  import opened Options
  import opened Kyc
  import opened KycUser
  import opened KycFlows
  import opened KycRuns
  import opened KycSafety
  import opened KycVerdicts
  import Names
  import Words

  /** A form that asks for the names to come from the card. */
  function FormData(code: string, pan: string): BasicInfo {
    BasicInfo(code, 0, "", "", pan, 20 * 365, false)
  }

  /** After the first form. */
  function Waiting(code: string): Profile {
    Newcomer("").(status := Pending, nationalCode := code, birthDate := Some(0))
  }

  /** With all evidence true. */
  function Judged(level: nat, status: Status, reason: Reason, code: string, codeVerified: Verdict, owner: string): Profile {
    Profile(level, status, reason, code, codeVerified, None, Some(0), Some(true),
            Names.FirstName(owner), Some(true), Names.LastName(owner), Some(true), None, None)
  }

  function Raised(code: string, codeVerified: Verdict, owner: string): Profile {
    Judged(2, Init, NoReason, code, codeVerified, owner)
  }

  function Duplicate(code: string, owner: string): Profile {
    Judged(1, Rejected, NationalCodeDuplicated, code, Some(false), owner)
  }

  /** Raised with its second code; the reason of the earlier rejection is never cleared. */
  function Returned(code: string, owner: string): Profile {
    Judged(2, Init, NationalCodeDuplicated, code, None, owner)
  }

  function FreshCard(id: nat, pan: string): Card {
    Card(id, pan, None, true, false, "", "")
  }

  function KnownCard(id: nat, pan: string, owner: string): Card {
    Card(id, pan, Some(true), true, false, owner, "")
  }

  // ----- the three kinds of step; a user's only card has the user's own id -----

  function FormOf(id: nat, code: string, pan: string): Step {
    BasicForm(id, FormData(code, pan), None, None, id)
  }

  function TaskOf(id: nat, owner: string): Step {
    BasicTask(id, Some(id), Success(true), Success(CardInfo(owner)))
  }

  function SecondFormOf(id: nat, code: string, pan: string): Step {
    BasicForm(id, FormData(code, pan), Some(id), Some(id), 4)
  }

  /** A user without cards gets a new one. */
  lemma NewCard(cards: Cards, id: nat, cid: nat, pan: string)
    requires forall c :: c in cards ==> cards[c].owner != id
    ensures KycAnswer(cards, id, None) && PanAnswer(cards, id, pan, None) && !PanFrozen(cards, id, pan)
    ensures ChooseCard(cards, id, pan, None, None, cid) == (cards[cid := FreshCard(id, pan)], cid)
  {
  }

  lemma PutInLine(db: Db, id: nat, code: string)
    requires id in db.users && db.users[id] == Newcomer("") && code != ""
    ensures SetStatus(Store(db, id, Newcomer("").(nationalCode := code, birthDate := Some(0))), id, Pending, NoReason) ==
            Db(db.users[id := Waiting(code)], db.cards)
  {
    var p := Newcomer("").(nationalCode := code, birthDate := Some(0));
    assert Store(db, id, p) == Db(db.users[id := p], db.cards);
  }

  lemma FirstSubmit(db: Db, id: nat, cid: nat, code: string, pan: string, cards: Cards)
    requires id in db.users && db.users[id] == Newcomer("") && cid in cards && cards[cid] == FreshCard(id, pan)
    requires code != "" && !Taken(db.users, id, code)
    ensures Submit(db, id, FormData(code, pan), cards, cid) == Db(db.users[id := Waiting(code)], cards)
  {
    assert WithData(Newcomer(""), FormData(code, pan)) == Newcomer("").(nationalCode := code, birthDate := Some(0));
    assert cards[cid := cards[cid].(verified := None)] == cards;
    PutInLine(Db(db.users, cards), id, code);
    TakenOwnRow(db.users, id, Waiting(code), code);
  }

  predicate FormReady(db: Db, id: nat, code: string) {
    && id in db.users && db.users[id] == Newcomer("") && id !in db.cards
    && (forall c :: c in db.cards ==> db.cards[c].owner != id)
    && code != "" && !Taken(db.users, id, code)
  }

  /** An accepted form whose card choice is known. */
  lemma Accepted(db: Db, s: Step, cards: Cards, cid: nat)
    requires s.BasicForm? && Applies(db, s) && !Refused(db, s.id, s.data) && cid in cards
    requires ChooseCard(db.cards, s.id, s.data.pan, s.live, s.same, s.newId) == (cards, cid)
    ensures Apply(db, s) == Submit(db, s.id, s.data, cards, cid)
  {
  }

  lemma NotRefused(db: Db, id: nat, code: string, pan: string)
    requires id in db.users && db.users[id].level == 1 && db.users[id].status in {Init, Rejected}
    requires !PanFrozen(db.cards, id, pan)
    ensures !Refused(db, id, FormData(code, pan))
  {
  }

  lemma FirstForm(db: Db, id: nat, code: string, pan: string)
    requires FormReady(db, id, code)
    ensures Applies(db, FormOf(id, code, pan))
    ensures Apply(db, FormOf(id, code, pan)) == Db(db.users[id := Waiting(code)], db.cards[id := FreshCard(id, pan)])
  {
    var cards := db.cards[id := FreshCard(id, pan)];
    NewCard(db.cards, id, id, pan);
    NotRefused(db, id, code, pan);
    FirstSubmit(db, id, id, code, pan, cards);
    Accepted(db, FormOf(id, code, pan), cards, id);
  }

  predicate TaskReady(db: Db, id: nat, code: string, pan: string) {
    && id in db.users && db.users[id] == Waiting(code) && code != ""
    && id in db.cards && db.cards[id] == FreshCard(id, pan)
    && (forall c :: c in db.cards && c != id ==> db.cards[c].owner != id) && !Duplicated(db.cards, id)
  }

  function Known(code: string): Profile {
    Waiting(code).(codeVerified := Some(true), birthDateVerified := Some(true))
  }

  /** The matcher call: nothing rests on it yet, because the names are still missing. */
  lemma TaskMatches(db: Db, id: nat, cid: nat, code: string, pan: string)
    requires id in db.users && db.users[id] == Waiting(code) && cid in db.cards && db.cards[cid] == FreshCard(id, pan)
    ensures Matched(db, id, cid, Some(true), Some(true)) ==
            (Db(db.users[id := Known(code)], db.cards[cid := KnownCard(id, pan, "")]), Some(true))
  {
    var db2 := Db(db.users[id := Known(code)], db.cards[cid := KnownCard(id, pan, "")]);
    assert Store(db, id, Known(code)) == Db(db.users[id := Known(code)], db.cards);
    assert db2.users[id := Known(code)] == db2.users;
    assert VerifyIfReady(db2, id) == db2;
  }

  /** The name query completes the evidence. */
  lemma TaskNames(db: Db, id: nat, cid: nat, pan: string, code: string, owner: string)
    requires id in db.users && db.users[id] == Known(code) && code != ""
    requires cid in db.cards && db.cards[cid] == KnownCard(id, pan, owner)
    requires Names.FirstName(owner) != "" && Names.LastName(owner) != ""
    ensures var db' := Db(db.users[id := Outcome(db.users, id, code, owner)], db.cards);
            Named(db, id, Names.FirstName(owner), Names.LastName(owner)) == (db', Some(true)) &&
            VerifyIfReady(db', id) == db'
  {
    var q := Outcome(db.users, id, code, owner);
    assert db.cards[cid].owner == id && !db.cards[cid].deleted && db.cards[cid].verified == Some(true);
    var p := Known(code).(firstName := Names.FirstName(owner), lastName := Names.LastName(owner),
                          firstNameVerified := Some(true), lastNameVerified := Some(true));
    assert Store(db, id, p) == Db(db.users[id := q], db.cards);
    OutcomeRests(db, id, code, owner);
  }

  /** A raised user is left alone, and a duplicate refused again. */
  lemma OutcomeRests(db: Db, id: nat, code: string, owner: string)
    requires id in db.users
    ensures var q := Outcome(db.users, id, code, owner); var db' := Db(db.users[id := q], db.cards);
            VerifyIfReady(db', id) == db'
  {
    var q := Outcome(db.users, id, code, owner);
    TakenOwnRow(db.users, id, q, code);
    assert db.users[id := q][id := q] == db.users[id := q];
  }

  function Outcome(users: Users, id: nat, code: string, owner: string): Profile {
    if Taken(users, id, code) then Duplicate(code, owner) else Raised(code, Some(true), owner)
  }

  lemma Task(db: Db, id: nat, code: string, pan: string, owner: string)
    requires TaskReady(db, id, code, pan) && Names.FirstName(owner) != "" && Names.LastName(owner) != ""
    ensures Applies(db, TaskOf(id, owner))
    ensures Apply(db, TaskOf(id, owner)) ==
            Db(db.users[id := Outcome(db.users, id, code, owner)], db.cards[id := KnownCard(id, pan, owner)])
  {
    var db1 := Db(db.users[id := Known(code)], db.cards[id := KnownCard(id, pan, "")]);
    var db2 := SetCard(db1, id, KnownCard(id, pan, owner));
    TaskMatches(db, id, id, code, pan);
    assert MatchCard(db, id, id, Success(true)) == (db1, Some(true));
    assert NameFromCard(db1, id, id, Success(CardInfo(owner))) == Named(db2, id, Names.FirstName(owner), Names.LastName(owner));
    TaskNames(db2, id, id, pan, code, owner);
    TakenOwnRow(db.users, id, Known(code), code);
    TaskEnd(db, id, id, code, pan, owner, db1, db2);
  }

  lemma TaskEnd(db: Db, id: nat, cid: nat, code: string, pan: string, owner: string, db1: Db, db2: Db)
    requires id in db.users && cid in db.cards && Taken(db1.users, id, code) == Taken(db.users, id, code)
    requires db1 == Db(db.users[id := Known(code)], db.cards[cid := KnownCard(id, pan, "")])
    requires db2 == SetCard(db1, cid, KnownCard(id, pan, owner))
    ensures Db(db2.users[id := Outcome(db2.users, id, code, owner)], db2.cards) ==
            Db(db.users[id := Outcome(db.users, id, code, owner)], db.cards[cid := KnownCard(id, pan, owner)])
  {
    var q := Outcome(db.users, id, code, owner);
    assert db.users[id := Known(code)][id := q] == db.users[id := q];
  }

  /** The duplicate comes back with another code and is promoted by the form itself. */
  lemma SecondForm(db: Db, id: nat, former: string, code: string, pan: string, owner: string)
    requires SecondReady(db, id, former, code, pan, owner)
    ensures Applies(db, SecondFormOf(id, code, pan))
    ensures Apply(db, SecondFormOf(id, code, pan)) == Db(db.users[id := Returned(code, owner)], db.cards)
  {
    OwnCard(db.cards, id, pan, owner);
    NotRefused(db, id, code, pan);
    SecondSubmit(db, id, former, code, pan, owner);
    Accepted(db, SecondFormOf(id, code, pan), db.cards, id);
  }

  predicate SecondReady(db: Db, id: nat, former: string, code: string, pan: string, owner: string) {
    && id in db.users && db.users[id] == Duplicate(former, owner) && code != "" && !Taken(db.users, id, code)
    && id in db.cards && db.cards[id] == KnownCard(id, pan, owner) && 4 !in db.cards
    && (forall c :: c in db.cards && c != id ==> db.cards[c].owner != id)
    && Names.FirstName(owner) != "" && Names.LastName(owner) != ""
  }

  /** The user's verified card is found again and kept. */
  lemma OwnCard(cards: Cards, id: nat, pan: string, owner: string)
    requires id in cards && cards[id] == KnownCard(id, pan, owner)
    requires forall c :: c in cards && c != id ==> cards[c].owner != id
    ensures KycAnswer(cards, id, Some(id)) && PanAnswer(cards, id, pan, Some(id)) && !PanFrozen(cards, id, pan)
    ensures ChooseCard(cards, id, pan, Some(id), Some(id), 4) == (cards, id)
  {
  }

  lemma SecondSubmit(db: Db, id: nat, former: string, code: string, pan: string, owner: string)
    requires SecondReady(db, id, former, code, pan, owner)
    ensures Submit(db, id, FormData(code, pan), db.cards, id) == Db(db.users[id := Returned(code, owner)], db.cards)
  {
    var p := Judged(1, Rejected, NationalCodeDuplicated, code, None, owner);
    assert WithData(Duplicate(former, owner), FormData(code, pan)) == p;
    assert db.cards[id].owner == id && !db.cards[id].deleted && db.cards[id].verified == Some(true);
    TakenOwnRow(db.users, id, p, code);
    assert Store(db, id, p) == Db(db.users[id := p], db.cards);
    assert SetStatus(Store(db, id, p), id, Pending, NoReason).users == db.users[id := Returned(code, owner)];
    TakenOwnRow(db.users, id, Returned(code, owner), code);
  }

  // ----- runs -----

  const EMPTY: Db := Db(map[], map[])

  lemma Next(steps: seq<Step>, s: Step)
    requires Applies(Replay(EMPTY, steps), s)
    ensures Replay(EMPTY, steps + [s]) == Apply(Replay(EMPTY, steps), s)
  {
    assert (steps + [s])[..|steps|] == steps;
  }

  lemma FormNext(steps: seq<Step>, db: Db, id: nat, code: string, pan: string, db': Db)
    requires Replay(EMPTY, steps) == db && FormReady(db, id, code)
    requires db' == Db(db.users[id := Waiting(code)], db.cards[id := FreshCard(id, pan)])
    ensures Replay(EMPTY, steps + [FormOf(id, code, pan)]) == db'
  {
    FirstForm(db, id, code, pan);
    Next(steps, FormOf(id, code, pan));
  }

  lemma TaskNext(steps: seq<Step>, db: Db, id: nat, code: string, pan: string, owner: string, db': Db)
    requires Replay(EMPTY, steps) == db && TaskReady(db, id, code, pan)
    requires Names.FirstName(owner) != "" && Names.LastName(owner) != ""
    requires db' == Db(db.users[id := Outcome(db.users, id, code, owner)], db.cards[id := KnownCard(id, pan, owner)])
    ensures Replay(EMPTY, steps + [TaskOf(id, owner)]) == db'
  {
    Task(db, id, code, pan, owner);
    Next(steps, TaskOf(id, owner));
  }

  lemma SecondNext(steps: seq<Step>, db: Db, id: nat, former: string, code: string, pan: string, owner: string, db': Db)
    requires Replay(EMPTY, steps) == db && SecondReady(db, id, former, code, pan, owner)
    requires db' == Db(db.users[id := Returned(code, owner)], db.cards)
    ensures Replay(EMPTY, steps + [SecondFormOf(id, code, pan)]) == db'
  {
    SecondForm(db, id, former, code, pan, owner);
    Next(steps, SecondFormOf(id, code, pan));
  }

  // ----- the run -----

  /** Three national codes, three card numbers and the owner's name on the cards. */
  datatype Cast = Cast(x: string, y: string, z: string, a: string, b: string, c: string, owner: string) {
    predicate Distinct() {
      && x != "" && y != "" && z != "" && x != y && x != z && y != z && a != b && a != c && b != c
      && Names.FirstName(owner) != "" && Names.LastName(owner) != ""
    }
  }

  function Three<T>(p: T, q: T, r: T): map<nat, T> {
    map[1 := p, 2 := q, 3 := r]
  }

  lemma PutInThree<T>(p: T, q: T, r: T, v: T)
    ensures Three(p, q, r)[1 := v] == Three(v, q, r)
    ensures Three(p, q, r)[2 := v] == Three(p, v, r)
    ensures Three(p, q, r)[3 := v] == Three(p, q, v)
  {
  }

  predicate Holds(p: Profile, code: string) {
    p.level >= 2 && p.nationalCode == code
  }

  lemma TakenInThree(p: Profile, q: Profile, r: Profile, code: string)
    ensures var users := Three(p, q, r);
            (Taken(users, 1, code) <==> Holds(q, code) || Holds(r, code)) &&
            (Taken(users, 2, code) <==> Holds(p, code) || Holds(r, code)) &&
            (Taken(users, 3, code) <==> Holds(p, code) || Holds(q, code))
  {
    var users := Three(p, q, r);
    assert users[1] == p && users[2] == q && users[3] == r;
  }

  lemma TwinsInThree(p: Card, q: Card, r: Card)
    requires p.pan != q.pan && p.pan != r.pan && q.pan != r.pan
    ensures var cards := Three(p, q, r); !Duplicated(cards, 1) && !Duplicated(cards, 2) && !Duplicated(cards, 3)
  {
  }

  lemma OwnersInThree(p: Card, q: Card, r: Card)
    requires p.owner == 1 && q.owner == 2 && r.owner == 3
    ensures var cards := Three(p, q, r); forall c :: c in cards ==> cards[c].owner == c
  {
  }

  // The database after each step.

  function Signed(): Db {
    Db(Three(Newcomer(""), Newcomer(""), Newcomer("")), map[])
  }

  function Formed1(k: Cast): Db {
    Db(Three(Waiting(k.x), Newcomer(""), Newcomer("")), map[1 := FreshCard(1, k.a)])
  }

  function Formed2(k: Cast): Db {
    Db(Three(Waiting(k.x), Waiting(k.x), Newcomer("")), map[1 := FreshCard(1, k.a), 2 := FreshCard(2, k.b)])
  }

  function Formed3(k: Cast): Db {
    Db(Three(Waiting(k.x), Waiting(k.x), Waiting(k.x)), Three(FreshCard(1, k.a), FreshCard(2, k.b), FreshCard(3, k.c)))
  }

  function Tasked1(k: Cast): Db {
    Db(Three(Raised(k.x, Some(true), k.owner), Waiting(k.x), Waiting(k.x)),
       Three(KnownCard(1, k.a, k.owner), FreshCard(2, k.b), FreshCard(3, k.c)))
  }

  function Tasked2(k: Cast): Db {
    Db(Three(Raised(k.x, Some(true), k.owner), Duplicate(k.x, k.owner), Waiting(k.x)),
       Three(KnownCard(1, k.a, k.owner), KnownCard(2, k.b, k.owner), FreshCard(3, k.c)))
  }

  function Tasked3(k: Cast): Db {
    Db(Three(Raised(k.x, Some(true), k.owner), Duplicate(k.x, k.owner), Duplicate(k.x, k.owner)), KnownCards(k))
  }

  function Second1(k: Cast): Db {
    Db(Three(Raised(k.x, Some(true), k.owner), Returned(k.y, k.owner), Duplicate(k.x, k.owner)), KnownCards(k))
  }

  function Second2(k: Cast): Db {
    Db(Three(Raised(k.x, Some(true), k.owner), Returned(k.y, k.owner), Returned(k.z, k.owner)), KnownCards(k))
  }

  function KnownCards(k: Cast): Cards {
    Three(KnownCard(1, k.a, k.owner), KnownCard(2, k.b, k.owner), KnownCard(3, k.c, k.owner))
  }

  lemma SignUpsRun()
    ensures Replay(EMPTY, SignUps()) == Signed()
  {
    Next([], SignUp(1, ""));
    Next([SignUp(1, "")], SignUp(2, ""));
    Next([SignUp(1, ""), SignUp(2, "")], SignUp(3, ""));
    assert [] + [SignUp(1, "")] == [SignUp(1, "")];
    assert [SignUp(1, "")] + [SignUp(2, "")] == [SignUp(1, ""), SignUp(2, "")];
    assert [SignUp(1, ""), SignUp(2, "")] + [SignUp(3, "")] == SignUps();
  }

  function SignUps(): seq<Step> {
    [SignUp(1, ""), SignUp(2, ""), SignUp(3, "")]
  }

  lemma Form1(k: Cast, steps: seq<Step>)
    requires k.Distinct() && Replay(EMPTY, steps) == Signed()
    ensures Replay(EMPTY, steps + [FormOf(1, k.x, k.a)]) == Formed1(k)
  {
    var w, n := Waiting(k.x), Newcomer("");
    TakenInThree(n, n, n, k.x);
    PutInThree(n, n, n, w);
    FormNext(steps, Signed(), 1, k.x, k.a, Formed1(k));
  }

  lemma Form2(k: Cast, steps: seq<Step>)
    requires k.Distinct() && Replay(EMPTY, steps) == Formed1(k)
    ensures Replay(EMPTY, steps + [FormOf(2, k.x, k.b)]) == Formed2(k)
  {
    var w, n := Waiting(k.x), Newcomer("");
    TakenInThree(w, n, n, k.x);
    PutInThree(w, n, n, w);
    FormNext(steps, Formed1(k), 2, k.x, k.b, Formed2(k));
  }

  lemma Form3(k: Cast, steps: seq<Step>)
    requires k.Distinct() && Replay(EMPTY, steps) == Formed2(k)
    ensures Replay(EMPTY, steps + [FormOf(3, k.x, k.c)]) == Formed3(k)
  {
    var w, n := Waiting(k.x), Newcomer("");
    TakenInThree(w, w, n, k.x);
    PutInThree(w, w, n, w);
    FormNext(steps, Formed2(k), 3, k.x, k.c, Formed3(k));
  }

  lemma Task1(k: Cast, steps: seq<Step>)
    requires k.Distinct() && Replay(EMPTY, steps) == Formed3(k)
    ensures Replay(EMPTY, steps + [TaskOf(1, k.owner)]) == Tasked1(k)
  {
    var w, f1, f2, f3 := Waiting(k.x), FreshCard(1, k.a), FreshCard(2, k.b), FreshCard(3, k.c);
    TakenInThree(w, w, w, k.x);
    TwinsInThree(f1, f2, f3);
    OwnersInThree(f1, f2, f3);
    PutInThree(w, w, w, Raised(k.x, Some(true), k.owner));
    PutInThree(f1, f2, f3, KnownCard(1, k.a, k.owner));
    TaskNext(steps, Formed3(k), 1, k.x, k.a, k.owner, Tasked1(k));
  }

  lemma Task2(k: Cast, steps: seq<Step>)
    requires k.Distinct() && Replay(EMPTY, steps) == Tasked1(k)
    ensures Replay(EMPTY, steps + [TaskOf(2, k.owner)]) == Tasked2(k)
  {
    var w, r, f1, f2, f3 := Waiting(k.x), Raised(k.x, Some(true), k.owner), KnownCard(1, k.a, k.owner), FreshCard(2, k.b), FreshCard(3, k.c);
    TakenInThree(r, w, w, k.x);
    TwinsInThree(f1, f2, f3);
    OwnersInThree(f1, f2, f3);
    PutInThree(r, w, w, Duplicate(k.x, k.owner));
    PutInThree(f1, f2, f3, KnownCard(2, k.b, k.owner));
    TaskNext(steps, Tasked1(k), 2, k.x, k.b, k.owner, Tasked2(k));
  }

  lemma Task3(k: Cast, steps: seq<Step>)
    requires k.Distinct() && Replay(EMPTY, steps) == Tasked2(k)
    ensures Replay(EMPTY, steps + [TaskOf(3, k.owner)]) == Tasked3(k)
  {
    var w, r, d := Waiting(k.x), Raised(k.x, Some(true), k.owner), Duplicate(k.x, k.owner);
    var f1, f2, f3 := KnownCard(1, k.a, k.owner), KnownCard(2, k.b, k.owner), FreshCard(3, k.c);
    TakenInThree(r, d, w, k.x);
    TwinsInThree(f1, f2, f3);
    OwnersInThree(f1, f2, f3);
    PutInThree(r, d, w, d);
    PutInThree(f1, f2, f3, KnownCard(3, k.c, k.owner));
    TaskNext(steps, Tasked2(k), 3, k.x, k.c, k.owner, Tasked3(k));
  }

  lemma SecondForm2(k: Cast, steps: seq<Step>)
    requires k.Distinct() && Replay(EMPTY, steps) == Tasked3(k)
    ensures Replay(EMPTY, steps + [SecondFormOf(2, k.y, k.b)]) == Second1(k)
  {
    var r, d := Raised(k.x, Some(true), k.owner), Duplicate(k.x, k.owner);
    TakenInThree(r, d, d, k.y);
    OwnersInThree(KnownCard(1, k.a, k.owner), KnownCard(2, k.b, k.owner), KnownCard(3, k.c, k.owner));
    PutInThree(r, d, d, Returned(k.y, k.owner));
    SecondNext(steps, Tasked3(k), 2, k.x, k.y, k.b, k.owner, Second1(k));
  }

  lemma SecondForm3(k: Cast, steps: seq<Step>)
    requires k.Distinct() && Replay(EMPTY, steps) == Second1(k)
    ensures Replay(EMPTY, steps + [SecondFormOf(3, k.z, k.c)]) == Second2(k)
  {
    var r, d, q := Raised(k.x, Some(true), k.owner), Duplicate(k.x, k.owner), Returned(k.y, k.owner);
    TakenInThree(r, q, d, k.z);
    OwnersInThree(KnownCard(1, k.a, k.owner), KnownCard(2, k.b, k.owner), KnownCard(3, k.c, k.owner));
    PutInThree(r, q, d, Returned(k.z, k.owner));
    SecondNext(steps, Second1(k), 3, k.x, k.z, k.c, k.owner, Second2(k));
  }

  // ----- the run -----

  function UpToTasks(k: Cast): seq<Step> {
    SignUps() + [FormOf(1, k.x, k.a)] + [FormOf(2, k.x, k.b)] + [FormOf(3, k.x, k.c)] +
    [TaskOf(1, k.owner)] + [TaskOf(2, k.owner)] + [TaskOf(3, k.owner)]
  }

  lemma TasksRun(k: Cast)
    requires k.Distinct()
    ensures Replay(EMPTY, UpToTasks(k)) == Tasked3(k)
  {
    var s0 := SignUps();
    var s1 := s0 + [FormOf(1, k.x, k.a)];
    var s2 := s1 + [FormOf(2, k.x, k.b)];
    var s3 := s2 + [FormOf(3, k.x, k.c)];
    var s4 := s3 + [TaskOf(1, k.owner)];
    var s5 := s4 + [TaskOf(2, k.owner)];
    SignUpsRun();
    Form1(k, s0);
    Form2(k, s1);
    Form3(k, s2);
    Task1(k, s3);
    Task2(k, s4);
    Task3(k, s5);
  }

  /** A duplicate's second form takes it to level 2 with a code nobody has confirmed. */
  lemma LevelTwoUnconfirmed(k: Cast)
    requires k.Distinct()
    ensures var before := Replay(EMPTY, UpToTasks(k));
            var after := Replay(EMPTY, UpToTasks(k) + [SecondFormOf(2, k.y, k.b)]);
            LevelOf(before, 2) == 1 && LevelOf(after, 2) == 2 &&
            after.users[2].nationalCode == k.y && !Yes(after.users[2].codeVerified)
  {
    TasksRun(k);
    SecondForm2(k, UpToTasks(k));
  }

  function Honest(k: Cast): seq<Step> {
    UpToTasks(k) + [SecondFormOf(2, k.y, k.b)] + [SecondFormOf(3, k.z, k.c)]
  }

  lemma HonestRun(k: Cast)
    requires k.Distinct()
    ensures Replay(EMPTY, Honest(k)) == Second2(k)
  {
    TasksRun(k);
    SecondForm2(k, UpToTasks(k));
    SecondForm3(k, UpToTasks(k) + [SecondFormOf(2, k.y, k.b)]);
  }

  lemma NoCodeEdits(k: Cast)
    ensures forall i :: 0 <= i < |Honest(k)| ==> !WritesCode(Honest(k)[i])
  {
  }

  lemma OfferedInThree(p: Profile, q: Profile, r: Profile, code: string, cards: Cards)
    requires p.nationalCode != code && !Yes(q.codeVerified) && !Yes(r.codeVerified) && code != ""
    ensures Offered(Db(Three(p, q, r), cards), 3, code)
  {
  }

  /** After a run without any code edit the widget offers one that makes two users of level 2 share
      a code. */
  lemma WidgetCollides(k: Cast)
    requires k.Distinct()
    ensures var before := Replay(EMPTY, Honest(k)); var edit := WidgetForm(3, k.y);
            RunInv(before) && Applies(before, edit) && !Harmless(before, edit) && !UniqueCodes(Apply(before, edit).users)
  {
    var p, q, r := Raised(k.x, Some(true), k.owner), Returned(k.y, k.owner), Returned(k.z, k.owner);
    HonestRun(k);
    NoCodeEdits(k);
    UniqueWithoutCodeEdits(EMPTY, Honest(k));
    RunSound(EMPTY, Honest(k));
    OfferedInThree(p, q, r, k.y, KnownCards(k));
    TakenInThree(p, q, r, k.y);
    StepUniqueness(Second2(k), WidgetForm(3, k.y));
  }

  // ----- such codes, numbers and names exist -----

  lemma CleanAlready(s: string)
    requires Names.Normal(s) && s != ""
    ensures Names.Clean(s) == s
  {
    Names.FixedStays(s);
    Names.NormalCollapses(s);
  }

  lemma TwoLetters()
    ensures Words.Join(["a", "b"]) == "a b" && Words.Join(["a"]) == "a" && Words.Join(["b"]) == "b"
    ensures Names.Normal("a b")
  {
    assert ["a", "b"][..1] == ["a"];
  }

  lemma PartsOfTwo(parts: seq<string>)
    requires |parts| == 2
    ensures Names.FirstWords(parts) == 1 && Words.Join(parts[..1]) == parts[0] && Words.Join(parts[1..]) == parts[1]
  {
    assert parts[..1] == [parts[0]] && parts[1..] == [parts[1]];
  }

  lemma NamesOfTwo(name: string, words: seq<string>)
    requires Words.Split(Names.Clean(name)) == words && |words| == 2
    ensures Names.FirstName(name) == words[0] && Names.LastName(name) == words[1]
  {
    PartsOfTwo(words);
  }

  lemma TwoWords(name: string, words: seq<string>)
    requires |words| == 2 && Words.BlankFree(words) && Words.Join(words) == name && Names.Normal(name) && name != ""
    ensures Names.FirstName(name) == words[0] && Names.LastName(name) == words[1]
  {
    CleanAlready(name);
    Words.SplitJoin(words);
    NamesOfTwo(name, words);
  }

  lemma TwoLetterWords()
    ensures Names.FirstName("a b") == "a" && Names.LastName("a b") == "b"
  {
    TwoLetters();
    TwoWords("a b", ["a", "b"]);
  }

  /** Valid codes and card numbers for the run. */
  lemma WidgetCanCollide()
    ensures var k := Cast("0012345679", "0012345687", "0012345695",
                          "6037990000000006", "6037990000000014", "6037990000000022", "a b");
            var before := Replay(EMPTY, Honest(k)); var edit := WidgetForm(3, k.y);
            RunInv(before) && Applies(before, edit) && !UniqueCodes(Apply(before, edit).users)
  {
    var k := Cast("0012345679", "0012345687", "0012345695",
                  "6037990000000006", "6037990000000014", "6037990000000022", "a b");
    assert k.x[8] == '7' && k.y[8] == '8' && k.z[8] == '9';
    assert k.a[14] == '0' && k.b[14] == '1' && k.c[14] == '2';
    TwoLetterWords();
    WidgetCollides(k);
  }
}
