/** Safety of the verification machine over every run of its atomic steps. */
module KycRuns {
  import opened Options
  import opened Kyc
  import opened KycUser
  import opened KycFlows

  /** The entry points. Bank cards may change in any way between them. `PlainSave` is any save of
      other columns, `Recheck` what follows an approved bank card or account, `TurnDown` a rejection
      by staff, `PaymentRedirect` the return of a widget customer without a password. */
  datatype Step =
    | SignUp(id: nat, nationalCode: string)
    | CardsChange(cards: Cards)
    | BasicTask(id: nat, card: Option<nat>, matching: Reply<bool>, info: Reply<CardInfo>)
    | PhoneTask(id: nat, phone: Reply<bool>)
    | BasicForm(id: nat, data: BasicInfo, live: Option<nat>, same: Option<nat>, newId: nat)
    | FullForm(id: nat, image: nat)
    | StaffForm(id: nat, edit: StaffEdit)
    | WidgetForm(id: nat, code: string)
    | PaymentRedirect(id: nat)
    | PhoneChange(id: nat)
    | PlainSave(id: nat)
    | Recheck(id: nat)
    | TurnDown(id: nat)

  function Newcomer(nationalCode: string): Profile {
    Profile(1, Init, NoReason, nationalCode, None, None, None, None, "", None, "", None, None, None)
  }

  /** A changed phone number before verification puts a level-1 user back in line. The reset of the
      code's verdict that goes with it is never among the saved columns. */
  function PutBack(db: Db, id: nat): Db
    requires id in db.users
  {
    var p := db.users[id];
    if Yes(p.codeVerified) then db
    else
      var db1 := Store(db, id, p);
      if db1.users[id].status != Pending && db1.users[id].level == 1 then SetStatus(db1, id, Pending, NoReason) else db1
  }

  function TurnedDown(db: Db, id: nat): Db
    requires id in db.users
  {
    var p := db.users[id];
    if p.level == 1 && p.status in {Init, Pending} then SetStatus(db, id, Rejected, NoReason) else db
  }

  /** A step that does not apply changes nothing. */
  predicate Applies(db: Db, s: Step) {
    match s
    case SignUp(id, _) => id !in db.users
    case CardsChange(_) => true
    case BasicTask(id, card, _, _) => id in db.users && FirstKycCard(db.cards, id, card)
    case BasicForm(id, data, live, same, newId) =>
      && id in db.users && newId !in db.cards
      && KycAnswer(db.cards, id, live) && PanAnswer(db.cards, id, data.pan, same)
    case _ => s.id in db.users
  }

  function Apply(db: Db, s: Step): Db
    requires Applies(db, s)
  {
    match s
    case SignUp(id, code) => db.(users := db.users[id := Newcomer(code)])
    case CardsChange(cards) => db.(cards := cards)
    case BasicTask(id, card, matching, info) => BasicVerify(db, id, card, matching, info)
    case PhoneTask(id, phone) => PhoneMatch(db, id, phone).0
    case BasicForm(id, data, live, same, newId) =>
      if Refused(db, id, data) then db
      else var r := ChooseCard(db.cards, id, data.pan, live, same, newId); Submit(db, id, data, r.0, r.1)
    case FullForm(id, image) => FullVerify(db, id, image)
    case StaffForm(id, edit) => StaffEdited(db, id, edit)
    case WidgetForm(id, code) => WidgetEdited(db, id, code)
    case PaymentRedirect(id) => Store(db, id, db.users[id].(codeVerified := Some(true)))
    case PhoneChange(id) => PutBack(db, id)
    case PlainSave(id) => Store(db, id, db.users[id])
    case Recheck(id) => VerifyIfReady(db, id)
    case TurnDown(id) => TurnedDown(db, id)
  }

  // ----- what one step may do to one user -----

  ghost predicate Sound(p: Profile) {
    p.level >= 1 && p.status != Verified
  }

  /** At most one level up; level 2 only with all evidence and a free code, level 3 only with selfie
      and phone; VERIFIED is never stored; nobody else's row changes. */
  ghost predicate Orderly(db: Db, db': Db, id: nat) {
    && id in db.users && id in db'.users
    && db'.users == db.users[id := db'.users[id]]
    && var p, q := db.users[id], db'.users[id];
    && q.status != Verified
    && p.level <= q.level <= p.level + 1
    && (p.level >= 3 ==> q.level == p.level)
    && (p.level == 2 && q.level == 3 ==> Yes(q.phoneVerified) && Yes(q.selfieVerified))
    && (p.level == 1 && q.level == 2 ==>
          AllEvidence(db'.cards, id, q) && !Taken(db'.users, id, q.nationalCode) && q.status != Pending)
  }

  /** Orderly, and the code stays once level 2 is reached. */
  ghost predicate Lawful(db: Db, db': Db, id: nat) {
    Orderly(db, db', id) && (db.users[id].level >= 2 ==> db'.users[id].nationalCode == db.users[id].nationalCode)
  }

  lemma TakenOwnRow(users: Users, id: nat, p: Profile, code: string)
    ensures Taken(users[id := p], id, code) == Taken(users, id, code)
  {
    OwnRowIgnored(users, users[id := p], id, code);
  }

  /** Two lawful parts of a step make a lawful step when the first leaves the level alone. */
  lemma LawfulCompose(a: Db, b: Db, c: Db, id: nat)
    requires Lawful(a, b, id) && Lawful(b, c, id) && b.users[id].level == a.users[id].level
    ensures Lawful(a, c, id)
  {
    assert a.users[id := b.users[id]][id := c.users[id]] == a.users[id := c.users[id]];
  }

  /** Storing a profile whose level is the stored one. */
  lemma StoreOrderly(db: Db, id: nat, p: Profile)
    requires id in db.users && Sound(db.users[id])
    requires p.status == db.users[id].status && p.level == db.users[id].level
    ensures Orderly(db, Store(db, id, p), id)
    ensures Store(db, id, p).users[id].nationalCode == p.nationalCode
  {
    TakenOwnRow(db.users, id, Settled(db, id, p), p.nationalCode);
  }

  lemma StoreLawful(db: Db, id: nat, p: Profile)
    requires id in db.users && Sound(db.users[id])
    requires p.status == db.users[id].status && p.level == db.users[id].level
    requires p.level >= 2 ==> p.nationalCode == db.users[id].nationalCode
    ensures Lawful(db, Store(db, id, p), id)
  {
    StoreOrderly(db, id, p);
  }

  lemma StatusLawful(db: Db, id: nat, status: Status, reason: Reason)
    requires id in db.users && Sound(db.users[id])
    requires status == Verified ==>
               db.users[id].level == 2 && Yes(db.users[id].phoneVerified) && Yes(db.users[id].selfieVerified)
    ensures Lawful(db, SetStatus(db, id, status, reason), id)
  {
    TakenOwnRow(db.users, id, StatusChanged(db, id, db.users[id], status, reason), db.users[id].nationalCode);
  }

  lemma ReadyLawful(db: Db, id: nat)
    requires id in db.users && Sound(db.users[id])
    ensures Lawful(db, VerifyIfReady(db, id), id)
  {
    TakenOwnRow(db.users, id, VerifiedIfReady(db, id, db.users[id]), db.users[id].nationalCode);
  }

  lemma NothingLawful(db: Db, id: nat)
    requires id in db.users && Sound(db.users[id])
    ensures Lawful(db, db, id)
  {
    assert db.users[id := db.users[id]] == db.users;
  }

  lemma CardsLawful(db: Db, id: nat, cards: Cards)
    requires id in db.users && Sound(db.users[id])
    ensures Lawful(db, Db(db.users, cards), id)
  {
    NothingLawful(db, id);
  }

  /** A card that becomes verified never costs a user evidence. */
  lemma VerifiedCardHelps(cards: Cards, id: nat, cid: nat)
    requires cid in cards && Yes(CardEvidence(cards, id))
    ensures Yes(CardEvidence(cards[cid := cards[cid].(verified := Some(true))], id))
  {
    var cards' := cards[cid := cards[cid].(verified := Some(true))];
    var c :| c in cards && cards[c].owner == id && !cards[c].deleted && cards[c].verified == Some(true);
    assert c in cards' && cards'[c].owner == id && !cards'[c].deleted && cards'[c].verified == Some(true);
  }

  // ----- the basic verification task -----

  lemma MatchedLawful(db: Db, id: nat, cid: nat, identity: Verdict, card: Verdict)
    requires id in db.users && cid in db.cards && Sound(db.users[id])
    requires Yes(identity) <==> Yes(card)
    ensures Lawful(db, Matched(db, id, cid, identity, card).0, id)
    ensures cid in Matched(db, id, cid, identity, card).0.cards
  {
    var p := db.users[id].(codeVerified := identity, birthDateVerified := identity);
    var db1 := Store(db, id, p);
    var db2 := SetCard(db1, cid, db1.cards[cid].(verified := card));
    StoreLawful(db, id, p);
    if db1.users[id].level == db.users[id].level {
      CardsLawful(db1, id, db2.cards);
      LawfulCompose(db, db1, db2, id);
      if No(identity) || No(card) {
        StatusLawful(db2, id, Rejected, NoReason);
        LawfulCompose(db, db2, SetStatus(db2, id, Rejected, NoReason), id);
      } else {
        ReadyLawful(db2, id);
        LawfulCompose(db, db2, VerifyIfReady(db2, id), id);
      }
    } else if db.users[id].level == 1 {
      // Raised while the identity was stored: the identity was confirmed, so the card was too.
      VerifiedCardHelps(db1.cards, id, cid);
      assert VerifyIfReady(db2, id).users == db2.users;
    } else {
      RaisedToThree(db, id, cid, identity, card);
    }
  }

  lemma RaisedToThree(db: Db, id: nat, cid: nat, identity: Verdict, card: Verdict)
    requires id in db.users && cid in db.cards && Sound(db.users[id]) && db.users[id].level == 2
    requires Lawful(db, Store(db, id, db.users[id].(codeVerified := identity, birthDateVerified := identity)), id)
    requires Store(db, id, db.users[id].(codeVerified := identity, birthDateVerified := identity)).users[id].level == 3
    ensures Lawful(db, Matched(db, id, cid, identity, card).0, id)
  {
    var db1 := Store(db, id, db.users[id].(codeVerified := identity, birthDateVerified := identity));
    var db2 := SetCard(db1, cid, db1.cards[cid].(verified := card));
    assert VerifyIfReady(db2, id).users == db2.users;
    assert db.users[id := db1.users[id]][id := SetStatus(db2, id, Rejected, NoReason).users[id]]
        == db.users[id := SetStatus(db2, id, Rejected, NoReason).users[id]];
  }

  lemma MatchCardLawful(db: Db, id: nat, cid: nat, reply: Reply<bool>)
    requires id in db.users && cid in db.cards && Sound(db.users[id])
    ensures Lawful(db, MatchCard(db, id, cid, reply).0, id)
    ensures cid in MatchCard(db, id, cid, reply).0.cards
  {
    var p, card := db.users[id], db.cards[cid];
    NothingLawful(db, id);
    if CardMatched(p, card) || p.nationalCode == "" || p.birthDate.None? {
    } else if Duplicated(db.cards, cid) {
      var db1 := if Yes(card.verified) then SetCard(db, cid, card.(verified := Some(false), rejectReason := "duplicated")) else db;
      CardsLawful(db, id, db1.cards);
      StatusLawful(db1, id, Rejected, NoReason);
      LawfulCompose(db, db1, SetStatus(db1, id, Rejected, NoReason), id);
    } else {
      match reply {
        case Success(matched) => MatchedLawful(db, id, cid, if matched then Some(true) else None, Some(matched));
        case InvalidData => MatchedLawful(db, id, cid, Some(false), None);
        case _ =>
      }
    }
  }

  lemma NamedLawful(db: Db, id: nat, first: string, last: string)
    requires id in db.users && Sound(db.users[id]) && db.users[id].level == 1
    ensures Lawful(db, Named(db, id, first, last).0, id)
  {
    var p := db.users[id].(firstName := first, lastName := last);
    if first != "" && last != "" {
      var p1 := p.(firstNameVerified := Some(true), lastNameVerified := Some(true));
      var db1 := Store(db, id, p1);
      StoreLawful(db, id, p1);
      ReadyLawful(db1, id);
      if db1.users[id].level == 1 {
        LawfulCompose(db, db1, VerifyIfReady(db1, id), id);
      } else {
        assert VerifyIfReady(db1, id).users == db1.users;
      }
    } else {
      StoreLawful(db, id, p);
    }
  }

  lemma CardNamedLawful(db: Db, id: nat, cid: nat, card: Card, first: string, last: string)
    requires id in db.users && Sound(db.users[id]) && db.users[id].level == 1
    ensures Lawful(db, Named(SetCard(db, cid, card), id, first, last).0, id)
  {
    var db1 := SetCard(db, cid, card);
    CardsLawful(db, id, db1.cards);
    NamedLawful(db1, id, first, last);
    LawfulCompose(db, db1, Named(db1, id, first, last).0, id);
  }

  lemma NameFromCardLawful(db: Db, id: nat, cid: nat, reply: Reply<CardInfo>)
    requires id in db.users && cid in db.cards && Sound(db.users[id]) && db.users[id].level == 1
    ensures Lawful(db, NameFromCard(db, id, cid, reply).0, id)
  {
    var card := db.cards[cid];
    NothingLawful(db, id);
    match reply {
      case Success(info) =>
        CardNamedLawful(db, id, cid, card.(ownerName := info.ownerName), Names.FirstName(info.ownerName), Names.LastName(info.ownerName));
      case InvalidData =>
        var db1 := SetCard(db, cid, card.(verified := Some(false), rejectReason := "INVALID_DATA"));
        CardsLawful(db, id, db1.cards);
        StatusLawful(db1, id, Rejected, NoReason);
        LawfulCompose(db, db1, SetStatus(db1, id, Rejected, NoReason), id);
      case _ =>
    }
  }

  /** One whole `basic_verify`, with all its verify calls, raises a user by at most one level. */
  lemma BasicVerifyLawful(db: Db, id: nat, card: Option<nat>, matching: Reply<bool>, info: Reply<CardInfo>)
    requires id in db.users && FirstKycCard(db.cards, id, card) && Sound(db.users[id])
    ensures Lawful(db, BasicVerify(db, id, card, matching, info), id)
  {
    NothingLawful(db, id);
    if db.users[id].level == 1 && card.Some? {
      var cid := card.value;
      MatchCardLawful(db, id, cid, matching);
      var (db1, matched) := if CardMatched(db.users[id], db.cards[cid]) then (db, Some(true)) else MatchCard(db, id, cid, matching);
      if Yes(matched) {
        if db1.users[id].level == 1 {
          AfterMatch(db, db1, id, cid, info);
        } else {
          assert VerifyIfReady(db1, id).users == db1.users;
        }
      }
    }
  }

  lemma ThenReady(db: Db, db2: Db, id: nat)
    requires Lawful(db, db2, id) && Sound(db.users[id]) && db.users[id].level == 1
    ensures Lawful(db, VerifyIfReady(db2, id), id)
  {
    if db2.users[id].level == 1 {
      ReadyLawful(db2, id);
      LawfulCompose(db, db2, VerifyIfReady(db2, id), id);
    } else {
      assert VerifyIfReady(db2, id).users == db2.users;
    }
  }

  lemma AfterMatch(db: Db, db1: Db, id: nat, cid: nat, info: Reply<CardInfo>)
    requires Lawful(db, db1, id) && Sound(db.users[id]) && db.users[id].level == db1.users[id].level == 1
    requires cid in db1.cards
    ensures var p := db1.users[id];
            var (db2, named) :=
              if Yes(db1.cards[cid].verified) && !(Yes(p.firstNameVerified) && Yes(p.lastNameVerified))
              then NameFromCard(db1, id, cid, info) else (db1, Some(true));
            Lawful(db, if !Yes(named) then db2 else VerifyIfReady(db2, id), id)
  {
    var p := db1.users[id];
    var (db2, named) :=
      if Yes(db1.cards[cid].verified) && !(Yes(p.firstNameVerified) && Yes(p.lastNameVerified))
      then NameFromCard(db1, id, cid, info) else (db1, Some(true));
    NothingLawful(db1, id);
    NameFromCardLawful(db1, id, cid, info);
    LawfulCompose(db, db1, db2, id);
    ThenReady(db, db2, id);
  }
}
