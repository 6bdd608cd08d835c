/** Where every true verdict of a run comes from: a positive answer or a named outside step. */
module KycProvenance {
  import opened Options
  import opened Kyc
  import opened KycColumns
  import opened KycFlows
  import opened KycRuns
  import opened KycSafety
  import Names

  datatype Claim = Code | Birth | Phone | FirstName | LastName | Selfie

  function Says(p: Profile, claim: Claim): Verdict {
    match claim
    case Code => p.codeVerified
    case Birth => p.birthDateVerified
    case Phone => p.phoneVerified
    case FirstName => p.firstNameVerified
    case LastName => p.lastNameVerified
    case Selfie => p.selfieVerified
  }

  /** The matcher's positive answer is about code and birth date, the card query's about a full name. */
  function MatchGrants(matching: Reply<bool>): set<Claim> {
    if matching == Success(true) then {Code, Birth} else {}
  }

  function NameGrants(info: Reply<CardInfo>): set<Claim> {
    if info.Success? && |Names.Words.Split(Names.Clean(info.data.ownerName))| >= 2 then {FirstName, LastName} else {}
  }

  /** What a step itself says about its user. */
  function StepClaims(s: Step): set<Claim> {
    match s
    case BasicTask(_, _, matching, info) => MatchGrants(matching) + NameGrants(info)
    case PhoneTask(_, answer) => if answer == Success(true) then {Phone} else {}
    case StaffForm(_, edit) => set claim: Claim | Says(Edited(Newcomer(""), edit), claim) == Some(true)
    case PaymentRedirect(_) => {Code}
    case _ => {}
  }

  /** Only granted claims become true. */
  ghost predicate Within(p: Profile, q: Profile, granted: set<Claim>) {
    forall claim :: Says(q, claim) == Some(true) ==> Says(p, claim) == Some(true) || claim in granted
  }

  lemma WithinTransitive(p: Profile, q: Profile, r: Profile, granted: set<Claim>)
    requires Within(p, q, granted) && Within(q, r, granted)
    ensures Within(p, r, granted)
  {
  }

  lemma SaveWithin(db: Db, id: nat, p: Profile)
    ensures Within(p, Settled(db, id, p), {})
  {
    SaveOutcome(db, id, p);
  }

  lemma StatusWithin(db: Db, id: nat, p: Profile, status: Status, reason: Reason)
    ensures Within(p, StatusChanged(db, id, p, status, reason), {})
  {
    StatusOutcome(db, id, p, status, reason);
    SaveWithin(db, id, p.(status := status));
  }

  lemma ReadyWithin(db: Db, id: nat, p: Profile)
    ensures Within(p, VerifiedIfReady(db, id, p), {})
  {
    StatusWithin(db, id, p, Verified, NoReason);
  }

  /** The user is still there and has no claim but old and granted ones. */
  ghost predicate Keeps(db: Db, db': Db, id: nat, granted: set<Claim>) {
    id in db.users && id in db'.users && Within(db.users[id], db'.users[id], granted)
  }

  lemma KeepsTransitive(a: Db, b: Db, c: Db, id: nat, granted: set<Claim>)
    requires Keeps(a, b, id, granted) && Keeps(b, c, id, granted)
    ensures Keeps(a, c, id, granted)
  {
    WithinTransitive(a.users[id], b.users[id], c.users[id], granted);
  }

  lemma StoreKeeps(db: Db, id: nat, p: Profile, granted: set<Claim>)
    requires id in db.users && Within(db.users[id], p, granted)
    ensures Keeps(db, Store(db, id, p), id, granted)
  {
    SaveWithin(db, id, p);
    WithinTransitive(db.users[id], p, Settled(db, id, p), granted);
  }

  lemma StatusKeeps(db: Db, id: nat, status: Status, reason: Reason, granted: set<Claim>)
    requires id in db.users
    ensures Keeps(db, SetStatus(db, id, status, reason), id, granted)
  {
    StatusWithin(db, id, db.users[id], status, reason);
  }

  lemma ReadyKeeps(db: Db, id: nat, granted: set<Claim>)
    requires id in db.users
    ensures Keeps(db, VerifyIfReady(db, id), id, granted)
  {
    ReadyWithin(db, id, db.users[id]);
  }

  // ----- the verification task -----

  lemma MatchedKeeps(db: Db, id: nat, cid: nat, identity: Verdict, card: Verdict, granted: set<Claim>)
    requires id in db.users && cid in db.cards && (Yes(identity) ==> {Code, Birth} <= granted)
    ensures Keeps(db, Matched(db, id, cid, identity, card).0, id, granted)
  {
    var p := db.users[id].(codeVerified := identity, birthDateVerified := identity);
    var db1 := Store(db, id, p);
    var db2 := SetCard(db1, cid, db1.cards[cid].(verified := card));
    StoreKeeps(db, id, p, granted);
    StatusKeeps(db2, id, Rejected, NoReason, granted);
    ReadyKeeps(db2, id, granted);
    KeepsTransitive(db, db2, Matched(db, id, cid, identity, card).0, id, granted);
  }

  lemma MatchCardKeepsClaims(db: Db, id: nat, cid: nat, reply: Reply<bool>, granted: set<Claim>)
    requires id in db.users && cid in db.cards && MatchGrants(reply) <= granted
    ensures Keeps(db, MatchCard(db, id, cid, reply).0, id, granted) && cid in MatchCard(db, id, cid, reply).0.cards
  {
    var card := db.cards[cid];
    var db1 := if Yes(card.verified) then SetCard(db, cid, card.(verified := Some(false), rejectReason := "duplicated")) else db;
    StatusKeeps(db1, id, Rejected, NoReason, granted);
    match reply {
      case Success(matched) => MatchedKeeps(db, id, cid, if matched then Some(true) else None, Some(matched), granted);
      case InvalidData => MatchedKeeps(db, id, cid, Some(false), None, granted);
      case _ =>
    }
  }

  lemma NamedKeeps(db: Db, id: nat, first: string, last: string, granted: set<Claim>)
    requires id in db.users && (first != "" && last != "" ==> {FirstName, LastName} <= granted)
    ensures Keeps(db, Named(db, id, first, last).0, id, granted)
  {
    var p := db.users[id].(firstName := first, lastName := last);
    if first != "" && last != "" {
      var p1 := p.(firstNameVerified := Some(true), lastNameVerified := Some(true));
      StoreKeeps(db, id, p1, granted);
      ReadyKeeps(Store(db, id, p1), id, granted);
      KeepsTransitive(db, Store(db, id, p1), VerifyIfReady(Store(db, id, p1), id), id, granted);
    } else {
      StoreKeeps(db, id, p, granted);
    }
  }

  lemma NameFromCardKeepsClaims(db: Db, id: nat, cid: nat, reply: Reply<CardInfo>, granted: set<Claim>)
    requires id in db.users && cid in db.cards && NameGrants(reply) <= granted
    ensures Keeps(db, NameFromCard(db, id, cid, reply).0, id, granted)
  {
    var card := db.cards[cid];
    match reply {
      case Success(info) =>
        Names.NameParts(info.ownerName);
        NamedKeeps(SetCard(db, cid, card.(ownerName := info.ownerName)), id, Names.FirstName(info.ownerName),
                   Names.LastName(info.ownerName), granted);
      case InvalidData =>
        StatusKeeps(SetCard(db, cid, card.(verified := Some(false), rejectReason := "INVALID_DATA")), id, Rejected, NoReason, granted);
      case _ =>
    }
  }

  lemma RestKeeps(db1: Db, id: nat, cid: nat, info: Reply<CardInfo>, granted: set<Claim>)
    requires id in db1.users && cid in db1.cards && NameGrants(info) <= granted
    ensures var db2 := NameFromCard(db1, id, cid, info).0;
            Keeps(db1, db2, id, granted) && Keeps(db1, VerifyIfReady(db2, id), id, granted) &&
            Keeps(db1, VerifyIfReady(db1, id), id, granted)
  {
    var db2 := NameFromCard(db1, id, cid, info).0;
    NameFromCardKeepsClaims(db1, id, cid, info, granted);
    ReadyKeeps(db2, id, granted);
    ReadyKeeps(db1, id, granted);
    KeepsTransitive(db1, db2, VerifyIfReady(db2, id), id, granted);
  }

  lemma BasicVerifyKeepsClaims(db: Db, id: nat, card: Option<nat>, matching: Reply<bool>, info: Reply<CardInfo>)
    requires id in db.users && FirstKycCard(db.cards, id, card)
    ensures Keeps(db, BasicVerify(db, id, card, matching, info), id, MatchGrants(matching) + NameGrants(info))
  {
    var granted := MatchGrants(matching) + NameGrants(info);
    var db' := BasicVerify(db, id, card, matching, info);
    if db.users[id].level == 1 && card.Some? {
      var cid := card.value;
      if CardMatched(db.users[id], db.cards[cid]) {
        RestKeeps(db, id, cid, info, granted);
      } else {
        var db1 := MatchCard(db, id, cid, matching).0;
        MatchCardKeepsClaims(db, id, cid, matching, granted);
        RestKeeps(db1, id, cid, info, granted);
        if db' != db1 {
          KeepsTransitive(db, db1, db', id, granted);
        }
      }
    }
  }

  // ----- the other steps -----

  lemma SubmitKeepsClaims(db: Db, id: nat, data: BasicInfo, cards: Cards, cid: nat)
    requires id in db.users && cid in cards
    ensures Keeps(db, Submit(db, id, data, cards, cid), id, {})
  {
    var first, last := Names.Clean(data.firstName), Names.Clean(data.lastName);
    var p := WithFields(db.users[id], data, first, last);
    FieldsWithin(db.users[id], data, first, last);
    SubmitPartsKeep(Db(db.users, if Yes(cards[cid].verified) then cards else cards[cid := cards[cid].(verified := None)]), id, p);
  }

  lemma FieldsWithin(p: Profile, data: BasicInfo, first: string, last: string)
    ensures Within(p, WithFields(p, data, first, last), {})
  {
  }

  lemma SubmitPartsKeep(db: Db, id: nat, p: Profile)
    requires id in db.users && Within(db.users[id], p, {})
    ensures Keeps(db, RejectTaken(SetStatus(Store(db, id, p), id, Pending, NoReason), id), id, {})
  {
    var db2 := Store(db, id, p);
    var db3 := SetStatus(db2, id, Pending, NoReason);
    var q := db3.users[id].(codeVerified := Some(false));
    var db4 := Store(db3, id, q);
    StoreKeeps(db, id, p, {});
    StatusKeeps(db2, id, Pending, NoReason, {});
    KeepsTransitive(db, db2, db3, id, {});
    StoreKeeps(db3, id, q, {});
    KeepsTransitive(db, db3, db4, id, {});
    StatusKeeps(db4, id, Rejected, NationalCodeDuplicated, {});
    KeepsTransitive(db, db4, SetStatus(db4, id, Rejected, NationalCodeDuplicated), id, {});
  }

  lemma BasicFormKeeps(db: Db, s: Step)
    requires Applies(db, s) && s.BasicForm?
    ensures Keeps(db, Apply(db, s), s.id, {})
  {
    if !Refused(db, s.id, s.data) {
      var r := ChooseCard(db.cards, s.id, s.data.pan, s.live, s.same, s.newId);
      SubmitKeepsClaims(db, s.id, s.data, r.0, r.1);
    }
  }

  lemma FullVerifyKeeps(db: Db, id: nat, image: nat)
    requires id in db.users
    ensures Keeps(db, FullVerify(db, id, image), id, {})
  {
    var p := db.users[id];
    var p1 := p.(selfie := Some(image), selfieVerified := None);
    StoreKeeps(db, id, p1, {});
    StatusKeeps(db, id, Verified, NoReason, {});
    var db1 := if Yes(p.selfieVerified) then db else Store(db, id, p1);
    StatusKeeps(db1, id, Pending, NoReason, {});
    KeepsTransitive(db, db1, SetStatus(db1, id, Pending, NoReason), id, {});
  }

  lemma PutBackKeeps(db: Db, id: nat)
    requires id in db.users
    ensures Keeps(db, PutBack(db, id), id, {})
  {
    var db1 := Store(db, id, db.users[id]);
    StoreKeeps(db, id, db.users[id], {});
    StatusKeeps(db1, id, Pending, NoReason, {});
    KeepsTransitive(db, db1, SetStatus(db1, id, Pending, NoReason), id, {});
  }

  lemma PhoneMatchKeeps(db: Db, id: nat, reply: Reply<bool>)
    requires id in db.users
    ensures Keeps(db, PhoneMatch(db, id, reply).0, id, if reply == Success(true) then {Phone} else {})
  {
    StoreKeeps(db, id, db.users[id].(phoneVerified := Some(true)), {Phone});
    StoreKeeps(db, id, db.users[id].(phoneVerified := Some(false)), {});
  }

  lemma FlowKeeps(db: Db, s: Step)
    requires Applies(db, s) && (s.BasicTask? || s.PhoneTask? || s.BasicForm? || s.FullForm? || s.PhoneChange?)
    ensures Keeps(db, Apply(db, s), s.id, StepClaims(s))
  {
    match s
    case BasicTask(id, card, matching, info) => BasicVerifyKeepsClaims(db, id, card, matching, info);
    case PhoneTask(id, phone) => PhoneMatchKeeps(db, id, phone);
    case BasicForm(_, _, _, _, _) => BasicFormKeeps(db, s);
    case FullForm(id, image) => FullVerifyKeeps(db, id, image);
    case PhoneChange(id) => PutBackKeeps(db, id);
  }

  lemma EditKeeps(db: Db, s: Step)
    requires Applies(db, s) && (s.StaffForm? || s.WidgetForm? || s.PaymentRedirect?)
    ensures Keeps(db, Apply(db, s), s.id, StepClaims(s))
  {
    var p := db.users[s.id];
    match s
    case StaffForm(id, edit) => StoreKeeps(db, id, Edited(p, edit), StepClaims(s));
    case WidgetForm(id, code) => StoreKeeps(db, id, p.(nationalCode := code), {});
    case PaymentRedirect(id) => StoreKeeps(db, id, p.(codeVerified := Some(true)), {Code});
  }

  lemma StandingKeeps(db: Db, s: Step)
    requires Applies(db, s) && (s.PlainSave? || s.Recheck? || s.TurnDown?)
    ensures Keeps(db, Apply(db, s), s.id, StepClaims(s))
  {
    StoreKeeps(db, s.id, db.users[s.id], {});
    ReadyKeeps(db, s.id, {});
    StatusKeeps(db, s.id, Rejected, NoReason, {});
  }

  lemma StepKeepsClaims(db: Db, s: Step)
    requires Applies(db, s) && Subject(s).Some?
    ensures Keeps(db, Apply(db, s), s.id, StepClaims(s))
  {
    if s.BasicTask? || s.PhoneTask? || s.BasicForm? || s.FullForm? || s.PhoneChange? {
      FlowKeeps(db, s);
    } else if s.StaffForm? || s.WidgetForm? || s.PaymentRedirect? {
      EditKeeps(db, s);
    } else {
      StandingKeeps(db, s);
    }
  }

  // ----- every run -----

  /** The claim is on record. */
  predicate Claimed(db: Db, id: nat, claim: Claim) {
    id in db.users && Says(db.users[id], claim) == Some(true)
  }

  lemma NewClaim(db: Db, s: Step, id: nat, claim: Claim)
    requires Applies(db, s) && AllSound(db.users) && Claimed(Apply(db, s), id, claim) && !Claimed(db, id, claim)
    ensures Subject(s) == Some(id) && claim in StepClaims(s)
  {
    StepOrderly(db, s);
    if Subject(s).Some? && s.id == id {
      StepKeepsClaims(db, s);
    }
  }

  /** Every verdict that is true after a run and was not before goes back to a step that granted it:
      code and birth date to a positive answer of the matcher, names to a full name of the card's
      owner, the phone to its matcher, and any of them, the selfie only, to a staff form; a code also
      to a payment redirect. */
  lemma {:induction false} ClaimsHaveSources(db: Db, steps: seq<Step>, id: nat, claim: Claim) returns (k: nat)
    requires AllSound(db.users) && Claimed(Replay(db, steps), id, claim) && !Claimed(db, id, claim)
    ensures k < |steps| && Applies(Replay(db, steps[..k]), steps[k])
    ensures Subject(steps[k]) == Some(id) && claim in StepClaims(steps[k])
  {
    var n := |steps| - 1;
    var before := Replay(db, steps[..n]);
    if Claimed(before, id, claim) {
      k := ClaimsHaveSources(db, steps[..n], id, claim);
      assert steps[..n][..k] == steps[..k];
    } else {
      k := n;
      RunSound(db, steps[..n]);
      NewClaim(before, steps[n], id, claim);
    }
  }

  // ----- cards -----

  predicate CardClaimed(cards: Cards, c: nat) {
    c in cards && cards[c].verified == Some(true)
  }

  /** The step confirms the card: a positive answer about it, or an outside change. */
  predicate GrantsCard(s: Step, c: nat) {
    (s.BasicTask? && s.card == Some(c) && s.matching == Success(true)) || (s.CardsChange? && CardClaimed(s.cards, c))
  }

  lemma MatchCardGrants(db: Db, id: nat, cid: nat, reply: Reply<bool>, c: nat)
    requires id in db.users && cid in db.cards
    ensures cid in MatchCard(db, id, cid, reply).0.cards
    ensures CardClaimed(MatchCard(db, id, cid, reply).0.cards, c) ==>
              CardClaimed(db.cards, c) || (c == cid && reply == Success(true))
  {
  }

  lemma NameFromCardGrants(db: Db, id: nat, cid: nat, reply: Reply<CardInfo>, c: nat)
    requires id in db.users && cid in db.cards
    ensures CardClaimed(NameFromCard(db, id, cid, reply).0.cards, c) ==> CardClaimed(db.cards, c)
  {
  }

  lemma RestGrantsCard(db1: Db, id: nat, cid: nat, info: Reply<CardInfo>, c: nat)
    requires id in db1.users && cid in db1.cards
    ensures var p := db1.users[id];
            var (db2, named) :=
              if Yes(db1.cards[cid].verified) && !(Yes(p.firstNameVerified) && Yes(p.lastNameVerified))
              then NameFromCard(db1, id, cid, info) else (db1, Some(true));
            CardClaimed((if !Yes(named) then db2 else VerifyIfReady(db2, id)).cards, c) ==> CardClaimed(db1.cards, c)
  {
    NameFromCardGrants(db1, id, cid, info, c);
  }

  lemma BasicVerifyGrantsCard(db: Db, id: nat, cid: nat, matching: Reply<bool>, info: Reply<CardInfo>, c: nat)
    requires id in db.users && FirstKycCard(db.cards, id, Some(cid))
    ensures CardClaimed(BasicVerify(db, id, Some(cid), matching, info).cards, c) ==>
              CardClaimed(db.cards, c) || (c == cid && matching == Success(true))
  {
    if db.users[id].level == 1 {
      if CardMatched(db.users[id], db.cards[cid]) {
        RestGrantsCard(db, id, cid, info, c);
      } else {
        MatchCardGrants(db, id, cid, matching, c);
        var r := MatchCard(db, id, cid, matching);
        if Yes(r.1) {
          RestGrantsCard(r.0, id, cid, info, c);
        }
      }
    }
  }

  lemma ChooseCardGrants(cards: Cards, id: nat, pan: string, live: Option<nat>, same: Option<nat>, newId: nat, c: nat)
    requires KycAnswer(cards, id, live) && PanAnswer(cards, id, pan, same)
    ensures CardClaimed(ChooseCard(cards, id, pan, live, same, newId).0, c) ==> CardClaimed(cards, c)
  {
  }

  lemma SubmitCards(db: Db, id: nat, p: Profile)
    ensures RejectTaken(SetStatus(Store(db, id, p), id, Pending, NoReason), id).cards == db.cards
  {
  }

  lemma ResetGrantsNothing(cards: Cards, cid: nat, c: nat)
    requires cid in cards
    ensures var cards1 := if Yes(cards[cid].verified) then cards else cards[cid := cards[cid].(verified := None)];
            CardClaimed(cards1, c) ==> CardClaimed(cards, c)
  {
  }

  lemma SubmitGrantsCard(db: Db, id: nat, data: BasicInfo, cards: Cards, cid: nat, c: nat)
    requires id in db.users && cid in cards
    ensures CardClaimed(Submit(db, id, data, cards, cid).cards, c) ==> CardClaimed(cards, c)
  {
    var first, last := Names.Clean(data.firstName), Names.Clean(data.lastName);
    var p := WithFields(db.users[id], data, first, last);
    var cards1 := if Yes(cards[cid].verified) then cards else cards[cid := cards[cid].(verified := None)];
    SubmitCards(Db(db.users, cards1), id, p);
    ResetGrantsNothing(cards, cid, c);
  }

  lemma BasicFormGrantsCard(db: Db, s: Step, c: nat)
    requires Applies(db, s) && s.BasicForm? && CardClaimed(Apply(db, s).cards, c)
    ensures CardClaimed(db.cards, c)
  {
    if !Refused(db, s.id, s.data) {
      var r := ChooseCard(db.cards, s.id, s.data.pan, s.live, s.same, s.newId);
      SubmitGrantsCard(db, s.id, s.data, r.0, r.1, c);
      ChooseCardGrants(db.cards, s.id, s.data.pan, s.live, s.same, s.newId, c);
    }
  }

  lemma CardsUntouched(db: Db, s: Step)
    requires Applies(db, s) && !s.BasicTask? && !s.BasicForm? && !s.CardsChange?
    ensures Apply(db, s).cards == db.cards
  {
  }

  lemma NewCardClaim(db: Db, s: Step, c: nat)
    requires Applies(db, s) && CardClaimed(Apply(db, s).cards, c) && !CardClaimed(db.cards, c)
    ensures GrantsCard(s, c)
  {
    if s.BasicTask? {
      if s.card.Some? {
        BasicVerifyGrantsCard(db, s.id, s.card.value, s.matching, s.info, c);
      }
    } else if s.BasicForm? {
      BasicFormGrantsCard(db, s, c);
    } else if !s.CardsChange? {
      CardsUntouched(db, s);
    }
  }

  lemma {:induction false} CardClaimsHaveSources(db: Db, steps: seq<Step>, c: nat) returns (k: nat)
    requires CardClaimed(Replay(db, steps).cards, c) && !CardClaimed(db.cards, c)
    ensures k < |steps| && Applies(Replay(db, steps[..k]), steps[k]) && GrantsCard(steps[k], c)
  {
    var n := |steps| - 1;
    var before := Replay(db, steps[..n]);
    if CardClaimed(before.cards, c) {
      k := CardClaimsHaveSources(db, steps[..n], c);
      assert steps[..n][..k] == steps[..k];
    } else {
      k := n;
      NewCardClaim(before, steps[n], c);
    }
  }
}
