/** When a user raised to level 2 has a confirmed national code: the code's own verdict is not part
    of the evidence, so this depends on the step. */
module KycVerdicts {
  import opened Options
  import opened Kyc
  import opened KycUser
  import opened KycFlows
  import opened KycRuns
  import opened KycSafety

  // ----- the basic verification task -----

  /** The code is confirmed, or the user is held at level 1 because it is taken. */
  predicate Confirmed(db: Db, id: nat) {
    id in db.users && db.users[id].level >= 1 &&
    (Yes(db.users[id].codeVerified) || (db.users[id].level == 1 && Taken(db.users, id, db.users[id].nationalCode)))
  }

  lemma StoreConfirmed(db: Db, id: nat, p: Profile)
    requires id in db.users && p.level == 1
    requires Yes(p.codeVerified) || Taken(db.users, id, p.nationalCode)
    ensures Confirmed(Store(db, id, p), id)
  {
    TakenOwnRow(db.users, id, Settled(db, id, p), p.nationalCode);
  }

  lemma StoreKeepsConfirmed(db: Db, id: nat, p: Profile)
    requires Confirmed(db, id) && p.level == db.users[id].level
    requires p.nationalCode == db.users[id].nationalCode && p.codeVerified == db.users[id].codeVerified
    ensures Confirmed(Store(db, id, p), id)
  {
    if p.level == 1 {
      StoreConfirmed(db, id, p);
    }
  }

  lemma ReadyConfirmed(db: Db, id: nat)
    requires Confirmed(db, id)
    ensures Confirmed(VerifyIfReady(db, id), id)
  {
    var p := db.users[id];
    TakenOwnRow(db.users, id, VerifiedIfReady(db, id, p), p.nationalCode);
  }

  lemma RejectKeepsLevel(db: Db, id: nat)
    requires id in db.users && db.users[id].level == 1
    ensures SetStatus(db, id, Rejected, NoReason).users[id].level == 1
  {
  }

  lemma MatchedConfirmed(db: Db, id: nat, cid: nat, identity: Verdict, card: Verdict)
    requires id in db.users && cid in db.cards && db.users[id].level == 1 && (Yes(identity) <==> Yes(card))
    requires Yes(identity) || No(identity) || No(card)
    ensures var r := Matched(db, id, cid, identity, card);
            if Yes(r.1) then Confirmed(r.0, id) else id in r.0.users && r.0.users[id].level == 1
  {
    var p := db.users[id].(codeVerified := identity, birthDateVerified := identity);
    var db1 := Store(db, id, p);
    var db2 := SetCard(db1, cid, db1.cards[cid].(verified := card));
    if Yes(identity) {
      StoreConfirmed(db, id, p);
      assert Confirmed(db2, id);
      ReadyConfirmed(db2, id);
    } else {
      RejectKeepsLevel(db2, id);
    }
  }

  /** A matcher call that goes on left the code confirmed; one that does not raised nobody. */
  lemma MatchCardConfirmed(db: Db, id: nat, cid: nat, reply: Reply<bool>)
    requires id in db.users && cid in db.cards && db.users[id].level == 1
    ensures var r := MatchCard(db, id, cid, reply);
            if Yes(r.1) then Confirmed(r.0, id) && cid in r.0.cards else id in r.0.users && r.0.users[id].level == 1
  {
    match reply {
      case Success(matched) => MatchedConfirmed(db, id, cid, if matched then Some(true) else None, Some(matched));
      case InvalidData => MatchedConfirmed(db, id, cid, Some(false), None);
      case _ =>
    }
  }

  lemma NamedConfirmed(db: Db, id: nat, first: string, last: string)
    requires Confirmed(db, id)
    ensures Confirmed(Named(db, id, first, last).0, id)
  {
    var p := db.users[id].(firstName := first, lastName := last);
    if first != "" && last != "" {
      var p1 := p.(firstNameVerified := Some(true), lastNameVerified := Some(true));
      StoreKeepsConfirmed(db, id, p1);
      ReadyConfirmed(Store(db, id, p1), id);
    } else {
      StoreKeepsConfirmed(db, id, p);
    }
  }

  lemma NameFromCardConfirmed(db: Db, id: nat, cid: nat, reply: Reply<CardInfo>)
    requires Confirmed(db, id) && cid in db.cards
    ensures Confirmed(NameFromCard(db, id, cid, reply).0, id)
  {
    var card := db.cards[cid];
    match reply {
      case Success(info) =>
        var db1 := SetCard(db, cid, card.(ownerName := info.ownerName));
        assert Confirmed(db1, id);
        NamedConfirmed(db1, id, Names.FirstName(info.ownerName), Names.LastName(info.ownerName));
      case InvalidData =>
        var db1 := SetCard(db, cid, card.(verified := Some(false), rejectReason := "INVALID_DATA"));
        TakenOwnRow(db1.users, id, SetStatus(db1, id, Rejected, NoReason).users[id], db1.users[id].nationalCode);
      case _ =>
    }
  }

  /** After a match the rest of the task keeps the code confirmed. */
  lemma RestConfirmed(db1: Db, id: nat, cid: nat, info: Reply<CardInfo>)
    requires Confirmed(db1, id) && cid in db1.cards
    ensures var p := db1.users[id];
            var (db2, named) :=
              if Yes(db1.cards[cid].verified) && !(Yes(p.firstNameVerified) && Yes(p.lastNameVerified))
              then NameFromCard(db1, id, cid, info) else (db1, Some(true));
            Confirmed(db2, id) && Confirmed(VerifyIfReady(db2, id), id)
  {
    NameFromCardConfirmed(db1, id, cid, info);
    ReadyConfirmed(NameFromCard(db1, id, cid, info).0, id);
    ReadyConfirmed(db1, id);
  }

  lemma BasicVerifyConfirmed(db: Db, id: nat, card: Option<nat>, matching: Reply<bool>, info: Reply<CardInfo>)
    requires id in db.users && FirstKycCard(db.cards, id, card) && db.users[id].level == 1
    ensures var db' := BasicVerify(db, id, card, matching, info);
            id in db'.users && (db'.users[id].level == 1 || Yes(db'.users[id].codeVerified))
  {
    if card.Some? {
      var cid := card.value;
      if CardMatched(db.users[id], db.cards[cid]) {
        RestConfirmed(db, id, cid, info);
      } else {
        MatchCardConfirmed(db, id, cid, matching);
        var r := MatchCard(db, id, cid, matching);
        if Yes(r.1) {
          RestConfirmed(r.0, id, cid, info);
        }
      }
    }
  }

  // ----- the forms -----

  /** A raise never touches the code's verdict. */
  lemma StoreRaise(db: Db, id: nat, p: Profile)
    requires p.level == 1
    ensures var q := Store(db, id, p).users[id]; q.level == 1 || q.codeVerified == p.codeVerified
  {
  }

  lemma StatusRaise(db: Db, id: nat, status: Status, reason: Reason)
    requires id in db.users && db.users[id].level == 1
    ensures var q := SetStatus(db, id, status, reason).users[id]; q.level == 1 || q.codeVerified == db.users[id].codeVerified
  {
  }

  lemma SubmitPartsRaise(db1: Db, id: nat, p: Profile)
    requires id in db1.users && p.level == 1 && p.status != Pending
    ensures var db' := RejectTaken(SetStatus(Store(db1, id, p), id, Pending, NoReason), id);
            id in db'.users && (db'.users[id].level == 1 || db'.users[id].codeVerified == p.codeVerified)
  {
    var db3 := SetStatus(Store(db1, id, p), id, Pending, NoReason);
    var q := db3.users[id];
    if Taken(db3.users, id, q.nationalCode) {
      TakenOwnRow(Store(db1, id, p).users, id, q, q.nationalCode);
      assert q.level == 1;
      StoreRaise(db3, id, q.(codeVerified := Some(false)));
      assert Store(db3, id, q.(codeVerified := Some(false))).users[id].level == 1;
      RejectKeepsLevel(Store(db3, id, q.(codeVerified := Some(false))), id);
    }
  }

  lemma SubmitRaise(db: Db, id: nat, data: BasicInfo, cards: Cards, cid: nat)
    requires id in db.users && cid in cards && db.users[id].level == 1 && db.users[id].status != Pending
    ensures var q := Submit(db, id, data, cards, cid).users[id];
            q.level == 1 || (Yes(q.codeVerified) <==> Yes(db.users[id].codeVerified))
  {
    var first, last := Names.Clean(data.firstName), Names.Clean(data.lastName);
    var p := WithFields(db.users[id], data, first, last);
    WithFieldsVerdict(db.users[id], data, first, last);
    SubmitPartsRaise(Db(db.users, if Yes(cards[cid].verified) then cards else cards[cid := cards[cid].(verified := None)]), id, p);
  }

  lemma WithFieldsVerdict(p: Profile, data: BasicInfo, first: string, last: string)
    ensures var q := WithFields(p, data, first, last);
            q.level == p.level && q.status == p.status && (Yes(q.codeVerified) <==> Yes(p.codeVerified))
  {
  }

  // ----- every step -----

  /** What can be told before the step about the code it would take to level 2. */
  predicate CodeConfirmed(db: Db, s: Step)
    requires Subject(s).Some? && s.id in db.users
  {
    match s
    case BasicTask(_, _, _, _) => true
    case PaymentRedirect(_) => true
    case StaffForm(_, edit) => Yes(edit.codeVerified)
    case _ => Yes(db.users[s.id].codeVerified)
  }

  lemma SavedVerdict(db: Db, s: Step)
    requires Applies(db, s) && (WritesCode(s) || s.PaymentRedirect? || s.PlainSave? || s.Recheck?)
    requires LevelOf(db, s.id) == 1 && LevelOf(Apply(db, s), s.id) == 2
    ensures Yes(Apply(db, s).users[s.id].codeVerified) <==> CodeConfirmed(db, s)
  {
  }

  lemma NeverRaises(db: Db, s: Step)
    requires Applies(db, s) && (s.PhoneTask? || s.FullForm? || s.TurnDown?) && LevelOf(db, s.id) == 1
    ensures LevelOf(Apply(db, s), s.id) == 1
  {
  }

  /** A user raised to level 2 has a confirmed code exactly when the step is the verification task,
      the payment redirect or a staff form saying so, or the code was confirmed already. */
  lemma LevelTwoVerdict(db: Db, s: Step)
    requires Applies(db, s) && AllSound(db.users) && Subject(s).Some?
    requires LevelOf(db, s.id) == 1 && LevelOf(Apply(db, s), s.id) == 2
    ensures Yes(Apply(db, s).users[s.id].codeVerified) <==> CodeConfirmed(db, s)
  {
    if s.BasicTask? {
      BasicVerifyConfirmed(db, s.id, s.card, s.matching, s.info);
    } else if s.BasicForm? {
      BasicFormRaise(db, s);
    } else if s.PhoneChange? {
      PutBackRaise(db, s.id);
    } else if s.PhoneTask? || s.FullForm? || s.TurnDown? {
      NeverRaises(db, s);
      assert false;
    } else {
      SavedVerdict(db, s);
    }
  }

  lemma BasicFormRaise(db: Db, s: Step)
    requires Applies(db, s) && s.BasicForm? && LevelOf(db, s.id) == 1
    ensures var q := Apply(db, s).users[s.id]; q.level == 1 || (Yes(q.codeVerified) <==> Yes(db.users[s.id].codeVerified))
  {
    if !Refused(db, s.id, s.data) {
      var r := ChooseCard(db.cards, s.id, s.data.pan, s.live, s.same, s.newId);
      SubmitRaise(db, s.id, s.data, r.0, r.1);
    }
  }

  lemma PutBackRaise(db: Db, id: nat)
    requires id in db.users && db.users[id].level == 1
    ensures var q := PutBack(db, id).users[id]; q.level == 1 || (Yes(q.codeVerified) <==> Yes(db.users[id].codeVerified))
  {
    StoreRaise(db, id, db.users[id]);
    var db1 := Store(db, id, db.users[id]);
    if db1.users[id].level == 1 {
      StatusRaise(db1, id, Pending, NoReason);
      if !Yes(db.users[id].codeVerified) {
        assert !Yes(db1.users[id].codeVerified);
      }
    }
  }
}
