/** What the forms leave in the tables, column by column. */
module KycForms {
  import opened Options
  import opened Kyc
  import opened KycColumns
  import opened KycUser
  import opened KycFlows
  import opened KycRuns
  import Names

  // ----- the basic form -----

  /** The form is refused while the user is in line or verified, after too many attempts, under 15 or
      over 120 years of 365 days, or when a live verified KYC card has another number. */
  lemma RefusedInColumns(db: Db, id: nat, data: BasicInfo)
    requires id in db.users
    ensures Refused(db, id, data) <==>
              || db.users[id].status == Pending || db.users[id].status == Verified || db.users[id].level > 1 || data.exhausted
              || data.today - data.birthDate < 5475 || data.today - data.birthDate > 43800
              || exists c :: c in db.cards && db.cards[c].owner == id && db.cards[c].kyc && !db.cards[c].deleted &&
                             db.cards[c].verified == Some(true) && db.cards[c].pan != data.pan
  {
    assert forall c :: LiveKyc(db.cards, id, c) <==> c in db.cards && db.cards[c].owner == id && db.cards[c].kyc && !db.cards[c].deleted;
  }

  /** What is confirmed stays; a name that was not given stays too; everything else takes what was
      submitted, names cleaned, and loses its verdict. */
  lemma DataOutcome(p: Profile, data: BasicInfo)
    ensures var q := WithData(p, data);
            && (if p.codeVerified == Some(true) then q.nationalCode == p.nationalCode && q.codeVerified == Some(true)
                else q.nationalCode == data.nationalCode && q.codeVerified == None)
            && (if p.birthDateVerified == Some(true) then q.birthDate == p.birthDate && q.birthDateVerified == Some(true)
                else q.birthDate == Some(data.birthDate) && q.birthDateVerified == None)
            && (if p.firstNameVerified == Some(true) || data.firstName == ""
                then q.firstName == p.firstName && q.firstNameVerified == p.firstNameVerified
                else q.firstName == Names.Clean(data.firstName) && q.firstNameVerified == None)
            && (if p.lastNameVerified == Some(true) || data.lastName == ""
                then q.lastName == p.lastName && q.lastNameVerified == p.lastNameVerified
                else q.lastName == Names.Clean(data.lastName) && q.lastNameVerified == None)
            && q.level == p.level && q.status == p.status && q.reason == p.reason
            && q.phoneVerified == p.phoneVerified && q.selfie == p.selfie && q.selfieVerified == p.selfieVerified
  {
    FieldsOutcome(p, data, Names.Clean(data.firstName), Names.Clean(data.lastName));
  }

  lemma FieldsOutcome(p: Profile, data: BasicInfo, first: string, last: string)
    ensures var q := WithFields(p, data, first, last);
            && (if p.codeVerified == Some(true) then q.nationalCode == p.nationalCode && q.codeVerified == Some(true)
                else q.nationalCode == data.nationalCode && q.codeVerified == None)
            && (if p.birthDateVerified == Some(true) then q.birthDate == p.birthDate && q.birthDateVerified == Some(true)
                else q.birthDate == Some(data.birthDate) && q.birthDateVerified == None)
            && (if p.firstNameVerified == Some(true) || data.firstName == ""
                then q.firstName == p.firstName && q.firstNameVerified == p.firstNameVerified
                else q.firstName == first && q.firstNameVerified == None)
            && (if p.lastNameVerified == Some(true) || data.lastName == ""
                then q.lastName == p.lastName && q.lastNameVerified == p.lastNameVerified
                else q.lastName == last && q.lastNameVerified == None)
            && q.level == p.level && q.status == p.status && q.reason == p.reason
            && q.phoneVerified == p.phoneVerified && q.selfie == p.selfie && q.selfieVerified == p.selfieVerified
  {
  }

  /** Putting a level-1 user with these data in line. A held code is refused in any case; only where all
      evidence is judged and some is missing does the earlier refusal's empty reason stay. */
  lemma LineOutcome(db: Db, id: nat, p: Profile)
    requires id in db.users && p.level == 1 && p.status in {Init, Rejected}
    ensures var db' := RejectTaken(SetStatus(Store(db, id, p), id, Pending, NoReason), id);
            && id in db'.users && db'.users == db.users[id := db'.users[id]] && db'.cards == db.cards
            && var q, complete, open := db'.users[id], AllEvidence(db.cards, id, p), SomeUnjudged(db.cards, id, p);
            if Taken(db.users, id, p.nationalCode) then
              SameData(p, q) && q.level == 1 && q.status == Rejected && q.codeVerified == Some(false) &&
              q.reason == (if complete || open then NationalCodeDuplicated else NoReason)
            else if complete then RaisedFrom(p, q)
            else if open then q == p.(status := Pending)
            else RefusedFor(p, q, NoReason)
  {
    var p1 := p.(status := Pending);
    var q1 := Settled(db, id, p1);
    var db3 := SetStatus(Store(db, id, p), id, Pending, NoReason);
    LineFirst(db, id, p);
    SaveOutcome(db, id, p1);
    TakenOwnRow(db.users, id, q1, p.nationalCode);
    if Taken(db.users, id, p.nationalCode) {
      LineRefused(db3, id, q1, p);
      var q := SetStatus(Store(db3, id, q1.(codeVerified := Some(false))), id, Rejected, NationalCodeDuplicated).users[id];
      assert db.users[id := q1][id := q] == db.users[id := q];
    }
  }

  lemma LineFirst(db: Db, id: nat, p: Profile)
    requires id in db.users && p.level == 1 && p.status in {Init, Rejected}
    ensures SetStatus(Store(db, id, p), id, Pending, NoReason) == Db(db.users[id := Settled(db, id, p.(status := Pending))], db.cards)
  {
    var q := Settled(db, id, p.(status := Pending));
    TakenOwnRow(db.users, id, p, p.nationalCode);
    StatusOutcome(Store(db, id, p), id, p, Pending, NoReason);
    assert db.users[id := p][id := q] == db.users[id := q];
  }

  /** The second refusal of a held code. */
  lemma LineRefused(db: Db, id: nat, q1: Profile, p: Profile)
    requires id in db.users && db.users[id] == q1 && q1.level == 1 && SameData(p, q1) && Taken(db.users, id, p.nationalCode)
    requires q1.status in {Pending, Rejected} && (q1.status == Pending ==> !AllEvidence(db.cards, id, q1) && SomeUnjudged(db.cards, id, q1))
    ensures var db' := SetStatus(Store(db, id, q1.(codeVerified := Some(false))), id, Rejected, NationalCodeDuplicated);
            && id in db'.users && db'.users == db.users[id := db'.users[id]] && db'.cards == db.cards
            && var q := db'.users[id];
            && SameData(p, q) && q.level == 1 && q.status == Rejected && q.codeVerified == Some(false)
            && q.reason == (if q1.status == Pending then NationalCodeDuplicated else q1.reason)
  {
    var r := q1.(codeVerified := Some(false));
    SaveOutcome(db, id, r);
    StatusOutcome(Store(db, id, r), id, r, Rejected, NationalCodeDuplicated);
    SaveOutcome(Store(db, id, r), id, r.(status := Rejected));
    var q := SetStatus(Store(db, id, r), id, Rejected, NationalCodeDuplicated).users[id];
    assert db.users[id := r][id := q] == db.users[id := q];
  }

  /** An accepted form: the card waits for a verdict unless it is verified, and with the submitted data
      the user is refused, raised, or put in line as above. */
  lemma SubmitOutcome(db: Db, id: nat, data: BasicInfo, cards: Cards, cid: nat)
    requires id in db.users && cid in cards && db.users[id].level == 1 && db.users[id].status in {Init, Rejected}
    ensures var db', p := Submit(db, id, data, cards, cid), WithData(db.users[id], data);
            && id in db'.users && db'.users == db.users[id := db'.users[id]]
            && db'.cards == (if cards[cid].verified == Some(true) then cards else cards[cid := cards[cid].(verified := None)])
            && var q, complete, open := db'.users[id], AllEvidence(db'.cards, id, p), SomeUnjudged(db'.cards, id, p);
            if Taken(db.users, id, p.nationalCode) then
              SameData(p, q) && q.level == 1 && q.status == Rejected && q.codeVerified == Some(false) &&
              q.reason == (if complete || open then NationalCodeDuplicated else NoReason)
            else if complete then RaisedFrom(p, q)
            else if open then q == p.(status := Pending)
            else RefusedFor(p, q, NoReason)
  {
    var p := WithData(db.users[id], data);
    DataOutcome(db.users[id], data);
    LineOutcome(Db(db.users, if Yes(cards[cid].verified) then cards else cards[cid := cards[cid].(verified := None)]), id, p);
  }

  // ----- the selfie form -----

  /** Refused in line, when verified, and outside level 2; with selfie and phone approved the user is
      raised; otherwise a new selfie replaces one not approved, and the user is put in line. */
  lemma FullFormOutcome(db: Db, id: nat, image: nat)
    requires id in db.users && Sound(db.users[id])
    ensures var db' := FullVerify(db, id, image); var p := db.users[id];
            if p.status == Pending || p.level != 2 then db' == db
            else
              && id in db'.users && db'.users == db.users[id := db'.users[id]] && db'.cards == db.cards
              && var q := db'.users[id];
              if p.phoneVerified == p.selfieVerified == Some(true) then RaisedFrom(p, q)
              else if p.selfieVerified == Some(true) then q == p.(status := Pending)
              else q == p.(status := Pending, selfie := Some(image), selfieVerified := None)
  {
    var p := db.users[id];
    var p1 := p.(selfie := Some(image), selfieVerified := None);
    StatusOutcome(db, id, p, Verified, NoReason);
    SaveOutcome(db, id, p1);
    StatusOutcome(db, id, p, Pending, NoReason);
    SaveOutcome(db, id, p.(status := Pending));
    StatusOutcome(Store(db, id, p1), id, p1, Pending, NoReason);
    SaveOutcome(Store(db, id, p1), id, p1.(status := Pending));
    assert db.users[id := p1][id := p1.(status := Pending)] == db.users[id := p1.(status := Pending)];
  }

  // ----- staff, widget and the rest -----

  /** A staff form's columns are stored as written, the code's verdict alone can fall in the same save;
      a user who is not in line keeps level, status and reason. */
  lemma StaffOutcome(db: Db, id: nat, e: StaffEdit)
    requires id in db.users
    ensures var db' := StaffEdited(db, id, e); var p := db.users[id];
            && id in db'.users && db'.users == db.users[id := db'.users[id]] && db'.cards == db.cards
            && var q := db'.users[id];
            && q.nationalCode == e.nationalCode && q.birthDate == e.birthDate && q.firstName == e.firstName && q.lastName == e.lastName
            && q.phoneVerified == e.phoneVerified && q.birthDateVerified == e.birthDateVerified
            && q.firstNameVerified == e.firstNameVerified && q.lastNameVerified == e.lastNameVerified
            && q.selfieVerified == e.selfieVerified && q.selfie == p.selfie
            && (q.codeVerified == e.codeVerified || (q.reason == NationalCodeDuplicated && q.codeVerified == Some(false)))
            && (p.status != Pending ==> q.level == p.level && q.status == p.status && q.reason == p.reason && q.codeVerified == e.codeVerified)
  {
    SaveOutcome(db, id, Edited(db.users[id], e));
  }

  /** The widget writes a code for a user without a confirmed one, unless somebody holds it confirmed. */
  lemma WidgetOutcome(db: Db, id: nat, code: string)
    requires id in db.users
    ensures var db' := WidgetEdited(db, id, code); var p := db.users[id];
            if (p.nationalCode == "" || p.codeVerified != Some(true)) && code != "" &&
               (forall u :: u in db.users && db.users[u].nationalCode == code ==> db.users[u].codeVerified != Some(true))
            then db' == Db(db.users[id := Settled(db, id, p.(nationalCode := code))], db.cards)
            else db' == db
  {
    assert VerifiedHolder(db.users, code) <==> exists u :: u in db.users && db.users[u].nationalCode == code && db.users[u].codeVerified == Some(true);
  }

  /** A changed phone number does nothing to a user with a confirmed code and puts another one of level 1
      in line; that it saves first makes no difference. */
  lemma PutBackOutcome(db: Db, id: nat)
    requires id in db.users
    ensures var db' := PutBack(db, id); var p := db.users[id];
            if p.codeVerified == Some(true) then db' == db
            else db' == Db(db.users[id := Settled(db, id, if p.level == 1 then p.(status := Pending) else p)], db.cards)
  {
    var p := db.users[id];
    var q := Settled(db, id, p);
    var db1 := Store(db, id, p);
    SaveOutcome(db, id, p);
    SaveOutcome(db, id, p.(status := Pending));
    if p.codeVerified != Some(true) && q.level == 1 && q.status != Pending {
      StatusOutcome(db1, id, q, Pending, NoReason);
      TakenOwnRow(db.users, id, q, q.nationalCode);
      SaveOutcome(db1, id, q.(status := Pending));
      var r := SetStatus(db1, id, Pending, NoReason).users[id];
      assert db.users[id := q][id := r] == db.users[id := r];
    }
  }

  /** The remaining steps: a sign-up adds a user, the payment redirect confirms the code unless it turns
      out to be held, any other save and a recheck let the evidence take effect. */
  lemma StandingOutcome(db: Db, id: nat, code: string)
    ensures id !in db.users ==> Apply(db, SignUp(id, code)) == Db(db.users[id := Newcomer(code)], db.cards)
    ensures id in db.users ==>
              var redirected, saved, checked := Apply(db, PaymentRedirect(id)), Apply(db, PlainSave(id)), Apply(db, Recheck(id));
              var p := db.users[id];
              && redirected.cards == saved.cards == checked.cards == db.cards
              && id in redirected.users && redirected.users == db.users[id := redirected.users[id]]
              && (redirected.users[id].codeVerified == Some(true) || RefusedAsDuplicate(p, redirected.users[id]))
              && saved.users == db.users[id := Settled(db, id, p)] && checked.users == db.users[id := VerifiedIfReady(db, id, p)]
  {
    if id in db.users {
      SaveOutcome(db, id, db.users[id].(codeVerified := Some(true)));
    }
  }

  /** Staff turn down level-1 users that are new or in line. */
  lemma TurnedDownOutcome(db: Db, id: nat)
    requires id in db.users
    ensures var p := db.users[id];
            TurnedDown(db, id) ==
            if p.level == 1 && (p.status == Init || p.status == Pending)
            then Db(db.users[id := p.(status := Rejected, reason := NoReason)], db.cards) else db
  {
    StatusOutcome(db, id, db.users[id], Rejected, NoReason);
  }

  /** A new account starts at level 1 with its code and nothing else. */
  lemma NewcomerOutcome(code: string)
    ensures var p := Newcomer(code);
            && p.level == 1 && p.status == Init && p.reason == NoReason && p.nationalCode == code
            && p.firstName == p.lastName == "" && p.birthDate == p.selfie == None
            && p.codeVerified == p.phoneVerified == p.birthDateVerified == p.firstNameVerified == p.lastNameVerified == p.selfieVerified == None
  {
  }
}
