/** The verification entry points as code over user objects: verifiers with their retries, the
    two serializers, and staff verdicts. Each is one atomic step of the database. */
module KycTasks {
  import opened Options
  import opened Kyc
  import opened KycUser
  import opened KycFlows
  import opened KycCards
  import Names

  method VerifyBankCardByNationalCode(user: User, cid: nat, replies: seq<Reply<bool>>, retry: nat) returns (r: Verdict)
    requires user.Coherent() && cid in user.db.cards && |replies| > retry
    modifies user, user.db
    ensures user.Coherent()
    ensures (user.db.Value(), r) == MatchCard(old(user.db.Value()), user.id, cid, Resolve(replies, retry))
    decreases retry
  {
    var db := user.db;
    if CardMatched(user.Self(), db.cards[cid]) {
      return Some(true);
    }
    if user.nationalCode == "" || user.birthDate.None? {
      return Some(false);
    }
    if Duplicated(db.cards, cid) {
      RejectDuplicated(user, cid);
      return Some(false);
    }
    var identityMatched: Verdict := None;
    var cardMatched: Verdict := None;
    match replies[0] {
      case Success(matched) =>
        cardMatched := Some(matched);
        if matched {
          identityMatched := Some(true);
        }
      case InvalidData =>
        identityMatched := Some(false);
      case OtherCode =>
        return None;
      case Unavailable =>
        if retry == 0 {
          return None;
        }
        r := VerifyBankCardByNationalCode(user, cid, replies[1..], retry - 1);
        return;
    }
    r := RecordMatch(user, cid, identityMatched, cardMatched);
  }

  method RejectDuplicated(user: User, cid: nat)
    requires user.Coherent() && cid in user.db.cards
    modifies user, user.db
    ensures user.Coherent()
    ensures var db := old(user.db.Value()); var card := db.cards[cid];
            user.db.Value() ==
            SetStatus(if Yes(card.verified) then SetCard(db, cid, card.(verified := Some(false), rejectReason := "duplicated")) else db,
                      user.id, Rejected, NoReason)
  {
    var db := user.db;
    if Yes(db.cards[cid].verified) {
      db.cards := db.cards[cid := db.cards[cid].(verified := Some(false), rejectReason := "duplicated")];
    }
    user.ChangeStatus(Rejected, NoReason);
  }

  method RecordMatch(user: User, cid: nat, identityMatched: Verdict, cardMatched: Verdict) returns (r: Verdict)
    requires user.Coherent() && cid in user.db.cards
    modifies user, user.db
    ensures user.Coherent()
    ensures (user.db.Value(), r) == Matched(old(user.db.Value()), user.id, cid, identityMatched, cardMatched)
  {
    var db := user.db;
    user.codeVerified := identityMatched;
    user.birthDateVerified := identityMatched;
    user.Save({FCodeVerified, FBirthDateVerified});
    db.cards := db.cards[cid := db.cards[cid].(verified := cardMatched)];
    if No(identityMatched) || No(cardMatched) {
      user.ChangeStatus(Rejected, NoReason);
      return Some(false);
    }
    var _ := user.VerifyLevel2IfNot();
    return Some(true);
  }

  /** Two non-empty names count as verified. */
  method StoreNames(user: User, first: string, last: string) returns (r: Verdict)
    requires user.Coherent()
    modifies user, user.db`users
    ensures user.Coherent()
    ensures (user.db.Value(), r) == Named(old(user.db.Value()), user.id, first, last)
  {
    user.firstName := first;
    user.lastName := last;
    var verified := first != "" && last != "";
    if verified {
      user.firstNameVerified := Some(true);
      user.lastNameVerified := Some(true);
      user.Save({FFirstName, FLastName, FFirstNameVerified, FLastNameVerified});
      var _ := user.VerifyLevel2IfNot();
      return Some(true);
    }
    user.Save({FFirstName, FLastName});
    return None;
  }

  /** The owner's name as the bank has it, split into the user's names. */
  method RecordName(user: User, cid: nat, ownerName: string) returns (r: Verdict)
    requires user.Coherent() && cid in user.db.cards
    modifies user, user.db
    ensures user.Coherent()
    ensures (user.db.Value(), r) ==
            Named(SetCard(old(user.db.Value()), cid, old(user.db.cards[cid]).(ownerName := ownerName)), user.id,
                  Names.FirstName(ownerName), Names.LastName(ownerName))
  {
    var db := user.db;
    db.cards := db.cards[cid := db.cards[cid].(ownerName := ownerName)];
    var first, last := Names.SplitNames(ownerName);
    r := StoreNames(user, first, last);
  }

  method RejectCard(user: User, cid: nat)
    requires user.Coherent() && cid in user.db.cards
    modifies user, user.db
    ensures user.Coherent()
    ensures user.db.Value() ==
            SetStatus(SetCard(old(user.db.Value()), cid,
                              old(user.db.cards[cid]).(verified := Some(false), rejectReason := "INVALID_DATA")),
                      user.id, Rejected, NoReason)
  {
    var db := user.db;
    db.cards := db.cards[cid := db.cards[cid].(verified := Some(false), rejectReason := "INVALID_DATA")];
    user.ChangeStatus(Rejected, NoReason);
  }

  method VerifyNameByBankCard(user: User, cid: nat, replies: seq<Reply<CardInfo>>, retry: nat) returns (r: Verdict)
    requires user.Coherent() && cid in user.db.cards && |replies| > retry
    modifies user, user.db
    ensures user.Coherent()
    ensures (user.db.Value(), r) == NameFromCard(old(user.db.Value()), user.id, cid, Resolve(replies, retry))
    decreases retry
  {
    var db := user.db;
    if !db.cards[cid].kyc {
      return Some(false);
    }
    if Yes(user.firstNameVerified) && Yes(user.lastNameVerified) {
      return Some(true);
    }
    match replies[0] {
      case Success(info) =>
        r := RecordName(user, cid, info.ownerName);
      case InvalidData =>
        RejectCard(user, cid);
        return Some(false);
      case OtherCode =>
        return None;
      case Unavailable =>
        if retry == 0 {
          return None;
        }
        r := VerifyNameByBankCard(user, cid, replies[1..], retry - 1);
    }
  }

  /** `basic_verify`; each verifier retries twice. */
  method RunBasicVerify(user: User, card: Option<nat>, matching: seq<Reply<bool>>, infos: seq<Reply<CardInfo>>)
    requires user.Coherent() && FirstKycCard(user.db.cards, user.id, card) && |matching| > 2 && |infos| > 2
    modifies user, user.db
    ensures user.Coherent()
    ensures user.db.Value() == BasicVerify(old(user.db.Value()), user.id, card, Resolve(matching, 2), Resolve(infos, 2))
  {
    if user.level != 1 {
      return;
    }
    if card.None? {
      return;
    }
    var cid := card.value;
    if !Yes(user.codeVerified) || !Yes(user.birthDateVerified) || !Yes(user.db.cards[cid].verified) {
      var matched := VerifyBankCardByNationalCode(user, cid, matching, 2);
      if !Yes(matched) {
        return;
      }
    }
    FinishBasicVerify(user, cid, infos);
  }

  /** The task once code, birth date and card are confirmed: the names, then the promotion. */
  method FinishBasicVerify(user: User, cid: nat, infos: seq<Reply<CardInfo>>)
    requires user.Coherent() && cid in user.db.cards && |infos| > 2
    modifies user, user.db
    ensures user.Coherent()
    ensures var db1, p := old(user.db.Value()), old(user.Self());
            var (db2, named) :=
              if Yes(db1.cards[cid].verified) && !(Yes(p.firstNameVerified) && Yes(p.lastNameVerified))
              then NameFromCard(db1, user.id, cid, Resolve(infos, 2)) else (db1, Some(true));
            user.db.Value() == if !Yes(named) then db2 else VerifyIfReady(db2, user.id)
  {
    if Yes(user.db.cards[cid].verified) && (!Yes(user.firstNameVerified) || !Yes(user.lastNameVerified)) {
      var named := VerifyNameByBankCard(user, cid, infos, 2);
      if !Yes(named) {
        return;
      }
    }
    var _ := user.VerifyLevel2IfNot();
  }

  method VerifyNationalCodeWithPhone(user: User, replies: seq<Reply<bool>>, retry: nat) returns (r: Verdict)
    requires user.Coherent() && |replies| > retry
    modifies user, user.db
    ensures user.Coherent()
    ensures (user.db.Value(), r) == PhoneMatch(old(user.db.Value()), user.id, Resolve(replies, retry))
    decreases retry
  {
    if user.level != 2 {
      return Some(false);
    }
    if user.nationalCode == "" {
      return Some(false);
    }
    var verified := false;
    match replies[0] {
      case Success(matched) =>
        verified := matched;
      case InvalidData =>
        verified := false;
      case OtherCode =>
        return None;
      case Unavailable =>
        if retry == 0 {
          return None;
        }
        r := VerifyNationalCodeWithPhone(user, replies[1..], retry - 1);
        return;
    }
    user.phoneVerified := Some(verified);
    user.Save({FPhoneVerified});
    return Some(verified);
  }

  /** `BasicInfoSerializer.get_kyc_bank_card`; `None` stands for its `ValidationError`. In a table that
      meets its constraints the writes cannot break them, and they settle on the user's one KYC card. */
  method GetKycBankCard(db: Database, id: nat, pan: string, live: Option<nat>, same: Option<nat>, newId: nat)
    returns (cid: Option<nat>)
    requires KycAnswer(db.cards, id, live) && PanAnswer(db.cards, id, pan, same) && newId !in db.cards
    modifies db`cards
    ensures cid.None? <==> PanFrozen(old(db.cards), id, pan)
    ensures cid.None? ==> db.cards == old(db.cards)
    ensures cid.Some? ==> (db.cards, cid.value) == ChooseCard(old(db.cards), id, pan, live, same, newId)
    ensures Constrained(old(db.cards)) ==>
              Constrained(db.cards) && (cid.Some? ==> Chosen(old(db.cards), db.cards, id, pan, cid.value))
  {
    if PanFrozen(db.cards, id, pan) {
      return None;
    }
    if live.Some? {
      cid := live;
      var card := db.cards[live.value];
      if card.pan != pan {
        db.cards := WithoutPan(db.cards, id, pan);
        db.cards := db.cards[live.value := card.(pan := pan)];
      }
    } else if same.Some? {
      cid := same;
      db.cards := db.cards[same.value := db.cards[same.value].(kyc := true)];
    } else {
      cid := Some(newId);
      db.cards := db.cards[newId := Card(id, pan, None, true, false, "", "")];
    }
    ghost var cards := old(db.cards);
    if Constrained(cards) {
      ChooseCardKeeps(cards, id, pan, live, same, newId);
    }
  }

  /** `BasicInfoSerializer.update`. `false` stands for a `ValidationError`; requests are not
      transactions, so what was written before it stays. */
  method UpdateBasicInfo(user: User, data: BasicInfo, live: Option<nat>, same: Option<nat>, newId: nat) returns (ok: bool)
    requires user.Coherent() && newId !in user.db.cards
    requires KycAnswer(user.db.cards, user.id, live) && PanAnswer(user.db.cards, user.id, data.pan, same)
    modifies user, user.db
    ensures user.Coherent()
    ensures var db, r := old(user.db.Value()), ChooseCard(old(user.db.cards), user.id, data.pan, live, same, newId);
            user.db.Value() == if Refused(db, user.id, data) then db else Submit(db, user.id, data, r.0, r.1)
    ensures Refused(old(user.db.Value()), user.id, data) ==> !ok
    ensures !Refused(old(user.db.Value()), user.id, data) ==> (ok <==> !Taken(user.db.users, user.id, user.nationalCode))
  {
    if user.status == Pending || user.status == Verified || user.level > 1 || data.exhausted {
      return false;
    }
    if !AgeAccepted(data) {
      return false;
    }
    var cid := GetKycBankCard(user.db, user.id, data.pan, live, same, newId);
    if cid.None? {
      return false;
    }
    ok := SubmitInfo(user, data, cid.value);
  }

  /** The part of the update that follows its checks. */
  method SubmitInfo(user: User, data: BasicInfo, cid: nat) returns (ok: bool)
    requires user.Coherent() && cid in user.db.cards
    modifies user, user.db
    ensures user.Coherent()
    ensures user.db.Value() == Submit(old(user.db.Value()), user.id, data, old(user.db.cards), cid)
    ensures ok <==> !Taken(user.db.users, user.id, user.nationalCode)
  {
    var db := user.db;
    if !Yes(db.cards[cid].verified) {
      db.cards := db.cards[cid := db.cards[cid].(verified := None)];
    }
    WriteData(user, data);
    user.ChangeStatus(Pending, NoReason);
    ok := RejectIfTaken(user);
  }

  method RejectIfTaken(user: User) returns (ok: bool)
    requires user.Coherent()
    modifies user, user.db`users
    ensures user.Coherent()
    ensures user.db.Value() == RejectTaken(old(user.db.Value()), user.id)
    ensures ok <==> !Taken(user.db.users, user.id, user.nationalCode)
  {
    var db := user.db;
    if Taken(db.users, user.id, user.nationalCode) {
      user.codeVerified := Some(false);
      user.Save({FCodeVerified});
      user.ChangeStatus(Rejected, NationalCodeDuplicated);
      OwnRowIgnored(old(db.users), db.users, user.id, user.nationalCode);
      return false;
    }
    return true;
  }

  /** The field by field part of the update, with its list of columns to save. */
  method WriteData(user: User, data: BasicInfo)
    requires user.Coherent()
    modifies user, user.db`users
    ensures user.Coherent()
    ensures user.db.Value() == Store(old(user.db.Value()), user.id, WithData(old(user.Self()), data))
  {
    var toUpdate := OfferCode(user, data.nationalCode, {});
    if data.firstName != "" {
      toUpdate := OfferFirstName(user, Names.Clean(data.firstName), toUpdate);
    }
    if data.lastName != "" {
      toUpdate := OfferLastName(user, Names.Clean(data.lastName), toUpdate);
    }
    toUpdate := OfferBirthDate(user, data.birthDate, toUpdate);
    user.Save(toUpdate);
  }

  method OfferCode(user: User, code: string, toUpdate: set<Field>) returns (fields: set<Field>)
    requires user.Covers(toUpdate)
    modifies user
    ensures user.Covers(fields)
    ensures user.Self() == if Yes(old(user.codeVerified)) then old(user.Self())
                           else old(user.Self()).(nationalCode := code, codeVerified := None)
  {
    fields := toUpdate;
    if !Yes(user.codeVerified) {
      user.nationalCode := code;
      user.codeVerified := None;
      fields := fields + {FNationalCode, FCodeVerified};
    }
  }

  method OfferFirstName(user: User, name: string, toUpdate: set<Field>) returns (fields: set<Field>)
    requires user.Covers(toUpdate)
    modifies user
    ensures user.Covers(fields)
    ensures user.Self() == if Yes(old(user.firstNameVerified)) then old(user.Self())
                           else old(user.Self()).(firstName := name, firstNameVerified := None)
  {
    fields := toUpdate;
    if !Yes(user.firstNameVerified) {
      user.firstName := name;
      user.firstNameVerified := None;
      fields := fields + {FFirstName, FFirstNameVerified};
    }
  }

  method OfferLastName(user: User, name: string, toUpdate: set<Field>) returns (fields: set<Field>)
    requires user.Covers(toUpdate)
    modifies user
    ensures user.Covers(fields)
    ensures user.Self() == if Yes(old(user.lastNameVerified)) then old(user.Self())
                           else old(user.Self()).(lastName := name, lastNameVerified := None)
  {
    fields := toUpdate;
    if !Yes(user.lastNameVerified) {
      user.lastName := name;
      user.lastNameVerified := None;
      fields := fields + {FLastName, FLastNameVerified};
    }
  }

  method OfferBirthDate(user: User, date: int, toUpdate: set<Field>) returns (fields: set<Field>)
    requires user.Covers(toUpdate)
    modifies user
    ensures user.Covers(fields)
    ensures user.Self() == if Yes(old(user.birthDateVerified)) then old(user.Self())
                           else old(user.Self()).(birthDate := Some(date), birthDateVerified := None)
  {
    fields := toUpdate;
    if !Yes(user.birthDateVerified) {
      user.birthDate := Some(date);
      user.birthDateVerified := None;
      fields := fields + {FBirthDate, FBirthDateVerified};
    }
  }

  /** `FullVerificationSerializer.update`. */
  method UpdateFullVerification(user: User, image: nat) returns (ok: bool)
    requires user.Coherent()
    modifies user, user.db
    ensures user.Coherent()
    ensures user.db.Value() == FullVerify(old(user.db.Value()), user.id, image)
    ensures ok <==> !FullRefused(old(user.Self()))
  {
    if user.status == Pending || user.status == Verified {
      return false;
    }
    if user.level >= 3 {
      return false;
    }
    if user.level == 1 {
      return false;
    }
    if Yes(user.selfieVerified) && Yes(user.phoneVerified) {
      user.ChangeStatus(Verified, NoReason);
      return true;
    }
    if !Yes(user.selfieVerified) {
      user.selfie := Some(image);
      user.selfieVerified := None;
      user.Save({FSelfie, FSelfieVerified});
    }
    user.ChangeStatus(Pending, NoReason);
    return true;
  }

  /** The staff form: every column is written. */
  method SaveStaffForm(user: User, e: StaffEdit)
    requires user.Coherent()
    modifies user, user.db
    ensures user.Coherent()
    ensures user.db.Value() == StaffEdited(old(user.db.Value()), user.id, e)
  {
    user.nationalCode, user.codeVerified, user.phoneVerified := e.nationalCode, e.codeVerified, e.phoneVerified;
    user.birthDate, user.birthDateVerified := e.birthDate, e.birthDateVerified;
    user.firstName, user.firstNameVerified := e.firstName, e.firstNameVerified;
    user.lastName, user.lastNameVerified := e.lastName, e.lastNameVerified;
    user.selfieVerified := e.selfieVerified;
    user.Save(ALL_FIELDS);
  }

  /** The sign-up widget for a phone that has an account; `false` stands for a `ValidationError`. */
  method SubmitWidgetCode(user: User, code: string) returns (ok: bool)
    requires user.Coherent()
    modifies user, user.db`users
    ensures user.Coherent()
    ensures user.db.Value() == WidgetEdited(old(user.db.Value()), user.id, code)
    ensures ok <==> WidgetVerified(old(user.Self())) || Offered(old(user.db.Value()), user.id, code)
  {
    if user.nationalCode != "" && Yes(user.codeVerified) {
      return true;
    }
    if code == "" {
      return false;
    }
    if VerifiedHolder(user.db.users, code) {
      return false;
    }
    user.nationalCode := code;
    user.Save({FNationalCode});
    return true;
  }
}
