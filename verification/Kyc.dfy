/** The verification levels of accounts/models/user.py: profiles, evidence, and the resting state
    that `save` and `change_status` lead to, written without their mutual recursion. */
module Kyc {
  import opened Options

  datatype Status = Init | Pending | Rejected | Verified

  datatype Reason = NoReason | NationalCodeDuplicated

  /** A nullable boolean: `None` is evidence not judged yet. */
  type Verdict = Option<bool>

  datatype Profile = Profile(
    level: nat, status: Status, reason: Reason,
    nationalCode: string, codeVerified: Verdict, phoneVerified: Verdict,
    birthDate: Option<int>, birthDateVerified: Verdict,
    firstName: string, firstNameVerified: Verdict, lastName: string, lastNameVerified: Verdict,
    selfie: Option<nat>, selfieVerified: Verdict)

  datatype Card = Card(
    owner: nat, pan: string, verified: Verdict, kyc: bool, deleted: bool, ownerName: string, rejectReason: string)

  type Users = map<nat, Profile>

  type Cards = map<nat, Card>

  datatype Db = Db(users: Users, cards: Cards)

  predicate Yes(v: Verdict) { v == Some(true) }

  predicate No(v: Verdict) { v == Some(false) }

  // ----- evidence -----

  predicate LiveWith(cards: Cards, id: nat, verdict: Verdict) {
    exists c :: c in cards && cards[c].owner == id && !cards[c].deleted && cards[c].verified == verdict
  }

  function CardEvidence(cards: Cards, id: nat): Verdict {
    if LiveWith(cards, id, Some(true)) then Some(true)
    else if !LiveWith(cards, id, None) then Some(false)
    else None
  }

  function Level2Fields(cards: Cards, id: nat, p: Profile): seq<Verdict> {
    [Some(p.nationalCode != ""),
     Some(p.birthDate.Some?), p.birthDateVerified,
     Some(p.firstName != ""), p.firstNameVerified,
     Some(p.lastName != ""), p.lastNameVerified,
     CardEvidence(cards, id)]
  }

  predicate AllEvidence(cards: Cards, id: nat, p: Profile) {
    && p.nationalCode != "" && p.birthDate.Some? && p.firstName != "" && p.lastName != ""
    && Yes(p.birthDateVerified) && Yes(p.firstNameVerified) && Yes(p.lastNameVerified)
    && Yes(CardEvidence(cards, id))
  }

  predicate SomeUnjudged(cards: Cards, id: nat, p: Profile) {
    p.birthDateVerified.None? || p.firstNameVerified.None? || p.lastNameVerified.None? || CardEvidence(cards, id).None?
  }

  /** Somebody else of level 2 or more holds the code. */
  predicate Taken(users: Users, id: nat, code: string) {
    exists other :: other in users && other != id && users[other].level >= 2 && users[other].nationalCode == code
  }

  // ----- resting states -----

  /** Outcome of approving a profile: one level up, unless a level-1 profile's code is taken. */
  function Promoted(users: Users, id: nat, p: Profile): Profile {
    if p.level == 1 && Taken(users, id, p.nationalCode)
    then p.(status := Rejected, reason := NationalCodeDuplicated, codeVerified := Some(false))
    else p.(status := Init, level := p.level + 1)
  }

  /** What a stored profile comes to rest at. */
  function Settled(db: Db, id: nat, p: Profile): Profile {
    if p.status != Pending then p
    else if p.level == 2 then
      if Yes(p.phoneVerified) && Yes(p.selfieVerified) then Promoted(db.users, id, p)
      else if No(p.selfieVerified) then p.(status := Rejected, reason := NoReason)
      else p
    else if p.level == 1 then
      if AllEvidence(db.cards, id, p) then Promoted(db.users, id, p)
      else if !SomeUnjudged(db.cards, id, p) then p.(status := Rejected, reason := NoReason)
      else p
    else p
  }

  /** What `change_status` comes to rest at. */
  function StatusChanged(db: Db, id: nat, p: Profile, status: Status, reason: Reason): Profile {
    if p.status != Verified && status == Verified then Promoted(db.users, id, p)
    else if p.status != Rejected && status == Rejected then p.(status := Rejected, reason := reason)
    else Settled(db, id, p.(status := status))
  }

  /** What `verify_level2_if_not` comes to rest at. */
  function VerifiedIfReady(db: Db, id: nat, p: Profile): Profile {
    if p.level == 1 && AllEvidence(db.cards, id, p) then StatusChanged(db, id, p, Verified, NoReason) else p
  }

  // ----- quiescence -----

  /** The recursion stops at a fixed point, and a profile still pending there is short of evidence. */
  lemma SettledIsQuiescent(db: Db, id: nat, p: Profile)
    ensures var q := Settled(db, id, p);
            && Settled(db, id, q) == q
            && (q.status == Pending && q.level == 1 ==> SomeUnjudged(db.cards, id, q) && !AllEvidence(db.cards, id, q))
            && (q.status == Pending && q.level == 2 ==>
                  !No(q.selfieVerified) && !(Yes(q.selfieVerified) && Yes(q.phoneVerified)))
  {
  }

  lemma StatusChangeIsQuiescent(db: Db, id: nat, p: Profile, status: Status, reason: Reason)
    ensures var q := StatusChanged(db, id, p, status, reason);
            && Settled(db, id, q) == q
            && (q.status == Pending && q.level == 1 ==> SomeUnjudged(db.cards, id, q) && !AllEvidence(db.cards, id, q))
            && (q.status == Pending && q.level == 2 ==>
                  !No(q.selfieVerified) && !(Yes(q.selfieVerified) && Yes(q.phoneVerified)))
            && (q.status == Verified ==> p.status == status == Verified)
  {
    SettledIsQuiescent(db, id, p.(status := status));
  }

  // ----- columns -----

  datatype Field =
    | FLevel | FStatus | FReason | FNationalCode | FCodeVerified | FPhoneVerified | FBirthDate | FBirthDateVerified
    | FFirstName | FFirstNameVerified | FLastName | FLastNameVerified | FSelfie | FSelfieVerified

  const ALL_FIELDS: set<Field> := {
    FLevel, FStatus, FReason, FNationalCode, FCodeVerified, FPhoneVerified, FBirthDate, FBirthDateVerified,
    FFirstName, FFirstNameVerified, FLastName, FLastNameVerified, FSelfie, FSelfieVerified
  }

  /** Writing some columns of a row. */
  function Merge(row: Profile, p: Profile, fields: set<Field>): Profile {
    Profile(
      if FLevel in fields then p.level else row.level,
      if FStatus in fields then p.status else row.status,
      if FReason in fields then p.reason else row.reason,
      if FNationalCode in fields then p.nationalCode else row.nationalCode,
      if FCodeVerified in fields then p.codeVerified else row.codeVerified,
      if FPhoneVerified in fields then p.phoneVerified else row.phoneVerified,
      if FBirthDate in fields then p.birthDate else row.birthDate,
      if FBirthDateVerified in fields then p.birthDateVerified else row.birthDateVerified,
      if FFirstName in fields then p.firstName else row.firstName,
      if FFirstNameVerified in fields then p.firstNameVerified else row.firstNameVerified,
      if FLastName in fields then p.lastName else row.lastName,
      if FLastNameVerified in fields then p.lastNameVerified else row.lastNameVerified,
      if FSelfie in fields then p.selfie else row.selfie,
      if FSelfieVerified in fields then p.selfieVerified else row.selfieVerified)
  }
}
