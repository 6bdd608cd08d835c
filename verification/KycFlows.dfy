/** The verification flows as transitions of the database: what one atomic call of each entry
    point does (accounts/verifiers/basic_verifier.py and the two verification views). */
module KycFlows {
  import opened Options
  import opened Kyc
  import Names

  /** An answer of the outside matcher: data, a refusal of the data, another error, or no answer. */
  datatype Reply<+T> = Success(data: T) | InvalidData | OtherCode | Unavailable

  /** The attempt that counts when at most `retry` more may follow. */
  function Resolve<T>(replies: seq<Reply<T>>, retry: nat): Reply<T>
    requires |replies| > retry
  {
    if replies[0].Unavailable? && retry > 0 then Resolve(replies[1..], retry - 1) else replies[0]
  }

  function Store(db: Db, id: nat, p: Profile): Db {
    db.(users := db.users[id := Settled(db, id, p)])
  }

  function SetStatus(db: Db, id: nat, status: Status, reason: Reason): Db
    requires id in db.users
  {
    db.(users := db.users[id := StatusChanged(db, id, db.users[id], status, reason)])
  }

  function VerifyIfReady(db: Db, id: nat): Db
    requires id in db.users
  {
    db.(users := db.users[id := VerifiedIfReady(db, id, db.users[id])])
  }

  function SetCard(db: Db, cid: nat, card: Card): Db {
    db.(cards := db.cards[cid := card])
  }

  /** Another live card with the same number is verified. */
  predicate Duplicated(cards: Cards, cid: nat)
    requires cid in cards
  {
    exists c :: c in cards && c != cid && !cards[c].deleted && cards[c].pan == cards[cid].pan && Yes(cards[c].verified)
  }

  // ----- card against national code -----

  predicate CardMatched(p: Profile, c: Card) {
    Yes(p.codeVerified) && Yes(p.birthDateVerified) && Yes(c.verified)
  }

  function MatchCard(db: Db, id: nat, cid: nat, reply: Reply<bool>): (Db, Verdict)
    requires id in db.users && cid in db.cards
  {
    var p, card := db.users[id], db.cards[cid];
    if CardMatched(p, card) then (db, Some(true))
    else if p.nationalCode == "" || p.birthDate.None? then (db, Some(false))
    else if Duplicated(db.cards, cid) then
      var db1 := if Yes(card.verified) then SetCard(db, cid, card.(verified := Some(false), rejectReason := "duplicated")) else db;
      (SetStatus(db1, id, Rejected, NoReason), Some(false))
    else
      match reply
      case Success(matched) => Matched(db, id, cid, if matched then Some(true) else None, Some(matched))
      case InvalidData => Matched(db, id, cid, Some(false), None)
      case OtherCode => (db, None)
      case Unavailable => (db, None)
  }

  /** Record an answer: the identity first, then the card, then the consequence. */
  function Matched(db: Db, id: nat, cid: nat, identity: Verdict, card: Verdict): (Db, Verdict)
    requires id in db.users && cid in db.cards
  {
    var db1 := Store(db, id, db.users[id].(codeVerified := identity, birthDateVerified := identity));
    var db2 := SetCard(db1, cid, db1.cards[cid].(verified := card));
    if No(identity) || No(card) then (SetStatus(db2, id, Rejected, NoReason), Some(false))
    else (VerifyIfReady(db2, id), Some(true))
  }

  // ----- name from card -----

  datatype CardInfo = CardInfo(ownerName: string)

  function NameFromCard(db: Db, id: nat, cid: nat, reply: Reply<CardInfo>): (Db, Verdict)
    requires id in db.users && cid in db.cards
  {
    var p, card := db.users[id], db.cards[cid];
    if !card.kyc then (db, Some(false))
    else if Yes(p.firstNameVerified) && Yes(p.lastNameVerified) then (db, Some(true))
    else
      match reply
      case Success(info) =>
        Named(SetCard(db, cid, card.(ownerName := info.ownerName)), id,
              Names.FirstName(info.ownerName), Names.LastName(info.ownerName))
      case InvalidData =>
        var db1 := SetCard(db, cid, card.(verified := Some(false), rejectReason := "INVALID_DATA"));
        (SetStatus(db1, id, Rejected, NoReason), Some(false))
      case OtherCode => (db, None)
      case Unavailable => (db, None)
  }

  function Named(db: Db, id: nat, first: string, last: string): (Db, Verdict)
    requires id in db.users
  {
    var p := db.users[id].(firstName := first, lastName := last);
    if first != "" && last != "" then
      (VerifyIfReady(Store(db, id, p.(firstNameVerified := Some(true), lastNameVerified := Some(true))), id), Some(true))
    else (Store(db, id, p), None)
  }

  // ----- the whole verification -----

  predicate KycCard(cards: Cards, id: nat, cid: nat) {
    cid in cards && cards[cid].owner == id && cards[cid].kyc
  }

  /** The user's KYC card: the first by id, deleted ones included. */
  predicate FirstKycCard(cards: Cards, id: nat, found: Option<nat>) {
    match found
    case Some(cid) => KycCard(cards, id, cid) && forall c :: c in cards && c < cid ==> !KycCard(cards, id, c)
    case None => forall c :: c in cards ==> !KycCard(cards, id, c)
  }

  function BasicVerify(db: Db, id: nat, card: Option<nat>, matching: Reply<bool>, info: Reply<CardInfo>): Db
    requires id in db.users && FirstKycCard(db.cards, id, card)
  {
    if db.users[id].level != 1 || card.None? then db
    else
      var cid := card.value;
      var (db1, matched) := if CardMatched(db.users[id], db.cards[cid]) then (db, Some(true)) else MatchCard(db, id, cid, matching);
      if !Yes(matched) then db1
      else
        var p := db1.users[id];
        var (db2, named) :=
          if Yes(db1.cards[cid].verified) && !(Yes(p.firstNameVerified) && Yes(p.lastNameVerified))
          then NameFromCard(db1, id, cid, info) else (db1, Some(true));
        if !Yes(named) then db2 else VerifyIfReady(db2, id)
  }

  /** `verify_national_code_with_phone`. */
  function PhoneMatch(db: Db, id: nat, reply: Reply<bool>): (Db, Verdict)
    requires id in db.users
  {
    var p := db.users[id];
    if p.level != 2 || p.nationalCode == "" then (db, Some(false))
    else
      match reply
      case Success(matched) => (Store(db, id, p.(phoneVerified := Some(matched))), Some(matched))
      case InvalidData => (Store(db, id, p.(phoneVerified := Some(false))), Some(false))
      case OtherCode => (db, None)
      case Unavailable => (db, None)
  }

  // ----- basic information -----

  datatype BasicInfo = BasicInfo(
    nationalCode: string, birthDate: int, firstName: string, lastName: string, pan: string, today: int, exhausted: bool)

  /** Ages are counted in days: at least 15 and at most 120 years of 365 days. */
  predicate AgeAccepted(data: BasicInfo) {
    15 * 365 <= data.today - data.birthDate <= 120 * 365
  }

  predicate LiveKyc(cards: Cards, id: nat, c: nat) {
    c in cards && cards[c].owner == id && cards[c].kyc && !cards[c].deleted
  }

  predicate LivePan(cards: Cards, id: nat, pan: string, c: nat) {
    c in cards && cards[c].owner == id && cards[c].pan == pan && !cards[c].deleted
  }

  predicate PanFrozen(cards: Cards, id: nat, pan: string) {
    exists c :: c in cards && LiveKyc(cards, id, c) && Yes(cards[c].verified) && cards[c].pan != pan
  }

  predicate Refused(db: Db, id: nat, data: BasicInfo)
    requires id in db.users
  {
    db.users[id].status in {Pending, Verified} || db.users[id].level > 1 || data.exhausted || !AgeAccepted(data) ||
    PanFrozen(db.cards, id, data.pan)
  }

  function WithoutPan(cards: Cards, id: nat, pan: string): (r: Cards)
    ensures r.Keys == cards.Keys
  {
    map c | c in cards :: if LivePan(cards, id, pan, c) then cards[c].(deleted := true) else cards[c]
  }

  /** What the query for the user's live KYC card returns. */
  predicate KycAnswer(cards: Cards, id: nat, live: Option<nat>) {
    match live
    case Some(c) => LiveKyc(cards, id, c)
    case None => forall c :: c in cards ==> !LiveKyc(cards, id, c)
  }

  /** What the query for the user's live card with the number returns. */
  predicate PanAnswer(cards: Cards, id: nat, pan: string, same: Option<nat>) {
    match same
    case Some(c) => LivePan(cards, id, pan, c)
    case None => forall c :: c in cards ==> !LivePan(cards, id, pan, c)
  }

  /** The card `get_kyc_bank_card` settles on and the table it leaves: the live KYC card with its
      number replaced, or a card with the number made the KYC card, or a new one of id `newId`. */
  function ChooseCard(cards: Cards, id: nat, pan: string, live: Option<nat>, same: Option<nat>, newId: nat): (r: (Cards, nat))
    requires KycAnswer(cards, id, live) && PanAnswer(cards, id, pan, same)
    ensures r.1 in r.0
  {
    if live.Some? then
      if cards[live.value].pan == pan then (cards, live.value)
      else
        (WithoutPan(cards, id, pan)[live.value := cards[live.value].(pan := pan)], live.value)
    else if same.Some? then (cards[same.value := cards[same.value].(kyc := true)], same.value)
    else (cards[newId := Card(id, pan, None, true, false, "", "")], newId)
  }

  /** The submitted data, except where something is verified already. */
  function WithData(p: Profile, data: BasicInfo): Profile {
    WithFields(p, data, Names.Clean(data.firstName), Names.Clean(data.lastName))
  }

  function WithFields(p: Profile, data: BasicInfo, first: string, last: string): Profile {
    var p1 := if Yes(p.codeVerified) then p else p.(nationalCode := data.nationalCode, codeVerified := None);
    var p2 := if Yes(p.firstNameVerified) || data.firstName == "" then p1
              else p1.(firstName := first, firstNameVerified := None);
    var p3 := if Yes(p.lastNameVerified) || data.lastName == "" then p2
              else p2.(lastName := last, lastNameVerified := None);
    if Yes(p.birthDateVerified) then p3 else p3.(birthDate := Some(data.birthDate), birthDateVerified := None)
  }

  /** An accepted submission: card, data, PENDING, and a rejection if the code turns out to be taken. */
  function Submit(db: Db, id: nat, data: BasicInfo, cards: Cards, cid: nat): Db
    requires id in db.users && cid in cards
  {
    var db1 := Db(db.users, if Yes(cards[cid].verified) then cards else cards[cid := cards[cid].(verified := None)]);
    RejectTaken(SetStatus(Store(db1, id, WithData(db.users[id], data)), id, Pending, NoReason), id)
  }

  function RejectTaken(db: Db, id: nat): Db
    requires id in db.users
  {
    if Taken(db.users, id, db.users[id].nationalCode) then
      SetStatus(Store(db, id, db.users[id].(codeVerified := Some(false))), id, Rejected, NationalCodeDuplicated)
    else db
  }

  // ----- full verification and staff verdicts -----

  predicate FullRefused(p: Profile) {
    p.status in {Pending, Verified} || p.level >= 3 || p.level == 1
  }

  function FullVerify(db: Db, id: nat, image: nat): Db
    requires id in db.users
  {
    var p := db.users[id];
    if FullRefused(p) then db
    else if Yes(p.selfieVerified) && Yes(p.phoneVerified) then SetStatus(db, id, Verified, NoReason)
    else
      var db1 := if Yes(p.selfieVerified) then db else Store(db, id, p.(selfie := Some(image), selfieVerified := None));
      SetStatus(db1, id, Pending, NoReason)
  }

  /** What a staff member may write in a user's form, level and status left alone. */
  datatype StaffEdit = StaffEdit(
    nationalCode: string, codeVerified: Verdict, phoneVerified: Verdict, birthDate: Option<int>, birthDateVerified: Verdict,
    firstName: string, firstNameVerified: Verdict, lastName: string, lastNameVerified: Verdict, selfieVerified: Verdict)

  function Edited(p: Profile, e: StaffEdit): Profile {
    Profile(p.level, p.status, p.reason, e.nationalCode, e.codeVerified, e.phoneVerified, e.birthDate, e.birthDateVerified,
            e.firstName, e.firstNameVerified, e.lastName, e.lastNameVerified, p.selfie, e.selfieVerified)
  }

  /** The staff form, stored through `save`. */
  function StaffEdited(db: Db, id: nat, e: StaffEdit): Db
    requires id in db.users
  {
    Store(db, id, Edited(db.users[id], e))
  }

  // ----- the sign-up widget -----

  /** Somebody, whatever their level, holds the code with a true verdict. */
  predicate VerifiedHolder(users: Users, code: string) {
    exists u :: u in users && users[u].nationalCode == code && Yes(users[u].codeVerified)
  }

  /** The widget's word for a user who needs no code any more. */
  predicate WidgetVerified(p: Profile) {
    p.nationalCode != "" && Yes(p.codeVerified)
  }

  /** The widget accepts a code from a known user. */
  predicate Offered(db: Db, id: nat, code: string)
    requires id in db.users
  {
    !WidgetVerified(db.users[id]) && code != "" && !VerifiedHolder(db.users, code)
  }

  function WidgetEdited(db: Db, id: nat, code: string): Db
    requires id in db.users
  {
    if Offered(db, id, code) then Store(db, id, db.users[id].(nationalCode := code)) else db
  }
}
