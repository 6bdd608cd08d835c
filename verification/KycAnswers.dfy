/** What outside answers and forms do to the tables, said over the state before and after, and where
    every true verdict of a run comes from. */
module KycAnswers {
  import opened Options
  import opened Kyc
  import opened KycColumns
  import opened KycUser
  import opened KycFlows
  import opened KycRuns
  import opened KycSafety
  import Names

  // ----- retries -----

  /** The answer that counts is the first one given within the allowed attempts. */
  lemma {:induction false} ResolveFirst<T>(replies: seq<Reply<T>>, retry: nat) returns (k: nat)
    requires |replies| > retry
    ensures k <= retry && Resolve(replies, retry) == replies[k]
    ensures forall j :: 0 <= j < k ==> replies[j].Unavailable?
    ensures replies[k].Unavailable? ==> k == retry
  {
    k := 0;
    if replies[0].Unavailable? && retry > 0 {
      var rest := ResolveFirst(replies[1..], retry - 1);
      k := rest + 1;
    }
  }

  // ----- the card matcher -----

  /** The matcher is asked about a user's card: something is still open, there is a code and a birth
      date, and no other live verified card has the number. */
  predicate Asked(db: Db, id: nat, cid: nat)
    requires id in db.users && cid in db.cards
  {
    var p, card := db.users[id], db.cards[cid];
    && !(p.codeVerified == p.birthDateVerified == card.verified == Some(true))
    && p.nationalCode != "" && p.birthDate != None
    && forall c :: c in db.cards && c != cid && !db.cards[c].deleted && db.cards[c].pan == card.pan ==> db.cards[c].verified != Some(true)
  }

  /** A refusal: the verdict goes to code and birth date, the other one to the card, and the user stays
      at level 1, rejected. */
  predicate Refuted(db: Db, db': Db, id: nat, cid: nat, identity: Verdict, card: Verdict) {
    && id in db.users && id in db'.users && cid in db.cards
    && db'.cards == db.cards[cid := db.cards[cid].(verified := card)]
    && db'.users == db.users[id := db'.users[id]]
    && var q := db'.users[id];
    && q.level == db.users[id].level && q.status == Rejected
    && q.codeVerified == q.birthDateVerified == identity
  }

  /** A match, before its consequence for the level is drawn. */
  predicate Confirms(db: Db, db': Db, id: nat, cid: nat) {
    && id in db.users && id in db'.users && cid in db.cards
    && db'.cards == db.cards[cid := db.cards[cid].(verified := Some(true))]
    && db'.users == db.users[id := db'.users[id]]
    && var p, q := db.users[id], db'.users[id];
    && q.birthDateVerified == Some(true)
    && (q.codeVerified == Some(true) || (q.status == Rejected && q.reason == NationalCodeDuplicated && q.level == 1))
    && (AllEvidence(db'.cards, id, p.(birthDateVerified := Some(true))) && !Taken(db.users, id, p.nationalCode) ==> q.level == 2)
  }

  lemma NoMatchOutcome(db: Db, id: nat, cid: nat, identity: Verdict, card: Verdict)
    requires id in db.users && cid in db.cards && db.users[id].level == 1
    requires !Yes(identity) && (No(identity) || No(card))
    ensures var r := Matched(db, id, cid, identity, card); Refuted(db, r.0, id, cid, identity, card) && r.1 == Some(false)
  {
    var p := db.users[id].(codeVerified := identity, birthDateVerified := identity);
    SaveOutcome(db, id, p);
    var db1 := Store(db, id, p);
    var db2 := SetCard(db1, cid, db1.cards[cid].(verified := card));
    var q := SetStatus(db2, id, Rejected, NoReason).users[id];
    StatusOutcome(db2, id, db1.users[id], Rejected, NoReason);
    assert db.users[id := db1.users[id]][id := q] == db.users[id := q];
  }

  lemma MatchOutcome(db: Db, id: nat, cid: nat)
    requires id in db.users && cid in db.cards && db.users[id].level == 1 && Sound(db.users[id])
    ensures var r := Matched(db, id, cid, Some(true), Some(true)); Confirms(db, r.0, id, cid) && r.1 == Some(true)
  {
    var p := db.users[id].(codeVerified := Some(true), birthDateVerified := Some(true));
    SaveOutcome(db, id, p);
    var db1 := Store(db, id, p);
    var q1 := db1.users[id];
    var db2 := SetCard(db1, cid, db1.cards[cid].(verified := Some(true)));
    var q := VerifyIfReady(db2, id).users[id];
    ReadyOutcome(db2, id, q1);
    TakenOwnRow(db.users, id, q1, p.nationalCode);
    assert db.users[id := q1][id := q] == db.users[id := q];
    assert AllEvidence(db2.cards, id, q1) == AllEvidence(db2.cards, id, p);
  }

  /** What a call of the card verifier leaves, by the matcher's answer. */
  lemma MatchCardOutcome(db: Db, id: nat, cid: nat, reply: Reply<bool>)
    requires id in db.users && cid in db.cards && db.users[id].level == 1 && Sound(db.users[id]) && Asked(db, id, cid)
    ensures var r := MatchCard(db, id, cid, reply);
            match reply
            case Success(true) => Confirms(db, r.0, id, cid) && r.1 == Some(true)
            case Success(false) => Refuted(db, r.0, id, cid, None, Some(false)) && r.1 == Some(false)
            case InvalidData => Refuted(db, r.0, id, cid, Some(false), None) && r.1 == Some(false)
            case _ => r == (db, None)
  {
    match reply {
      case Success(matched) =>
        if matched {
          MatchOutcome(db, id, cid);
        } else {
          NoMatchOutcome(db, id, cid, None, Some(false));
        }
      case InvalidData => NoMatchOutcome(db, id, cid, Some(false), None);
      case _ =>
    }
  }

  /** Without asking: everything was confirmed already, or there is nothing to ask about, or the
      number belongs to another verified card; then this card loses its verdict and the user is
      rejected. */
  lemma NotAskedOutcome(db: Db, id: nat, cid: nat, reply: Reply<bool>)
    requires id in db.users && cid in db.cards && db.users[id].level == 1 && Sound(db.users[id]) && !Asked(db, id, cid)
    ensures var (db', r) := MatchCard(db, id, cid, reply); var p, card := db.users[id], db.cards[cid];
            if p.codeVerified == p.birthDateVerified == card.verified == Some(true) then db' == db && r == Some(true)
            else if p.nationalCode == "" || p.birthDate == None then db' == db && r == Some(false)
            else
              r == Some(false) && id in db'.users && db'.users == db.users[id := db'.users[id]] &&
              db'.cards == (if card.verified == Some(true)
                            then db.cards[cid := card.(verified := Some(false), rejectReason := "duplicated")] else db.cards) &&
              db'.users[id].level == 1 && db'.users[id].status == Rejected && db'.users[id].codeVerified == p.codeVerified
  {
    var p, card := db.users[id], db.cards[cid];
    if !CardMatched(p, card) && p.nationalCode != "" && p.birthDate.Some? {
      assert Duplicated(db.cards, cid);
      var db1 := if Yes(card.verified) then SetCard(db, cid, card.(verified := Some(false), rejectReason := "duplicated")) else db;
      StatusOutcome(db1, id, p, Rejected, NoReason);
      SaveOutcome(db1, id, p.(status := Rejected));
    }
  }

  /** The whole task: it changes the tables as the matcher's answer says and raises nobody without a
      positive one, unless code, birth date and card were all confirmed before. */
  lemma BasicVerifyAnswers(db: Db, id: nat, cid: nat, matching: Reply<bool>, info: Reply<CardInfo>)
    requires id in db.users && FirstKycCard(db.cards, id, Some(cid)) && db.users[id].level == 1 && Sound(db.users[id])
    ensures var db' := BasicVerify(db, id, Some(cid), matching, info); var p := db.users[id];
            && (Asked(db, id, cid) && matching == Success(false) ==> Refuted(db, db', id, cid, None, Some(false)))
            && (Asked(db, id, cid) && matching == InvalidData ==> Refuted(db, db', id, cid, Some(false), None))
            && (Asked(db, id, cid) && (matching.OtherCode? || matching.Unavailable?) ==> db' == db)
            && (id in db'.users && db'.users[id].level > 1 ==>
                  (Asked(db, id, cid) && matching == Success(true)) ||
                  p.codeVerified == p.birthDateVerified == db.cards[cid].verified == Some(true))
  {
    if Asked(db, id, cid) {
      MatchCardOutcome(db, id, cid, matching);
    } else {
      NotAskedOutcome(db, id, cid, matching);
    }
  }

  // ----- the card query -----

  /** A complete name, in two parts, counts as verified; a single word is stored without a verdict. */
  lemma NameOutcome(db: Db, id: nat, cid: nat, owner: string)
    requires id in db.users && cid in db.cards && db.users[id].level == 1 && Sound(db.users[id])
    requires db.cards[cid].kyc && !(db.users[id].firstNameVerified == db.users[id].lastNameVerified == Some(true))
    ensures var (db', r) := NameFromCard(db, id, cid, Success(CardInfo(owner)));
            && id in db'.users && db'.users == db.users[id := db'.users[id]]
            && db'.cards == db.cards[cid := db.cards[cid].(ownerName := owner)]
            && var p, q, name := db.users[id], db'.users[id], Names.Clean(owner);
            if |Names.Words.Split(name)| >= 2 then
              r == Some(true) && q.firstNameVerified == q.lastNameVerified == Some(true) && q.firstName + " " + q.lastName == name
            else
              r == None && q.firstName == name && q.lastName == "" &&
              q.firstNameVerified == p.firstNameVerified && q.lastNameVerified == p.lastNameVerified
  {
    var first, last := Names.FirstName(owner), Names.LastName(owner);
    Names.NameParts(owner);
    NamedOutcome(SetCard(db, cid, db.cards[cid].(ownerName := owner)), id, first, last);
  }

  lemma NamedOutcome(db: Db, id: nat, first: string, last: string)
    requires id in db.users && db.users[id].level == 1 && Sound(db.users[id])
    ensures var (db', r) := Named(db, id, first, last);
            && id in db'.users && db'.users == db.users[id := db'.users[id]] && db'.cards == db.cards
            && var p, q, both := db.users[id], db'.users[id], first != "" && last != "";
            && q.firstName == first && q.lastName == last && r == (if both then Some(true) else None)
            && (both ==> q.firstNameVerified == q.lastNameVerified == Some(true))
            && (!both ==> q.firstNameVerified == p.firstNameVerified && q.lastNameVerified == p.lastNameVerified)
  {
    var p := db.users[id].(firstName := first, lastName := last);
    var p1 := if first != "" && last != "" then p.(firstNameVerified := Some(true), lastNameVerified := Some(true)) else p;
    SaveOutcome(db, id, p1);
    var q1 := Settled(db, id, p1);
    var q2 := VerifiedIfReady(Store(db, id, p1), id, q1);
    ReadyOutcome(Store(db, id, p1), id, q1);
    assert db.users[id := q1][id := q2] == db.users[id := q2];
  }

  /** The other answers of the card query. */
  lemma NoNameOutcome(db: Db, id: nat, cid: nat, reply: Reply<CardInfo>)
    requires id in db.users && cid in db.cards && db.users[id].level == 1 && Sound(db.users[id]) && !reply.Success?
    requires db.cards[cid].kyc && !(db.users[id].firstNameVerified == db.users[id].lastNameVerified == Some(true))
    ensures var (db', r) := NameFromCard(db, id, cid, reply);
            if reply.InvalidData? then
              r == Some(false) && id in db'.users && db'.users[id].level == 1 && db'.users[id].status == Rejected &&
              db'.cards == db.cards[cid := db.cards[cid].(verified := Some(false), rejectReason := "INVALID_DATA")]
            else db' == db && r == None
  {
    if reply.InvalidData? {
      var db1 := SetCard(db, cid, db.cards[cid].(verified := Some(false), rejectReason := "INVALID_DATA"));
      StatusOutcome(db1, id, db.users[id], Rejected, NoReason);
      SaveOutcome(db1, id, db.users[id].(status := Rejected));
    }
  }

  /** Which card the task works on: the user's KYC card of the lowest id, a deleted one too. */
  lemma FirstKycCardInColumns(cards: Cards, id: nat, found: Option<nat>)
    ensures FirstKycCard(cards, id, found) <==>
              match found
              case None => forall c :: c in cards ==> cards[c].owner != id || !cards[c].kyc
              case Some(cid) =>
                cid in cards && cards[cid].owner == id && cards[cid].kyc &&
                forall c :: c in cards && cards[c].owner == id && cards[c].kyc ==> cid <= c
  {
  }

  /** With code, birth date and card confirmed and the names too, all that is left is the promotion;
      without the names, the card query's answer comes first. */
  lemma BasicVerifyRest(db: Db, id: nat, cid: nat, matching: Reply<bool>, info: Reply<CardInfo>)
    requires id in db.users && FirstKycCard(db.cards, id, Some(cid)) && db.users[id].level == 1 && Sound(db.users[id])
    requires db.users[id].codeVerified == db.users[id].birthDateVerified == db.cards[cid].verified == Some(true)
    ensures var db', p := BasicVerify(db, id, Some(cid), matching, info), db.users[id];
            && (p.firstNameVerified == p.lastNameVerified == Some(true) ==> db' == VerifyIfReady(db, id))
            && (!(p.firstNameVerified == p.lastNameVerified == Some(true)) ==>
                  var (named, r) := NameFromCard(db, id, cid, info);
                  id in named.users && db' == if r == Some(true) then VerifyIfReady(named, id) else named)
  {
    NameFromCardLawful(db, id, cid, info);
  }

  /** Above level 1, or without a KYC card, the task does nothing. */
  lemma BasicVerifyIdle(db: Db, id: nat, card: Option<nat>, matching: Reply<bool>, info: Reply<CardInfo>)
    requires id in db.users && FirstKycCard(db.cards, id, card) && (db.users[id].level != 1 || card == None)
    ensures BasicVerify(db, id, card, matching, info) == db
  {
  }

  // ----- the phone matcher -----

  /** At level 2, with a code, the matcher's word becomes the phone's verdict; a positive one raises a
      pending user whose selfie is accepted. Otherwise nothing happens. */
  lemma PhoneOutcome(db: Db, id: nat, reply: Reply<bool>)
    requires id in db.users
    ensures var (db', r) := PhoneMatch(db, id, reply); var p := db.users[id];
            if p.level == 2 && p.nationalCode != "" && (reply.Success? || reply.InvalidData?) then
              var matched := reply == Success(true);
              && r == Some(matched) && db'.cards == db.cards && id in db'.users && db'.users == db.users[id := db'.users[id]]
              && db'.users[id].phoneVerified == Some(matched)
              && (db'.users[id].level == 3 <==> matched && p.status == Pending && p.selfieVerified == Some(true))
            else db' == db && r == (if p.level == 2 && p.nationalCode != "" then None else Some(false))
  {
    SaveOutcome(db, id, db.users[id].(phoneVerified := Some(true)));
    SaveOutcome(db, id, db.users[id].(phoneVerified := Some(false)));
  }
}
