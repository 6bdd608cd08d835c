/** The level machine said in columns: when a save or a change of status raises, rejects or leaves a
    user, and which columns it may touch. */
module KycColumns {
  import opened Options
  import opened Kyc

  // ----- evidence -----

  /** What counts as evidence for level 2, and what as still open, over the two tables. */
  lemma EvidenceInColumns(cards: Cards, id: nat, p: Profile)
    ensures AllEvidence(cards, id, p) <==>
              && p.nationalCode != "" && p.firstName != "" && p.lastName != "" && p.birthDate != None
              && p.birthDateVerified == p.firstNameVerified == p.lastNameVerified == Some(true)
              && exists c :: c in cards && cards[c].owner == id && !cards[c].deleted && cards[c].verified == Some(true)
    ensures SomeUnjudged(cards, id, p) <==>
              || p.birthDateVerified == None || p.firstNameVerified == None || p.lastNameVerified == None
              || ((exists c :: c in cards && cards[c].owner == id && !cards[c].deleted && cards[c].verified == None) &&
                  forall c :: c in cards && cards[c].owner == id && !cards[c].deleted ==> cards[c].verified != Some(true))
  {
    if exists c :: c in cards && cards[c].owner == id && !cards[c].deleted && cards[c].verified == Some(true) {
      assert LiveWith(cards, id, Some(true));
    }
    if exists c :: c in cards && cards[c].owner == id && !cards[c].deleted && cards[c].verified == None {
      assert LiveWith(cards, id, None);
    }
  }

  lemma TakenInColumns(users: Users, id: nat, code: string)
    ensures Taken(users, id, code) <==>
              exists u :: u in users && u != id && users[u].nationalCode == code && users[u].level > 1
  {
    if exists u :: u in users && u != id && users[u].nationalCode == code && users[u].level > 1 {
      var u :| u in users && u != id && users[u].nationalCode == code && users[u].level > 1;
      assert users[u].level >= 2;
    }
  }

  // ----- outcomes -----

  /** Submitted data, names and images, and the verdicts on them other than the code's. */
  predicate SameData(p: Profile, q: Profile) {
    && q.nationalCode == p.nationalCode && q.phoneVerified == p.phoneVerified
    && q.birthDate == p.birthDate && q.birthDateVerified == p.birthDateVerified
    && q.firstName == p.firstName && q.firstNameVerified == p.firstNameVerified
    && q.lastName == p.lastName && q.lastNameVerified == p.lastNameVerified
    && q.selfie == p.selfie && q.selfieVerified == p.selfieVerified
  }

  predicate RaisedFrom(p: Profile, q: Profile) {
    SameData(p, q) && q.level == p.level + 1 && q.status == Init && q.reason == p.reason && q.codeVerified == p.codeVerified
  }

  predicate RefusedAsDuplicate(p: Profile, q: Profile) {
    SameData(p, q) && q.level == p.level && q.status == Rejected && q.reason == NationalCodeDuplicated && q.codeVerified == Some(false)
  }

  predicate RefusedFor(p: Profile, q: Profile, reason: Reason) {
    SameData(p, q) && q.level == p.level && q.status == Rejected && q.reason == reason && q.codeVerified == p.codeVerified
  }

  /** What storing a profile comes to: only pending ones move; at level 1 on complete evidence, up if
      the code is free and refused if it is not, refused when all is judged and something is missing;
      at level 2 up on selfie and phone, refused on a refused selfie. */
  lemma SaveOutcome(db: Db, id: nat, p: Profile)
    ensures var q := Settled(db, id, p); var complete := AllEvidence(db.cards, id, p); var held := Taken(db.users, id, p.nationalCode);
            var approved := p.phoneVerified == Some(true) && p.selfieVerified == Some(true);
            && (p.status == Pending && p.level == 1 && complete && !held ==> RaisedFrom(p, q))
            && (p.status == Pending && p.level == 1 && complete && held ==> RefusedAsDuplicate(p, q))
            && (p.status == Pending && p.level == 1 && !complete && !SomeUnjudged(db.cards, id, p) ==> RefusedFor(p, q, NoReason))
            && (p.status == Pending && p.level == 1 && !complete && SomeUnjudged(db.cards, id, p) ==> q == p)
            && (p.status == Pending && p.level == 2 && approved ==> RaisedFrom(p, q))
            && (p.status == Pending && p.level == 2 && p.selfieVerified == Some(false) ==> RefusedFor(p, q, NoReason))
            && (p.status == Pending && p.level == 2 && p.selfieVerified != Some(false) && !approved ==> q == p)
            && (p.status != Pending || p.level !in {1, 2} ==> q == p)
  {
  }

  /** What a change of status comes to: an approval raises, unless a level-1 user's code is held; a
      refusal writes status and reason; anything else is a save with the new status. */
  lemma StatusOutcome(db: Db, id: nat, p: Profile, status: Status, reason: Reason)
    ensures var q := StatusChanged(db, id, p, status, reason);
            && (status == Verified && p.status != Verified && p.level == 1 && Taken(db.users, id, p.nationalCode) ==> RefusedAsDuplicate(p, q))
            && (status == Verified && p.status != Verified && !(p.level == 1 && Taken(db.users, id, p.nationalCode)) ==> RaisedFrom(p, q))
            && (status == Rejected && p.status != Rejected ==> RefusedFor(p, q, reason))
            && (status in {Init, Pending} || status == p.status ==> q == Settled(db, id, p.(status := status)))
  {
  }

  lemma ReadyOutcome(db: Db, id: nat, p: Profile)
    ensures var q := VerifiedIfReady(db, id, p);
            if p.level == 1 && p.status != Verified && AllEvidence(db.cards, id, p)
            then if Taken(db.users, id, p.nationalCode) then RefusedAsDuplicate(p, q) else RaisedFrom(p, q)
            else q == p
  {
  }

  // ----- columns of a save -----

  /** Writing no column changes nothing, writing all writes the profile, and writing in two goes is
      writing both at once. */
  lemma MergeLaws(row: Profile, p: Profile, a: set<Field>, b: set<Field>)
    ensures Merge(row, p, {}) == row && Merge(row, p, ALL_FIELDS) == p
    ensures Merge(Merge(row, p, a), p, b) == Merge(row, p, a + b)
  {
  }

  /** Each column has its own field. */
  lemma MergeStanding(row: Profile, p: Profile)
    ensures Merge(row, p, {FLevel}) == row.(level := p.level)
    ensures Merge(row, p, {FStatus}) == row.(status := p.status)
    ensures Merge(row, p, {FReason}) == row.(reason := p.reason)
    ensures Merge(row, p, {FNationalCode}) == row.(nationalCode := p.nationalCode)
    ensures Merge(row, p, {FCodeVerified}) == row.(codeVerified := p.codeVerified)
  {
  }

  lemma MergeApprovals(row: Profile, p: Profile)
    ensures Merge(row, p, {FPhoneVerified}) == row.(phoneVerified := p.phoneVerified)
    ensures Merge(row, p, {FSelfie}) == row.(selfie := p.selfie)
    ensures Merge(row, p, {FSelfieVerified}) == row.(selfieVerified := p.selfieVerified)
  {
  }

  lemma MergeData(row: Profile, p: Profile)
    ensures Merge(row, p, {FBirthDate}) == row.(birthDate := p.birthDate)
    ensures Merge(row, p, {FBirthDateVerified}) == row.(birthDateVerified := p.birthDateVerified)
    ensures Merge(row, p, {FFirstName}) == row.(firstName := p.firstName)
    ensures Merge(row, p, {FFirstNameVerified}) == row.(firstNameVerified := p.firstNameVerified)
    ensures Merge(row, p, {FLastName}) == row.(lastName := p.lastName)
    ensures Merge(row, p, {FLastNameVerified}) == row.(lastNameVerified := p.lastNameVerified)
  {
  }
}
