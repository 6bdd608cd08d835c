/** The uniqueness constraints of the bank card table (financial/models/bank_card.py) and what
    choosing, verifying and renaming cards does to them. */
module KycCards {
  import opened Options
  import opened Kyc
  import opened KycFlows

  /** Two rows meet the constraints unless both are live and: both are the KYC card of one user
      (`bank_card_unique_kyc_user`), or one user's with one number (`unique_bank_card_card_pan`), or
      both verified with one number (`unique_bank_card_verified_card_pan`). */
  predicate Apart(a: Card, b: Card) {
    || a.deleted || b.deleted
    || (!(a.kyc && b.kyc && a.owner == b.owner) && !(a.pan == b.pan && a.owner == b.owner) &&
        !(Yes(a.verified) && Yes(b.verified) && a.pan == b.pan))
  }

  ghost predicate Constrained(cards: Cards) {
    forall c, d :: c in cards && d in cards && c != d ==> Apart(cards[c], cards[d])
  }

  /** The three constraints as the table declares them, over live cards: one KYC card per user, one card
      per user and number, one verified card per number. */
  lemma ConstrainedInColumns(cards: Cards)
    ensures Constrained(cards) <==>
              forall c, d :: c in cards && d in cards && c != d && !cards[c].deleted && !cards[d].deleted ==>
                && (cards[c].kyc && cards[d].kyc ==> cards[c].owner != cards[d].owner)
                && (cards[c].pan == cards[d].pan ==> cards[c].owner != cards[d].owner)
                && (cards[c].verified == cards[d].verified == Some(true) ==> cards[c].pan != cards[d].pan)
  {
    if Constrained(cards) {
      forall c, d | c in cards && d in cards && c != d && !cards[c].deleted && !cards[d].deleted
        ensures (cards[c].kyc && cards[d].kyc ==> cards[c].owner != cards[d].owner) &&
                (cards[c].pan == cards[d].pan ==> cards[c].owner != cards[d].owner) &&
                (cards[c].verified == cards[d].verified == Some(true) ==> cards[c].pan != cards[d].pan)
      {
        assert Apart(cards[c], cards[d]);
      }
    }
  }

  lemma PutKeeps(cards: Cards, cid: nat, card: Card)
    requires Constrained(cards) && forall c :: c in cards && c != cid ==> Apart(card, cards[c])
    ensures Constrained(cards[cid := card])
  {
    var cards' := cards[cid := card];
    forall c, d | c in cards' && d in cards' && c != d
      ensures Apart(cards'[c], cards'[d])
    {
      if c == cid {
        assert Apart(card, cards[d]);
      } else if d == cid {
        assert Apart(card, cards[c]);
      }
    }
  }

  // ----- choosing the KYC card -----

  /** What the form's card step leaves: `cid` is the user's one live KYC card and one live card with
      the number; a verified verdict was given to that very number; other users' cards and the user's
      other numbers stay as they are, and other live cards with the number are deleted. */
  ghost predicate Chosen(cards: Cards, cards': Cards, id: nat, pan: string, cid: nat) {
    && cid in cards' && cards'[cid].owner == id && cards'[cid].pan == pan && cards'[cid].kyc && !cards'[cid].deleted
    && (forall c :: c in cards' && c != cid && cards'[c].owner == id && !cards'[c].deleted ==> !cards'[c].kyc && cards'[c].pan != pan)
    && (cid in cards ==> cards[cid].owner == id && cards'[cid].verified == cards[cid].verified)
    && (cid !in cards ==> cards'[cid].verified == None)
    && (cards'[cid].verified == Some(true) ==> cid in cards && cards[cid].pan == pan && !cards[cid].deleted)
    && (forall c :: c in cards' <==> c in cards || c == cid)
    && (forall c :: c in cards && c != cid ==>
          cards'[c] == if cards[c].owner == id && cards[c].pan == pan then cards[c].(deleted := true) else cards[c])
  }

  /** Choosing a card cannot run into the constraints, and chooses what it should, unless the
      number differs from that of a verified KYC card. */
  lemma ChooseCardKeeps(cards: Cards, id: nat, pan: string, live: Option<nat>, same: Option<nat>, newId: nat)
    requires Constrained(cards) && newId !in cards && !PanFrozen(cards, id, pan)
    requires KycAnswer(cards, id, live) && PanAnswer(cards, id, pan, same)
    ensures var r := ChooseCard(cards, id, pan, live, same, newId);
            Chosen(cards, r.0, id, pan, r.1) && Constrained(r.0)
  {
    var r := ChooseCard(cards, id, pan, live, same, newId);
    if live.Some? {
      LiveChosen(cards, id, pan, live.value, r.0);
    } else if same.Some? {
      SameChosen(cards, id, pan, same.value, r.0);
    } else {
      NewChosen(cards, id, pan, newId, r.0);
    }
  }

  lemma LiveChosen(cards: Cards, id: nat, pan: string, cid: nat, cards': Cards)
    requires Constrained(cards) && LiveKyc(cards, id, cid) && !PanFrozen(cards, id, pan)
    requires cards' == if cards[cid].pan == pan then cards
                       else WithoutPan(cards, id, pan)[cid := cards[cid].(pan := pan)]
    ensures Chosen(cards, cards', id, pan, cid) && Constrained(cards')
  {
    if cards[cid].pan != pan {
      assert !Yes(cards[cid].verified);
      var cleared := WithoutPan(cards, id, pan);
      ClearedKeeps(cards, id, pan, cleared);
      RenamedChosen(cards, cleared, id, pan, cid);
      RenamedKeeps(cleared, id, pan, cid);
    }
  }

  /** Deleting the user's live cards with a number. */
  lemma ClearedKeeps(cards: Cards, id: nat, pan: string, cleared: Cards)
    requires Constrained(cards) && cleared == WithoutPan(cards, id, pan)
    ensures Constrained(cleared) && forall c :: !LivePan(cleared, id, pan, c)
  {
    forall c, d | c in cleared && d in cleared && c != d
      ensures Apart(cleared[c], cleared[d])
    {
      assert Apart(cards[c], cards[d]);
    }
  }

  lemma RenamedChosen(cards: Cards, cleared: Cards, id: nat, pan: string, cid: nat)
    requires Constrained(cards) && LiveKyc(cards, id, cid) && cards[cid].pan != pan && !Yes(cards[cid].verified)
    requires cleared == WithoutPan(cards, id, pan)
    ensures Chosen(cards, cleared[cid := cards[cid].(pan := pan)], id, pan, cid)
    ensures cleared[cid] == cards[cid] && LiveKyc(cleared, id, cid)
  {
    var cards' := cleared[cid := cards[cid].(pan := pan)];
    forall c | c in cards && c != cid
      ensures !LiveKyc(cards', id, c)
    {
      assert Apart(cards[c], cards[cid]);
    }
  }

  /** Giving a card that is not verified a number its owner has no live card with. */
  lemma RenamedKeeps(cards: Cards, id: nat, pan: string, cid: nat)
    requires Constrained(cards) && LiveKyc(cards, id, cid) && !Yes(cards[cid].verified)
    requires forall c :: !LivePan(cards, id, pan, c)
    ensures Constrained(cards[cid := cards[cid].(pan := pan)])
  {
    forall c | c in cards && c != cid
      ensures Apart(cards[cid].(pan := pan), cards[c])
    {
      assert Apart(cards[cid], cards[c]) && !LivePan(cards, id, pan, c);
    }
    PutKeeps(cards, cid, cards[cid].(pan := pan));
  }

  lemma SameChosen(cards: Cards, id: nat, pan: string, cid: nat, cards': Cards)
    requires Constrained(cards) && LivePan(cards, id, pan, cid) && KycAnswer(cards, id, None)
    requires cards' == cards[cid := cards[cid].(kyc := true)]
    ensures Chosen(cards, cards', id, pan, cid) && Constrained(cards')
  {
    forall c | c in cards && c != cid
      ensures Apart(cards[cid].(kyc := true), cards[c]) && !LivePan(cards, id, pan, c)
    {
      assert Apart(cards[cid], cards[c]) && !LiveKyc(cards, id, c);
    }
    PutKeeps(cards, cid, cards[cid].(kyc := true));
  }

  lemma NewChosen(cards: Cards, id: nat, pan: string, cid: nat, cards': Cards)
    requires Constrained(cards) && cid !in cards && KycAnswer(cards, id, None) && PanAnswer(cards, id, pan, None)
    requires cards' == cards[cid := Card(id, pan, None, true, false, "", "")]
    ensures Chosen(cards, cards', id, pan, cid) && Constrained(cards')
  {
    var card := Card(id, pan, None, true, false, "", "");
    forall c | c in cards
      ensures Apart(card, cards[c])
    {
      assert !LiveKyc(cards, id, c) && !LivePan(cards, id, pan, c);
    }
    PutKeeps(cards, cid, card);
  }

  // ----- verdicts -----

  /** A verdict, a name or a reason; a card verified here has no verified twin. */
  lemma VerdictKeeps(cards: Cards, cid: nat, card: Card)
    requires Constrained(cards) && cid in cards
    requires card.owner == cards[cid].owner && card.pan == cards[cid].pan
    requires card.kyc == cards[cid].kyc && card.deleted == cards[cid].deleted
    requires Yes(card.verified) ==> Yes(cards[cid].verified) || !Duplicated(cards, cid)
    ensures Constrained(cards[cid := card])
  {
    forall c | c in cards && c != cid
      ensures Apart(card, cards[c])
    {
      assert Apart(cards[cid], cards[c]);
    }
    PutKeeps(cards, cid, card);
  }

  lemma MatchCardKeeps(db: Db, id: nat, cid: nat, reply: Reply<bool>)
    requires id in db.users && cid in db.cards && Constrained(db.cards)
    ensures cid in MatchCard(db, id, cid, reply).0.cards && Constrained(MatchCard(db, id, cid, reply).0.cards)
  {
    var card := db.cards[cid];
    VerdictKeeps(db.cards, cid, card.(verified := Some(false), rejectReason := "duplicated"));
    VerdictKeeps(db.cards, cid, card.(verified := Some(false)));
    VerdictKeeps(db.cards, cid, card.(verified := None));
    if !Duplicated(db.cards, cid) {
      VerdictKeeps(db.cards, cid, card.(verified := Some(true)));
    }
  }

  lemma NameFromCardKeeps(db: Db, id: nat, cid: nat, reply: Reply<CardInfo>)
    requires id in db.users && cid in db.cards && Constrained(db.cards)
    ensures Constrained(NameFromCard(db, id, cid, reply).0.cards)
  {
    var card := db.cards[cid];
    VerdictKeeps(db.cards, cid, card.(verified := Some(false), rejectReason := "INVALID_DATA"));
    if reply.Success? {
      VerdictKeeps(db.cards, cid, card.(ownerName := reply.data.ownerName));
    }
  }

  lemma BasicVerifyKeeps(db: Db, id: nat, card: Option<nat>, matching: Reply<bool>, info: Reply<CardInfo>)
    requires id in db.users && FirstKycCard(db.cards, id, card) && Constrained(db.cards)
    ensures Constrained(BasicVerify(db, id, card, matching, info).cards)
  {
    if db.users[id].level == 1 && card.Some? {
      var cid := card.value;
      MatchCardKeeps(db, id, cid, matching);
      if CardMatched(db.users[id], db.cards[cid]) {
        NameFromCardKeeps(db, id, cid, info);
      } else {
        NameFromCardKeeps(MatchCard(db, id, cid, matching).0, id, cid, info);
      }
    }
  }

  lemma SubmitKeeps(db: Db, id: nat, data: BasicInfo, cards: Cards, cid: nat)
    requires id in db.users && cid in cards && Constrained(cards)
    ensures Constrained(Submit(db, id, data, cards, cid).cards)
  {
    VerdictKeeps(cards, cid, cards[cid].(verified := None));
  }
}
