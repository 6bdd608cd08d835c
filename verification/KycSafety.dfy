/** Theorems about every run of the verification machine. */
module KycSafety {
  import opened Options
  import opened Kyc
  import opened KycFlows
  import opened KycCards
  import opened KycRuns

  // ----- every step -----

  lemma DataKeepsStanding(p: Profile, data: BasicInfo, first: string, last: string)
    ensures WithFields(p, data, first, last).level == p.level && WithFields(p, data, first, last).status == p.status
  {
  }

  lemma SubmitLawful(db: Db, id: nat, data: BasicInfo, cards: Cards, cid: nat)
    requires id in db.users && cid in cards && Sound(db.users[id])
    requires db.users[id].level == 1 && db.users[id].status != Pending
    ensures Lawful(db, Submit(db, id, data, cards, cid), id)
  {
    var first, last := Names.Clean(data.firstName), Names.Clean(data.lastName);
    var p := WithFields(db.users[id], data, first, last);
    var cards1 := if Yes(cards[cid].verified) then cards else cards[cid := cards[cid].(verified := None)];
    DataKeepsStanding(db.users[id], data, first, last);
    CardsLawful(db, id, cards1);
    SubmitParts(db, Db(db.users, cards1), id, p);
  }

  lemma SubmitParts(db: Db, db1: Db, id: nat, p: Profile)
    requires Lawful(db, db1, id) && db1.users == db.users && Sound(db.users[id])
    requires db.users[id].level == p.level == 1 && p.status == db.users[id].status != Pending
    ensures Lawful(db, RejectTaken(SetStatus(Store(db1, id, p), id, Pending, NoReason), id), id)
  {
    var db2 := Store(db1, id, p);
    var db3 := SetStatus(db2, id, Pending, NoReason);
    StoreLawful(db1, id, p);
    LawfulCompose(db, db1, db2, id);
    StatusLawful(db2, id, Pending, NoReason);
    LawfulCompose(db, db2, db3, id);
    if db3.users[id].level == 1 && Taken(db3.users, id, db3.users[id].nationalCode) {
      var q := db3.users[id].(codeVerified := Some(false));
      var db4 := Store(db3, id, q);
      StoreLawful(db3, id, q);
      assert db4.users[id].level == 1;
      LawfulCompose(db, db3, db4, id);
      StatusLawful(db4, id, Rejected, NationalCodeDuplicated);
      LawfulCompose(db, db4, SetStatus(db4, id, Rejected, NationalCodeDuplicated), id);
    }
  }

  lemma FullVerifyLawful(db: Db, id: nat, image: nat)
    requires id in db.users && Sound(db.users[id])
    ensures Lawful(db, FullVerify(db, id, image), id)
  {
    var p := db.users[id];
    NothingLawful(db, id);
    if FullRefused(p) {
    } else if Yes(p.selfieVerified) && Yes(p.phoneVerified) {
      StatusLawful(db, id, Verified, NoReason);
    } else {
      var p1 := p.(selfie := Some(image), selfieVerified := None);
      StoreLawful(db, id, p1);
      var db1 := if Yes(p.selfieVerified) then db else Store(db, id, p1);
      StatusLawful(db1, id, Pending, NoReason);
      LawfulCompose(db, db1, SetStatus(db1, id, Pending, NoReason), id);
    }
  }

  lemma PutBackLawful(db: Db, id: nat)
    requires id in db.users && Sound(db.users[id])
    ensures Lawful(db, PutBack(db, id), id)
  {
    NothingLawful(db, id);
    StoreLawful(db, id, db.users[id]);
    var db1 := Store(db, id, db.users[id]);
    if db1.users[id].level == 1 {
      StatusLawful(db1, id, Pending, NoReason);
      LawfulCompose(db, db1, SetStatus(db1, id, Pending, NoReason), id);
    }
  }

  lemma TurnedDownLawful(db: Db, id: nat)
    requires id in db.users && Sound(db.users[id])
    ensures Lawful(db, TurnedDown(db, id), id)
  {
    NothingLawful(db, id);
    StatusLawful(db, id, Rejected, NoReason);
  }

  lemma PhoneMatchLawful(db: Db, id: nat, phone: Reply<bool>)
    requires id in db.users && Sound(db.users[id])
    ensures Lawful(db, PhoneMatch(db, id, phone).0, id)
  {
    NothingLawful(db, id);
    StoreLawful(db, id, db.users[id].(phoneVerified := Some(true)));
    StoreLawful(db, id, db.users[id].(phoneVerified := Some(false)));
  }

  ghost predicate AllSound(users: Users) {
    forall id :: id in users ==> Sound(users[id])
  }

  /** Whom a step is about; a sign-up and the card table have no such user. */
  function Subject(s: Step): Option<nat> {
    if s.SignUp? || s.CardsChange? then None else Some(s.id)
  }

  /** The two forms that write a national code whatever the level. */
  predicate WritesCode(s: Step) {
    s.StaffForm? || s.WidgetForm?
  }

  lemma CodeWriteOrderly(db: Db, s: Step)
    requires WritesCode(s) && Applies(db, s) && AllSound(db.users)
    ensures Orderly(db, Apply(db, s), s.id)
  {
    match s
    case StaffForm(id, edit) => StoreOrderly(db, id, Edited(db.users[id], edit));
    case WidgetForm(id, code) =>
      NothingLawful(db, id);
      StoreOrderly(db, id, db.users[id].(nationalCode := code));
  }

  lemma BasicFormLawful(db: Db, id: nat, data: BasicInfo, live: Option<nat>, same: Option<nat>, newId: nat)
    requires Applies(db, BasicForm(id, data, live, same, newId)) && Sound(db.users[id])
    ensures Lawful(db, Apply(db, BasicForm(id, data, live, same, newId)), id)
  {
    NothingLawful(db, id);
    if !Refused(db, id, data) {
      var r := ChooseCard(db.cards, id, data.pan, live, same, newId);
      SubmitLawful(db, id, data, r.0, r.1);
    }
  }

  /** Every other step about a user is lawful. */
  lemma StepLawful(db: Db, s: Step)
    requires Applies(db, s) && AllSound(db.users) && Subject(s).Some? && !WritesCode(s)
    ensures Lawful(db, Apply(db, s), s.id)
  {
    match s
    case BasicTask(id, card, matching, info) => BasicVerifyLawful(db, id, card, matching, info);
    case PhoneTask(id, phone) => PhoneMatchLawful(db, id, phone);
    case BasicForm(id, data, live, same, newId) => BasicFormLawful(db, id, data, live, same, newId);
    case FullForm(id, image) => FullVerifyLawful(db, id, image);
    case PhoneChange(id) => PutBackLawful(db, id);
    case PaymentRedirect(id) => StoreLawful(db, id, db.users[id].(codeVerified := Some(true)));
    case PlainSave(id) => StoreLawful(db, id, db.users[id]);
    case Recheck(id) => ReadyLawful(db, id);
    case TurnDown(id) => TurnedDownLawful(db, id);
  }

  /** Every step raises its user by at most one level, on that level's evidence, and touches nobody else. */
  lemma StepOrderly(db: Db, s: Step)
    requires Applies(db, s) && AllSound(db.users)
    ensures Subject(s).Some? ==> Orderly(db, Apply(db, s), s.id)
    ensures AllSound(Apply(db, s).users)
  {
    if Subject(s).Some? {
      if WritesCode(s) {
        CodeWriteOrderly(db, s);
      } else {
        StepLawful(db, s);
      }
      OrderlyKeepsSound(db, Apply(db, s), s.id);
    }
  }

  lemma OrderlyKeepsSound(db: Db, db': Db, id: nat)
    requires AllSound(db.users) && Orderly(db, db', id)
    ensures AllSound(db'.users)
  {
  }

  // ----- unique codes, step by step -----

  /** No two users of level 2 or more share a national code. */
  ghost predicate UniqueCodes(users: Users) {
    forall i, j :: i in users && j in users && i != j && users[i].level >= 2 && users[j].level >= 2 ==>
      users[i].nationalCode != users[j].nationalCode
  }

  ghost predicate RunInv(db: Db) {
    AllSound(db.users) && UniqueCodes(db.users)
  }

  /** A step leaves codes unique exactly when its user's code, from level 2 on, is nobody else's. */
  lemma OrderlyUniqueness(db: Db, db': Db, id: nat)
    requires UniqueCodes(db.users) && Orderly(db, db', id)
    ensures var q := db'.users[id];
            UniqueCodes(db'.users) <==> q.level < 2 || !Taken(db.users, id, q.nationalCode)
  {
    var users, q := db'.users, db'.users[id];
    assert forall other :: other != id && other in db.users ==> other in users && users[other] == db.users[other];
    if q.level >= 2 && Taken(db.users, id, q.nationalCode) {
      var other :| other in db.users && other != id && db.users[other].level >= 2 && db.users[other].nationalCode == q.nationalCode;
      assert users[other].nationalCode == q.nationalCode;
    }
  }

  lemma OwnCodeFree(users: Users, id: nat)
    requires UniqueCodes(users) && id in users && users[id].level >= 2
    ensures !Taken(users, id, users[id].nationalCode)
  {
  }

  lemma LawfulKeepsUnique(db: Db, db': Db, id: nat)
    requires RunInv(db) && Lawful(db, db', id)
    ensures UniqueCodes(db'.users)
  {
    OrderlyUniqueness(db, db', id);
    TakenOwnRow(db.users, id, db'.users[id], db'.users[id].nationalCode);
    if db.users[id].level >= 2 {
      OwnCodeFree(db.users, id);
    }
  }

  /** Storing a new code keeps codes unique exactly at level 1 or when nobody verified holds it. */
  lemma CodeStoreUniqueness(db: Db, id: nat, p: Profile)
    requires RunInv(db) && id in db.users && p.status == db.users[id].status && p.level == db.users[id].level
    ensures UniqueCodes(Store(db, id, p).users) <==> p.level == 1 || !Taken(db.users, id, p.nationalCode)
  {
    var db' := Store(db, id, p);
    StoreOrderly(db, id, p);
    OrderlyUniqueness(db, db', id);
    TakenOwnRow(db.users, id, db'.users[id], p.nationalCode);
  }

  /** The sign-up widget's edit keeps codes unique exactly when it is not offered, or the user is
      still at level 1, or nobody of level 2 or more holds the code. */
  lemma WidgetEditUniqueness(db: Db, id: nat, code: string)
    requires RunInv(db) && id in db.users
    ensures UniqueCodes(WidgetEdited(db, id, code).users) <==>
            !Offered(db, id, code) || db.users[id].level == 1 || !Taken(db.users, id, code)
  {
    CodeStoreUniqueness(db, id, db.users[id].(nationalCode := code));
  }

  /** The two forms that write codes check verdicts or nothing where they should check levels. */
  predicate Harmless(db: Db, s: Step)
    requires Applies(db, s)
  {
    match s
    case WidgetForm(id, code) => !Offered(db, id, code) || db.users[id].level == 1 || !Taken(db.users, id, code)
    case StaffForm(id, edit) => db.users[id].level == 1 || !Taken(db.users, id, edit.nationalCode)
    case _ => true
  }

  lemma StepUniqueness(db: Db, s: Step)
    requires Applies(db, s) && RunInv(db)
    ensures UniqueCodes(Apply(db, s).users) <==> Harmless(db, s)
  {
    if s.WidgetForm? {
      WidgetEditUniqueness(db, s.id, s.code);
    } else if s.StaffForm? {
      CodeStoreUniqueness(db, s.id, Edited(db.users[s.id], s.edit));
    } else if Subject(s).Some? {
      StepLawful(db, s);
      LawfulKeepsUnique(db, Apply(db, s), s.id);
    }
  }

  // ----- every run -----

  /** A run; steps that do not apply where they stand do nothing. */
  function Replay(db: Db, steps: seq<Step>): Db {
    if steps == [] then db
    else
      var before := Replay(db, steps[..|steps| - 1]);
      if Applies(before, steps[|steps| - 1]) then Apply(before, steps[|steps| - 1]) else before
  }

  lemma PrefixStep(db: Db, steps: seq<Step>, k: nat)
    requires k < |steps|
    ensures var before := Replay(db, steps[..k]);
            Replay(db, steps[..k + 1]) == if Applies(before, steps[k]) then Apply(before, steps[k]) else before
  {
    assert steps[..k + 1][..k] == steps[..k];
  }

  lemma {:induction false} RunSound(db: Db, steps: seq<Step>)
    requires AllSound(db.users)
    ensures AllSound(Replay(db, steps).users)
  {
    if steps != [] {
      var n := |steps| - 1;
      RunSound(db, steps[..n]);
      var before := Replay(db, steps[..n]);
      if Applies(before, steps[n]) {
        StepOrderly(before, steps[n]);
      }
    }
  }

  /** Step `k` of the run does no harm where it stands. */
  ghost predicate HarmlessAt(db: Db, steps: seq<Step>, k: nat)
    requires k < |steps|
  {
    var before := Replay(db, steps[..k]);
    Applies(before, steps[k]) ==> Harmless(before, steps[k])
  }

  lemma UniqueNext(db: Db, steps: seq<Step>, k: nat)
    requires AllSound(db.users) && k < |steps| && UniqueCodes(Replay(db, steps[..k]).users)
    ensures UniqueCodes(Replay(db, steps[..k + 1]).users) <==> HarmlessAt(db, steps, k)
  {
    var before := Replay(db, steps[..k]);
    PrefixStep(db, steps, k);
    RunSound(db, steps[..k]);
    if Applies(before, steps[k]) {
      StepUniqueness(before, steps[k]);
    }
  }

  lemma {:induction false} HarmlessPrefix(db: Db, steps: seq<Step>, k: nat)
    requires RunInv(db) && k <= |steps| && forall j: nat :: j < |steps| ==> HarmlessAt(db, steps, j)
    ensures UniqueCodes(Replay(db, steps[..k]).users)
  {
    if k > 0 {
      HarmlessPrefix(db, steps, k - 1);
      UniqueNext(db, steps, k - 1);
    }
  }

  /** Over a run codes are unique among verified users all the way exactly when no step writes a
      code where it does harm. */
  lemma CodesStayUnique(db: Db, steps: seq<Step>)
    requires RunInv(db)
    ensures (forall k: nat :: k <= |steps| ==> UniqueCodes(Replay(db, steps[..k]).users)) <==>
            (forall k: nat :: k < |steps| ==> HarmlessAt(db, steps, k))
  {
    if forall k: nat :: k < |steps| ==> HarmlessAt(db, steps, k) {
      forall k: nat | k <= |steps|
        ensures UniqueCodes(Replay(db, steps[..k]).users)
      {
        HarmlessPrefix(db, steps, k);
      }
    }
    if forall k: nat :: k <= |steps| ==> UniqueCodes(Replay(db, steps[..k]).users) {
      forall k: nat | k < |steps|
        ensures HarmlessAt(db, steps, k)
      {
        UniqueNext(db, steps, k);
      }
    }
  }

  /** So they stay unique over every run in which staff and widget write no code. */
  lemma UniqueWithoutCodeEdits(db: Db, steps: seq<Step>)
    requires RunInv(db) && forall k :: 0 <= k < |steps| ==> !WritesCode(steps[k])
    ensures UniqueCodes(Replay(db, steps).users)
  {
    HarmlessPrefix(db, steps, |steps|);
    assert steps[..|steps|] == steps;
  }

  // ----- levels over every run -----

  lemma StepLevels(db: Db, s: Step, id: nat)
    requires Applies(db, s) && AllSound(db.users) && id in db.users
    ensures id in Apply(db, s).users
    ensures db.users[id].level <= Apply(db, s).users[id].level <= db.users[id].level + 1
  {
    StepOrderly(db, s);
  }

  /** Nobody's level ever falls and nobody disappears. */
  lemma {:induction false} LevelsNeverFall(db: Db, steps: seq<Step>, k: nat, id: nat)
    requires AllSound(db.users) && k <= |steps| && id in Replay(db, steps[..k]).users
    ensures id in Replay(db, steps).users
    ensures Replay(db, steps[..k]).users[id].level <= Replay(db, steps).users[id].level
  {
    var n := |steps| - 1;
    if k == |steps| {
      assert steps[..k] == steps;
    } else {
      assert steps[..n][..k] == steps[..k];
      LevelsNeverFall(db, steps[..n], k, id);
      RunSound(db, steps[..n]);
      var before := Replay(db, steps[..n]);
      if Applies(before, steps[n]) {
        StepLevels(before, steps[n], id);
      }
    }
  }

  /** The level of a user, 0 before there is one. */
  function LevelOf(db: Db, id: nat): nat {
    if id in db.users then db.users[id].level else 0
  }

  /** Whoever is found at level 2 or 3 was raised there by one step of the run: to level 2 with all
      level-2 evidence true and the code free, to level 3 from level 2 with selfie and phone both true. */
  lemma {:induction false} LevelsAreEarned(db: Db, steps: seq<Step>, id: nat, level: nat) returns (k: nat)
    requires AllSound(db.users) && 2 <= level <= 3
    requires LevelOf(db, id) < level <= LevelOf(Replay(db, steps), id)
    ensures k < |steps| && id in Replay(db, steps[..k]).users && id in Replay(db, steps[..k + 1]).users
    ensures Replay(db, steps[..k]).users[id].level == level - 1
    ensures Replay(db, steps[..k + 1]).users[id].level == level
    ensures var after := Replay(db, steps[..k + 1]); var p := after.users[id];
            if level == 2 then AllEvidence(after.cards, id, p) && !Taken(after.users, id, p.nationalCode)
            else Yes(p.phoneVerified) && Yes(p.selfieVerified)
  {
    var n := |steps| - 1;
    var before := Replay(db, steps[..n]);
    RunSound(db, steps[..n]);
    if level <= LevelOf(before, id) {
      k := LevelsAreEarned(db, steps[..n], id, level);
      assert steps[..n][..k] == steps[..k] && steps[..n][..k + 1] == steps[..k + 1];
    } else {
      k := n;
      assert steps[..n + 1] == steps;
      StepEarns(before, steps[n], id, level);
    }
  }

  lemma StepEarns(db: Db, s: Step, id: nat, level: nat)
    requires Applies(db, s) && AllSound(db.users) && 2 <= level <= 3
    requires LevelOf(db, id) < level <= LevelOf(Apply(db, s), id)
    ensures id in db.users && id in Apply(db, s).users
    ensures db.users[id].level == level - 1 && Apply(db, s).users[id].level == level
    ensures var after := Apply(db, s); var p := after.users[id];
            if level == 2 then AllEvidence(after.cards, id, p) && !Taken(after.users, id, p.nationalCode)
            else Yes(p.phoneVerified) && Yes(p.selfieVerified)
  {
    StepOrderly(db, s);
  }

  // ----- the card table -----

  /** Every step but an outside change keeps the card table within its constraints. */
  lemma StepKeepsCards(db: Db, s: Step)
    requires Applies(db, s) && !s.CardsChange? && Constrained(db.cards)
    ensures Constrained(Apply(db, s).cards)
  {
    match s
    case BasicTask(id, card, matching, info) => BasicVerifyKeeps(db, id, card, matching, info);
    case BasicForm(id, data, live, same, newId) =>
      if !Refused(db, id, data) {
        var r := ChooseCard(db.cards, id, data.pan, live, same, newId);
        ChooseCardKeeps(db.cards, id, data.pan, live, same, newId);
        SubmitKeeps(db, id, data, r.0, r.1);
      }
    case _ =>
  }

  lemma {:induction false} CardsStayConstrained(db: Db, steps: seq<Step>)
    requires Constrained(db.cards)
    requires forall k :: 0 <= k < |steps| && steps[k].CardsChange? ==> Constrained(steps[k].cards)
    ensures Constrained(Replay(db, steps).cards)
  {
    if steps != [] {
      var n := |steps| - 1;
      CardsStayConstrained(db, steps[..n]);
      var before := Replay(db, steps[..n]);
      if Applies(before, steps[n]) && !steps[n].CardsChange? {
        StepKeepsCards(before, steps[n]);
      }
    }
  }
}
