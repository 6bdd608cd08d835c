/** The user object of accounts/models/user.py over its database row. */
module KycUser {
  import opened Options
  import opened Kyc

  class Database {
    var users: Users
    var cards: Cards

    constructor (users: Users, cards: Cards)
      ensures this.users == users && this.cards == cards
    {
      this.users, this.cards := users, cards;
    }

    function Value(): Db
      reads this
    {
      Db(users, cards)
    }
  }

  /** A loaded user. Its fields may run ahead of the row until a `Save` writes them. */
  class User {
    const id: nat
    const db: Database
    var level: nat
    var status: Status
    var reason: Reason
    var nationalCode: string
    var codeVerified: Verdict
    var phoneVerified: Verdict
    var birthDate: Option<int>
    var birthDateVerified: Verdict
    var firstName: string
    var firstNameVerified: Verdict
    var lastName: string
    var lastNameVerified: Verdict
    var selfie: Option<nat>
    var selfieVerified: Verdict

    /** `User.objects.get(id=...)`. */
    constructor Load(db: Database, id: nat)
      requires id in db.users
      ensures this.db == db && this.id == id && Coherent()
    {
      this.db, this.id := db, id;
      var p := db.users[id];
      level, status, reason := p.level, p.status, p.reason;
      nationalCode, codeVerified, phoneVerified := p.nationalCode, p.codeVerified, p.phoneVerified;
      birthDate, birthDateVerified := p.birthDate, p.birthDateVerified;
      firstName, firstNameVerified := p.firstName, p.firstNameVerified;
      lastName, lastNameVerified := p.lastName, p.lastNameVerified;
      selfie, selfieVerified := p.selfie, p.selfieVerified;
    }

    function Self(): Profile
      reads this
    {
      Profile(level, status, reason, nationalCode, codeVerified, phoneVerified, birthDate, birthDateVerified,
              firstName, firstNameVerified, lastName, lastNameVerified, selfie, selfieVerified)
    }

    /** Nothing is left unsaved. */
    ghost predicate Coherent()
      reads this, db
    {
      id in db.users && db.users[id] == Self()
    }

    /** Nothing outside `fields` is left unsaved. */
    ghost predicate Covers(fields: set<Field>)
      reads this, db
    {
      id in db.users && Merge(db.users[id], Self(), fields) == Self()
    }

    /** `save(update_fields=fields)`: write the columns, then let the evidence take effect. */
    method Save(fields: set<Field>)
      requires Covers(fields)
      modifies this, db`users
      ensures Self() == Settled(old(db.Value()), id, old(Self()))
      ensures db.users == old(db.users)[id := Self()]
      decreases if status == Pending then 4 else 0, 0
    {
      db.users := db.users[id := Merge(db.users[id], Self(), fields)];
      if level == 2 && status == Pending {
        SettleLevel2();
      } else if level == 1 && status == Pending {
        SettleLevel1();
      }
      OwnRowIgnored(old(db.users), db.users, id, nationalCode);
    }

    method SettleLevel2()
      requires Coherent() && level == 2 && status == Pending
      modifies this, db`users
      ensures Self() == Settled(old(db.Value()), id, old(Self()))
      ensures db.users == old(db.users)[id := Self()]
      decreases 3, 1
    {
      if Yes(phoneVerified) && Yes(selfieVerified) {
        ChangeStatus(Verified, NoReason);
      } else if No(selfieVerified) {
        ChangeStatus(Rejected, NoReason);
      }
    }

    method SettleLevel1()
      requires Coherent() && level == 1 && status == Pending
      modifies this, db`users
      ensures Self() == Settled(old(db.Value()), id, old(Self()))
      ensures db.users == old(db.users)[id := Self()]
      decreases 3, 1
    {
      var rejected := RejectLevel2IfShould();
      var verified := VerifyLevel2IfNot();
      assert verified ==> !rejected;
      OwnRowIgnored(old(db.users), db.users, id, nationalCode);
    }

    method ChangeStatus(newStatus: Status, newReason: Reason)
      requires Coherent()
      modifies this, db`users
      ensures Self() == StatusChanged(old(db.Value()), id, old(Self()), newStatus, newReason)
      ensures db.users == old(db.users)[id := Self()]
      decreases if newStatus == Pending then 5 else if newStatus == Verified then 2 else 1, 1
    {
      if status != Verified && newStatus == Verified {
        Promote();
      } else if status != Rejected && newStatus == Rejected {
        status := newStatus;
        reason := newReason;
        Save({FStatus, FReason});
      } else {
        status := newStatus;
        Save({FStatus});
      }
    }

    /** The first branch of `change_status`. */
    method Promote()
      requires Coherent() && status != Verified
      modifies this, db`users
      ensures Self() == Promoted(old(db.users), id, old(Self()))
      ensures db.users == old(db.users)[id := Self()]
      decreases 2, 0
    {
      status := Init;
      if level == 1 {
        if Taken(db.users, id, nationalCode) {
          RefuseDuplicate();
          return;
        }
      }
      level := level + 1;
      Save({FStatus, FLevel});
    }

    method RefuseDuplicate()
      requires Covers({FStatus}) && status == Init
      modifies this, db`users
      ensures Self() == old(Self()).(status := Rejected, reason := NationalCodeDuplicated, codeVerified := Some(false))
      ensures db.users == old(db.users)[id := Self()]
      decreases 1, 2
    {
      codeVerified := Some(false);
      Save({FStatus, FCodeVerified});
      ChangeStatus(Rejected, NationalCodeDuplicated);
    }

    method VerifyLevel2IfNot() returns (verified: bool)
      requires Coherent()
      modifies this, db`users
      ensures Self() == VerifiedIfReady(old(db.Value()), id, old(Self()))
      ensures db.users == old(db.users)[id := Self()]
      ensures verified <==> old(level) == 1 && AllEvidence(db.cards, id, old(Self()))
      decreases 3, 0
    {
      var fields := Level2Fields(db.cards, id, Self());
      EvidenceOfFields(db.cards, id, Self());
      if level == 1 && (forall k :: 0 <= k < |fields| ==> Yes(fields[k])) {
        ChangeStatus(Verified, NoReason);
        return true;
      }
      return false;
    }

    method RejectLevel2IfShould() returns (rejected: bool)
      requires Coherent()
      modifies this, db`users
      ensures rejected <==>
                (old(level) == 1 && old(status) == Pending &&
                 !AllEvidence(db.cards, id, old(Self())) && !SomeUnjudged(db.cards, id, old(Self())))
      ensures Self() == if rejected then old(Self()).(status := Rejected, reason := NoReason) else old(Self())
      ensures db.users == old(db.users)[id := Self()]
      decreases 3, 0
    {
      if level == 1 && status == Pending {
        var fields := Level2Fields(db.cards, id, Self());
        EvidenceOfFields(db.cards, id, Self());
        if !(forall k :: 0 <= k < |fields| ==> Yes(fields[k])) && None !in fields {
          ChangeStatus(Rejected, NoReason);
          return true;
        }
      }
      return false;
    }
  }

  /** The duplicate query excludes the user's own row. */
  lemma OwnRowIgnored(users: Users, users': Users, id: nat, code: string)
    requires users' - {id} == users - {id}
    ensures Taken(users', id, code) == Taken(users, id, code)
  {
    assert forall other :: other != id ==> (other in users <==> other in users - {id}) && (other in users' <==> other in users' - {id});
    assert forall other :: other in users && other != id ==> users[other] == (users - {id})[other];
    assert forall other :: other in users' && other != id ==> users'[other] == (users' - {id})[other];
  }

  /** `all(fields)` and `None in fields`, said about the profile. */
  lemma EvidenceOfFields(cards: Cards, id: nat, p: Profile)
    ensures var fields := Level2Fields(cards, id, p);
            ((forall k :: 0 <= k < |fields| ==> Yes(fields[k])) <==> AllEvidence(cards, id, p)) &&
            (None in fields <==> SomeUnjudged(cards, id, p))
  {
    var fields := Level2Fields(cards, id, p);
    assert fields[0] == Some(p.nationalCode != "") && fields[1] == Some(p.birthDate.Some?);
    assert fields[2] == p.birthDateVerified && fields[3] == Some(p.firstName != "");
    assert fields[4] == p.firstNameVerified && fields[5] == Some(p.lastName != "");
    assert fields[6] == p.lastNameVerified && fields[7] == CardEvidence(cards, id);
  }
}
