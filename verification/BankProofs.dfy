/** What bank accounts keep, and what a payout can rely on. */
module BankProofs {
  import opened Wrappers
  import opened Database
  import opened Accounts
  import opened MoneyOps

  predicate BothPrimary(a: BankAccount, b: BankAccount) {
    a.user == b.user && a.primary && b.primary
  }

  predicate SameAccount(a: BankAccount, b: BankAccount) {
    a.user == b.user && a.details == b.details
  }

  /** At most one primary per user, primaries are verified, one row per (user, number, bank code). */
  ghost predicate BanksSound(banks: map<Id, BankAccount>) {
    && (forall b, c :: b in banks && c in banks && BothPrimary(banks[b], banks[c]) ==> b == c)
    && (forall b :: b in banks && banks[b].primary ==> banks[b].verified)
    && (forall b, c :: b in banks && c in banks && SameAccount(banks[b], banks[c]) ==> b == c)
  }

  /** The count runs after the account was marked verified in the same transaction, so it is never 0. */
  lemma CountSeesTheUpdate(banks: map<Id, BankAccount>, u: Id, b: Id)
    requires OwnedBy(banks, u, b)
    ensures VerifiedCount(MarkVerified(banks, b), u) > 0
  {
    var after := MarkVerified(banks, b);
    assert b in VerifiedSet(after, u);
  }

  /** Either nothing is written, with an error, or the account is marked verified. */
  lemma VerifyingMarks(db: Db, u: Id, b: Id, code: int, dbOk: bool, reloadOk: bool)
    ensures var r := VerifyBank(db, u, b, code, dbOk, reloadOk);
            || (r.error.Some? && r.db.banks == db.banks)
            || (b in db.banks && !db.banks[b].verified && r.db.banks == MarkVerified(db.banks, b))
  {
    if OwnedBy(db.banks, u, b) {
      CountSeesTheUpdate(db.banks, u, b);
    }
  }

  /**
   Verifying an account changes no primary flag: the branch that would make the first verified
   account primary is never taken.
   */
  lemma VerifyingMakesNoPrimary(db: Db, u: Id, b: Id, code: int, dbOk: bool, reloadOk: bool)
    ensures var after := VerifyBank(db, u, b, code, dbOk, reloadOk).db.banks;
            && after.Keys == db.banks.Keys
            && (forall x :: x in after ==> after[x].primary == db.banks[x].primary)
            && (after == db.banks || (b in db.banks && after == MarkVerified(db.banks, b)))
            && (VerifyBank(db, u, b, code, dbOk, reloadOk).error.None? ==> after != db.banks)
  {
    VerifyingMarks(db, u, b, code, dbOk, reloadOk);
    if b in db.banks {
      assert MarkVerified(db.banks, b)[b].verified;
    }
  }

  lemma VerifyKeepsBanks(db: Db, u: Id, b: Id, code: int, dbOk: bool, reloadOk: bool)
    requires BanksSound(db.banks)
    ensures BanksSound(VerifyBank(db, u, b, code, dbOk, reloadOk).db.banks)
    ensures forall v :: HasPrimary(db.banks, v) ==> HasPrimary(VerifyBank(db, u, b, code, dbOk, reloadOk).db.banks, v)
  {
    var after := VerifyBank(db, u, b, code, dbOk, reloadOk).db.banks;
    VerifyingMakesNoPrimary(db, u, b, code, dbOk, reloadOk);
    PrimariesKept(db.banks, after);
  }

  /** Every primary is still one. */
  lemma PrimariesKept(banks: map<Id, BankAccount>, after: map<Id, BankAccount>)
    requires forall b :: b in banks && banks[b].primary && banks[b].verified ==>
               b in after && after[b].user == banks[b].user && after[b].primary && after[b].verified
    ensures forall v :: HasPrimary(banks, v) ==> HasPrimary(after, v)
  {
    forall v | HasPrimary(banks, v)
      ensures HasPrimary(after, v)
    {
      var b :| b in banks && banks[b].user == v && banks[b].verified && banks[b].primary;
      assert after[b].primary;
    }
  }

  lemma ReissueKeepsBanks(banks: map<Id, BankAccount>, b: Id, otp: Otp)
    requires BanksSound(banks) && b in banks && !banks[b].verified
    ensures BanksSound(Reissue(banks, b, otp))
    ensures forall v :: HasPrimary(banks, v) ==> HasPrimary(Reissue(banks, b, otp), v)
  {
    PrimariesKept(banks, Reissue(banks, b, otp));
  }

  lemma InsertKeepsBanks(banks: map<Id, BankAccount>, id: Id, a: BankAccount)
    requires BanksSound(banks) && id !in banks && !a.primary
    requires forall b :: OwnedBy(banks, a.user, b) ==> banks[b].details != a.details
    ensures BanksSound(banks[id := a])
    ensures forall v :: HasPrimary(banks, v) ==> HasPrimary(banks[id := a], v)
  {
    forall b | b in banks
      ensures !SameAccount(banks[b], a)
    {
      assert OwnedBy(banks, banks[b].user, b);
    }
    PrimariesKept(banks, banks[id := a]);
  }

  lemma AddKeepsBanks(db: Db, u: Id, d: BankDetails, found: Option<Id>, id: Id, otp: Otp, mailOk: bool)
    requires BanksSound(db.banks) && IsLookup(db.banks, u, d, found)
    ensures BanksSound(AddBank(db, u, d, found, id, otp, mailOk).db.banks)
    ensures forall v :: HasPrimary(db.banks, v) ==> HasPrimary(AddBank(db, u, d, found, id, otp, mailOk).db.banks, v)
  {
    if AddBank(db, u, d, found, id, otp, mailOk).db != db {
      if found.Some? {
        ReissueKeepsBanks(db.banks, found.value, otp);
      } else {
        InsertKeepsBanks(db.banks, id, BankAccount(u, d, false, false, Some(otp), db.clock));
      }
    }
  }

  lemma SetPrimaryKeepsBanks(db: Db, u: Id, b: Id, dbOk: bool)
    requires BanksSound(db.banks)
    ensures BanksSound(SetPrimary(db, u, b, dbOk).db.banks)
    ensures forall v :: HasPrimary(db.banks, v) ==> HasPrimary(SetPrimary(db, u, b, dbOk).db.banks, v)
  {
    var r := SetPrimary(db, u, b, dbOk);
    var after := r.db.banks;
    if r.error.None? {
      assert after[b].primary && after[b].verified && after[b].user == u;
      forall v | HasPrimary(db.banks, v) && v != u
        ensures HasPrimary(after, v)
      {
        var c :| c in db.banks && db.banks[c].user == v && db.banks[c].verified && db.banks[c].primary;
        assert after[c] == db.banks[c];
      }
    }
  }

  lemma DeleteKeepsBanks(db: Db, u: Id, b: Id)
    requires BanksSound(db.banks)
    ensures BanksSound(DeleteBank(db, u, b).db.banks)
    ensures forall v :: HasPrimary(db.banks, v) ==> HasPrimary(DeleteBank(db, u, b).db.banks, v)
  {
    PrimariesKept(db.banks, DeleteBank(db, u, b).db.banks);
  }

  /** Every bank request keeps the rows sound, and no user ever loses the primary account. */
  lemma BankOpsKeepBanks(db: Db, op: BankOp)
    requires BanksSound(db.banks) && AllowedBank(db, op)
    ensures BanksSound(HandleBank(db, op).db.banks)
    ensures forall v :: HasPrimary(db.banks, v) ==> HasPrimary(HandleBank(db, op).db.banks, v)
  {
    match op
    case AddBankAccount(u, d, found, id, otp, mailOk) => AddKeepsBanks(db, u, d, found, id, otp, mailOk);
    case VerifyBankAccount(u, b, code, dbOk, reloadOk) => VerifyKeepsBanks(db, u, b, code, dbOk, reloadOk);
    case SetPrimaryBankAccount(u, b, dbOk) => SetPrimaryKeepsBanks(db, u, b, dbOk);
    case DeleteBankAccount(u, b) => DeleteKeepsBanks(db, u, b);
  }

  // ---------- Choosing the account of a payout ----------

  ghost predicate HasVerified(banks: map<Id, BankAccount>, u: Id) {
    exists b :: VerifiedOf(banks, u, b)
  }

  /**
   Without an account id, the query finds an account exactly when the user has a verified one, and
   finds the primary if there is one.
   */
  lemma ChoiceWithoutId(banks: map<Id, BankAccount>, u: Id, choice: Option<Id>)
    requires BanksSound(banks) && IsChoice(banks, u, None, choice)
    ensures choice.Some? <==> HasVerified(banks, u)
    ensures choice.Some? ==> VerifiedOf(banks, u, choice.value)
    ensures HasPrimary(banks, u) ==> choice.Some? && banks[choice.value].primary
    ensures forall b: Id :: PrimaryOf(banks, u, b) ==> choice == Some(b)
  {
    forall b: Id | PrimaryOf(banks, u, b)
      ensures choice == Some(b)
    {
      assert VerifiedOf(banks, u, b);
      assert BothPrimary(banks[b], banks[choice.value]);
    }
    if HasPrimary(banks, u) {
      var b :| b in banks && banks[b].user == u && banks[b].verified && banks[b].primary;
      assert PrimaryOf(banks, u, b);
    }
  }

  /** The query always has an answer. */
  lemma ChoiceExists(banks: map<Id, BankAccount>, u: Id)
    ensures exists choice :: IsChoice(banks, u, None, choice)
  {
    var verified := VerifiedSet(banks, u);
    if verified == {} {
      assert forall b :: b in banks && VerifiedOf(banks, u, b) ==> b in verified;
      assert IsChoice(banks, u, None, None);
    } else if b :| PrimaryOf(banks, u, b) {
      assert IsChoice(banks, u, None, Some(b));
    } else {
      var b := Newest(banks, verified);
      assert forall c :: VerifiedOf(banks, u, c) ==> c in verified && !PrimaryOf(banks, u, c);
      assert IsChoice(banks, u, None, Some(b));
    }
  }

  lemma {:induction false} Newest(banks: map<Id, BankAccount>, ids: set<Id>) returns (b: Id)
    requires ids != {} && forall x :: x in ids ==> x in banks
    ensures b in ids && forall x :: x in ids ==> banks[x].createdAt <= banks[b].createdAt
    decreases ids
  {
    var a :| a in ids;
    b := a;
    if ids != {a} {
      var c := Newest(banks, ids - {a});
      b := if banks[c].createdAt > banks[a].createdAt then c else a;
      assert forall x :: x in ids ==> x == a || x in ids - {a};
    }
  }
}
