/** What the requests on bank accounts do, said of the table alone, and which account a payout then goes to. */
module BankEffects {
  import opened Wrappers
  import opened Database
  import opened Accounts
  import opened BankProofs

  /** addBankAccount: a new row, or a fresh code for one not verified yet; the mail may fail afterwards. */
  lemma Adding(db: Db, u: Id, d: BankDetails, found: Option<Id>, id: Id, otp: Otp, mailOk: bool)
    requires IsLookup(db.banks, u, d, found)
    ensures var r := HandleBank(db, AddBankAccount(u, d, found, id, otp, mailOk));
            var written := u in db.users && if found.Some? then !db.banks[found.value].verified else id !in db.banks;
            && (r.error.None? <==> written && mailOk)
            && (!written ==> r.db == db)
            && (written ==>
                  if found.Some?
                  then var row := db.banks[found.value];
                       r.db == db.(banks := db.banks[found.value :=
                                              BankAccount(u, d, false, row.primary, Some(otp), row.createdAt)])
                  else r.db == db.(banks := db.banks[id := BankAccount(u, d, false, false, Some(otp), db.clock)]))
  {
  }

  /** verifyBankAccount: the right code, in time, and the row loses it; no primary flag changes. */
  lemma Verifying(db: Db, u: Id, b: Id, code: int, dbOk: bool, reloadOk: bool)
    ensures var r := HandleBank(db, VerifyBankAccount(u, b, code, dbOk, reloadOk));
            var written := && b in db.banks && db.banks[b].user == u && !db.banks[b].verified
                           && db.banks[b].otp.Some? && db.banks[b].otp.value.code == code
                           && db.clock <= db.banks[b].otp.value.expires && dbOk;
            && (r.error.None? <==> written && reloadOk)
            && (!written ==> r.db == db)
            && (written ==>
                  var row := db.banks[b];
                  r.db == db.(banks := db.banks[b :=
                                         BankAccount(u, row.details, true, row.primary, None, row.createdAt)]))
  {
    if OwnedBy(db.banks, u, b) {
      CountSeesTheUpdate(db.banks, u, b);
    }
  }

  /**
   setPrimaryBankAccount: of the user's accounts the one named is primary and no other is; nothing else
   about any account changes.
   */
  lemma SettingPrimary(db: Db, u: Id, b: Id, dbOk: bool)
    ensures var r := HandleBank(db, SetPrimaryBankAccount(u, b, dbOk));
            var ok := b in db.banks && db.banks[b].user == u && db.banks[b].verified && dbOk;
            && (r.error.None? <==> ok)
            && (!ok ==> r.db == db)
            && (ok ==>
                  && r.db == db.(banks := r.db.banks) && r.db.banks.Keys == db.banks.Keys
                  && forall x :: x in db.banks ==>
                       var row := db.banks[x];
                       r.db.banks[x] == if row.user == u
                                        then BankAccount(u, row.details, row.verified, x == b, row.otp, row.createdAt)
                                        else row)
  {
  }

  /** A payout without an account id then goes to that account, and to no other. */
  lemma PayoutsGoToThePrimary(db: Db, u: Id, b: Id, choice: Option<Id>)
    requires HandleBank(db, SetPrimaryBankAccount(u, b, true)).error.None?
    ensures IsChoice(HandleBank(db, SetPrimaryBankAccount(u, b, true)).db.banks, u, None, choice) <==> choice == Some(b)
  {
    SettingPrimary(db, u, b, true);
    var banks := HandleBank(db, SetPrimaryBankAccount(u, b, true)).db.banks;
    assert PrimaryOf(banks, u, b);
    assert forall x :: PrimaryOf(banks, u, x) ==> x == b;
  }

  /** deleteBankAccount: any account of the user's but the primary one. */
  lemma Deleting(db: Db, u: Id, b: Id)
    ensures var r := HandleBank(db, DeleteBankAccount(u, b));
            var ok := b in db.banks && db.banks[b].user == u && !db.banks[b].primary;
            && (r.error.None? <==> ok)
            && (!ok ==> r.db == db)
            && (ok ==>
                  && r.db == db.(banks := r.db.banks) && r.db.banks.Keys == db.banks.Keys - {b}
                  && forall x :: x in r.db.banks ==> r.db.banks[x] == db.banks[x])
  {
  }

  /** Without a primary account and an account id, a payout goes to the newest verified account. */
  lemma PayoutsGoToTheNewest(banks: map<Id, BankAccount>, u: Id, b: Id)
    requires forall x :: x in banks && banks[x].user == u ==> !banks[x].primary
    ensures IsChoice(banks, u, None, Some(b))
            <==> && b in banks && banks[b].user == u && banks[b].verified
                 && forall x :: x in banks && banks[x].user == u && banks[x].verified ==>
                      banks[x].createdAt <= banks[b].createdAt
  {
    assert forall x :: x in banks ==> (VerifiedOf(banks, u, x) <==> banks[x].user == u && banks[x].verified);
  }
}
