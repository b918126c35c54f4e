/** src/bank-accounts: UPDATE, INSERT and DELETE statements in sequence. */
module BankAccountsService {
  import opened Wrappers
  import opened Database
  import opened Accounts
  import Store

  class BankAccountsService {
    const db: Store.Store

    constructor (db: Store.Store)
      ensures this.db == db
    {
      this.db := db;
    }

    method FindByDetails(u: Id, d: BankDetails) returns (found: Option<Id>)
      ensures IsLookup(db.banks, u, d, found)
    {
      if b: Id :| b in db.banks && OwnedBy(db.banks, u, b) && db.banks[b].details == d {
        return Some(b);
      }
      return None;
    }

    method AddBankAccount(u: Id, d: BankDetails, id: Id, otp: Otp, mailOk: bool)
      returns (error: Option<Error>, ghost found: Option<Id>)
      modifies db
      ensures IsLookup(old(db.banks), u, d, found)
      ensures Reply(db.View(), error) == AddBank(old(db.View()), u, d, found, id, otp, mailOk)
    {
      var existing := FindByDetails(u, d);
      found := existing;
      if u !in db.users {
        return Some(NotFound), existing;
      }
      if existing.Some? {
        if db.banks[existing.value].verified {
          return Some(BadRequest), existing;
        }
        db.banks := db.banks[existing.value := db.banks[existing.value].(otp := Some(otp), verified := false)];
        return if mailOk then None else Some(Unavailable), existing;
      }
      if id in db.banks {
        return Some(Unavailable), existing;
      }
      db.banks := db.banks[id := BankAccount(u, d, false, false, Some(otp), db.clock)];
      return if mailOk then None else Some(Unavailable), existing;
    }

    method VerifyBankAccount(u: Id, b: Id, code: int, fault: nat, reloadOk: bool) returns (error: Option<Error>)
      modifies db
      ensures Reply(db.View(), error) == VerifyBank(old(db.View()), u, b, code, fault == 0, reloadOk)
    {
      if b !in db.banks || db.banks[b].user != u {
        return Some(NotFound);
      }
      if db.banks[b].verified || db.banks[b].otp.None? || db.banks[b].otp.value.code != code
         || db.clock > db.banks[b].otp.value.expires {
        return Some(BadRequest);
      }
      var before := db.View();
      if fault == 1 {
        return Some(Unavailable);
      }
      db.banks := db.banks[b := db.banks[b].(verified := true, otp := None)];
      if VerifiedCount(db.banks, u) == 0 {
        db.banks := db.banks[b := db.banks[b].(primary := true)];
      }
      if fault > 1 {
        db.Rollback(before);
        return Some(Unavailable);
      }
      return if reloadOk then None else Some(Unavailable);
    }

    method SetPrimaryBankAccount(u: Id, b: Id, fault: nat) returns (error: Option<Error>)
      modifies db
      ensures Reply(db.View(), error) == SetPrimary(old(db.View()), u, b, fault == 0)
    {
      if b !in db.banks || db.banks[b].user != u {
        return Some(NotFound);
      }
      if !db.banks[b].verified {
        return Some(BadRequest);
      }
      var before := db.View();
      if fault == 1 {
        return Some(Unavailable);
      }
      db.banks := map x | x in db.banks ::
        if db.banks[x].user == u then db.banks[x].(primary := false) else db.banks[x];
      if fault == 2 {
        db.Rollback(before);
        return Some(Unavailable);
      }
      db.banks := db.banks[b := db.banks[b].(primary := true)];
      if fault > 2 {
        db.Rollback(before);
        return Some(Unavailable);
      }
      return None;
    }

    method DeleteBankAccount(u: Id, b: Id) returns (error: Option<Error>)
      modifies db
      ensures Reply(db.View(), error) == DeleteBank(old(db.View()), u, b)
    {
      if b !in db.banks || db.banks[b].user != u {
        return Some(NotFound);
      }
      if db.banks[b].primary {
        return Some(BadRequest);
      }
      db.banks := db.banks - {b};
      return None;
    }
  }
}
