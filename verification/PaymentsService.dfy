/** src/payments: Paystack payments and transfers from earnings to wallet. */
module PaymentsService {
  import opened Wrappers
  import opened Database
  import Store
  import MoneyOps
  import Requests

  /**
   The methods write the rows one by one inside a transaction.  `fault` says at which write the
   database fails (any larger number: at the commit); 0 says that it does not.
   */
  class PaymentsService {
    const db: Store.Store

    constructor (db: Store.Store)
      ensures this.db == db
    {
      this.db := db;
    }

    method InitializePayment(u: Id, id: Id, kobo: int, paystackOk: bool) returns (error: Option<Error>)
      modifies db
      ensures Reply(db.View(), error) == Requests.InitializePayment(old(db.View()), u, id, kobo, paystackOk)
    {
      if u !in db.users {
        return Some(NotFound);
      }
      if !paystackOk || id in db.payments {
        return Some(Unavailable);
      }
      db.payments := db.payments[id := Payment(u, kobo, Awaiting)];
      return None;
    }

    /** Only the first of the writes precedes the check that the user exists. */
    ghost predicate PaidWithoutUser(before: Db, r: Id, answer: MoneyOps.PaystackAnswer) {
      && r in before.payments && before.payments[r].status != Success && answer.Paid?
      && before.payments[r].user !in before.users
    }

    method VerifyPayment(r: Id, answer: MoneyOps.PaystackAnswer, fault: nat) returns (error: Option<Error>)
      modifies db
      ensures var spec := MoneyOps.Perform(old(db.View()), MoneyOps.VerifyPayment(r, answer), fault == 0);
              && db.View() == spec.db
              && error == if fault == 1 && PaidWithoutUser(old(db.View()), r, answer)
                          then Some(Unavailable) else spec.error
    {
      if r !in db.payments {
        return Some(NotFound);
      }
      if db.payments[r].status == Success {
        return None;
      }
      if answer.Unreachable? {
        return Some(Unavailable);
      }
      if answer.Declined? {
        if fault != 0 {
          return Some(Unavailable);
        }
        db.payments := db.payments[r := db.payments[r].(status := Failed)];
        return Some(BadRequest);
      }
      error := CreditWallet(r, answer.kobo, fault);
    }

    /** The transaction of a successful payment. */
    method CreditWallet(r: Id, amount: int, fault: nat) returns (error: Option<Error>)
      requires r in db.payments && db.payments[r].status != Success
      modifies db
      ensures if fault == 1 then error == Some(Unavailable) && db.View() == old(db.View())
              else if old(db.payments)[r].user !in old(db.users)
              then error == Some(NotFound) && db.View() == old(db.View())
              else if fault != 0 then error == Some(Unavailable) && db.View() == old(db.View())
              else var plan := MoneyOps.ReadVerifyPayment(old(db.View()), r, MoneyOps.Paid(amount));
                   error == None && db.View() == MoneyOps.Apply(old(db.View()), plan)
    {
      var before := db.View();
      if fault == 1 {
        return Some(Unavailable);
      }
      db.payments := db.payments[r := db.payments[r].(status := Success)];
      var u := db.payments[r].user;
      if u !in db.users {
        db.Rollback(before);
        return Some(NotFound);
      }
      if fault == 2 {
        db.Rollback(before);
        return Some(Unavailable);
      }
      db.users := db.users[u := db.users[u].(wallet := db.users[u].wallet + amount)];
      if fault == 3 {
        db.Rollback(before);
        return Some(Unavailable);
      }
      db.txns := db.txns + [Txn(u, WalletDeposit(r), amount, Some(amount), None, TxnCompleted, db.clock)];
      if fault > 3 {
        db.Rollback(before);
        return Some(Unavailable);
      }
      return None;
    }

    method TransferEarningsToWallet(u: Id, amount: int, fault: nat) returns (error: Option<Error>)
      modifies db
      ensures Reply(db.View(), error)
              == MoneyOps.Perform(old(db.View()), MoneyOps.TransferEarnings(u, amount), fault == 0)
    {
      if u !in db.users {
        return Some(NotFound);
      }
      var earnings, wallet := db.users[u].earnings, db.users[u].wallet;
      if earnings < amount {
        return Some(BadRequest);
      }
      var before := db.View();
      if fault == 1 {
        return Some(Unavailable);
      }
      db.users := db.users[u := db.users[u].(earnings := earnings - amount, wallet := wallet + amount)];
      if fault == 2 {
        db.Rollback(before);
        return Some(Unavailable);
      }
      db.txns := db.txns + [Txn(u, EarningsToWallet, amount, Some(amount), None, TxnCompleted, db.clock)];
      if fault > 2 {
        db.Rollback(before);
        return Some(Unavailable);
      }
      return None;
    }
  }
}
