/** Any sequence of verify calls for one Paystack reference, from the client and from the webhook. */
module Verification {
  import opened Wrappers
  import opened Database
  import opened MoneyOps

  /** One call: what Paystack answers this time, and whether the database transaction goes through. */
  datatype Call = Call(answer: PaystackAnswer, dbOk: bool)

  function VerifyAll(db: Db, r: Id, calls: seq<Call>): Db {
    if calls == [] then db
    else
      var call := calls[|calls| - 1];
      Perform(VerifyAll(db, r, calls[..|calls| - 1]), VerifyPayment(r, call.answer), call.dbOk).db
  }

  /** The amount of the first successful answer that could be stored. */
  function FirstPaid(calls: seq<Call>): Option<int> {
    if calls == [] then None
    else
      var before, call := FirstPaid(calls[..|calls| - 1]), calls[|calls| - 1];
      if before.Some? then before
      else if call.answer.Paid? && call.dbOk then Some(call.answer.kobo) else None
  }

  /** What the calls have done: one credit of the wallet, recorded and marked SUCCESS, or nothing. */
  predicate Outcome(db: Db, r: Id, first: Option<int>, after: Db)
    requires r in db.payments && db.payments[r].user in db.users
  {
    var u := db.payments[r].user;
    && r in after.payments && after.payments[r].user == u
    && after == db.(users := after.users, txns := after.txns, payments := db.payments[r := after.payments[r]])
    && match first
       case Some(kobo) =>
         && after.payments[r].status == Success
         && after.users == db.users[u := db.users[u].(wallet := db.users[u].wallet + kobo)]
         && after.txns == db.txns + [Txn(u, WalletDeposit(r), kobo, Some(kobo), None, TxnCompleted, db.clock)]
       case None =>
         after.payments[r].status != Success && after.users == db.users && after.txns == db.txns
  }

  lemma OneCall(db: Db, r: Id, first: Option<int>, mid: Db, call: Call)
    requires r in db.payments && db.payments[r].user in db.users && Outcome(db, r, first, mid)
    ensures var next := if first.Some? then first
                        else if call.answer.Paid? && call.dbOk then Some(call.answer.kobo) else None;
            Outcome(db, r, next, Perform(mid, VerifyPayment(r, call.answer), call.dbOk).db)
  {
    var after := Perform(mid, VerifyPayment(r, call.answer), call.dbOk).db;
    if first.None? && r in after.payments {
      assert after.payments == db.payments[r := after.payments[r]];
    }
  }

  /**
   The wallet is credited at most once, with the amount of the first successful answer, by one
   deposit record, and the payment is SUCCESS exactly then; nothing else changes.
   */
  lemma {:induction false} CreditedOnce(db: Db, r: Id, calls: seq<Call>)
    requires r in db.payments && db.payments[r].status != Success && db.payments[r].user in db.users
    ensures Outcome(db, r, FirstPaid(calls), VerifyAll(db, r, calls))
  {
    if calls == [] {
      assert db.payments == db.payments[r := db.payments[r]];
    } else {
      var before := calls[..|calls| - 1];
      CreditedOnce(db, r, before);
      OneCall(db, r, FirstPaid(before), VerifyAll(db, r, before), calls[|calls| - 1]);
    }
  }
}
