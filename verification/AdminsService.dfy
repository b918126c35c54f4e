/** src/admins: deciding credit requests and payouts, and completing onboarding. */
module AdminsService {
  import opened Wrappers
  import opened Money
  import opened Database
  import opened MoneyOps
  import Requests
  import Store

  /** `fault` counts writes as in PaymentsService. */
  class AdminsService {
    const db: Store.Store

    constructor (db: Store.Store)
      ensures this.db == db
    {
      this.db := db;
    }

    method ApproveCreditRequest(c: Id, override: Option<int>, how: CreditMethod, fault: nat)
      returns (error: Option<Error>)
      modifies db
      ensures Reply(db.View(), error) == Perform(old(db.View()), ApproveCredit(c, override, how), fault == 0)
    {
      if c !in db.credits {
        return Some(NotFound);
      }
      var request := db.credits[c];
      if request.status != Pending {
        return Some(BadRequest);
      }
      var u := request.user;
      if u !in db.users {
        return Some(NotFound);
      }
      var amount := request.amount;
      if override.Some? && override.value != 0 {
        amount := override.value;
      }
      if how == Direct && !HasPrimary(db.banks, u) {
        return Some(BadRequest);
      }
      error := WriteApproval(c, amount, how, fault);
    }

    /** The transaction of an approval. */
    method WriteApproval(c: Id, amount: int, how: CreditMethod, fault: nat) returns (error: Option<Error>)
      requires c in db.credits && db.credits[c].user in db.users
      modifies db
      ensures if fault == 0
              then error == None && db.View() == Apply(old(db.View()), Approval(old(db.View()), c, amount, how))
              else error == Some(Unavailable) && db.View() == old(db.View())
    {
      var u := db.credits[c].user;
      var before := db.View();
      if fault == 1 {
        return Some(Unavailable);
      }
      db.credits := db.credits[c := db.credits[c].(status := Completed)];
      match how {
        case Balance =>
          if fault == 2 {
            db.Rollback(before);
            return Some(Unavailable);
          }
          db.users := db.users[u := db.users[u].(earnings := db.users[u].earnings + amount)];
          db.txns := db.txns + [Txn(u, BalanceCredit(c), amount, None, None, TxnCompleted, db.clock)];
        case Direct =>
          db.txns := db.txns + [Txn(u, DirectRemittance(c), amount, None, None, TxnCompleted, db.clock)];
      }
      if fault > 1 {
        db.Rollback(before);
        return Some(Unavailable);
      }
      return None;
    }

    method RejectCreditRequest(c: Id, fault: nat) returns (error: Option<Error>)
      modifies db
      ensures Reply(db.View(), error) == Perform(old(db.View()), RejectCredit(c), fault == 0)
    {
      if c !in db.credits {
        return Some(NotFound);
      }
      if db.credits[c].status != Pending {
        return Some(BadRequest);
      }
      if db.credits[c].user !in db.users {
        return Some(NotFound);
      }
      if fault != 0 {
        return Some(Unavailable);
      }
      db.credits := db.credits[c := db.credits[c].(status := Rejected)];
      return None;
    }

    /**
     There is no problem exactly if the payout is pending and completing it would leave its user, who
     exists, with earnings that are not negative; and a missing row is reported as such.
     */
    method CheckPayout(p: Id) returns (error: Option<Error>)
      ensures error == PayoutProblem(db.View(), p)
      ensures error.None? <==>
                && p in db.payouts && db.payouts[p].status == Pending && db.payouts[p].user in db.users
                && Settle(db.View(), p).user.value >= 0
      ensures error == Some(NotFound) <==>
                p !in db.payouts || (db.payouts[p].status == Pending && db.payouts[p].user !in db.users)
    {
      if p !in db.payouts {
        return Some(NotFound);
      }
      if db.payouts[p].status != Pending {
        return Some(BadRequest);
      }
      if db.payouts[p].user !in db.users {
        return Some(NotFound);
      }
      if db.users[db.payouts[p].user].earnings < db.payouts[p].quote.amount {
        return Some(BadRequest);
      }
      return None;
    }

    method ProcessPayout(p: Id, settlement: Settlement, fault: nat) returns (error: Option<Error>)
      modifies db
      ensures Reply(db.View(), error) == Perform(old(db.View()), MoneyOps.ProcessPayout(p, settlement), fault == 0)
    {
      error := CheckPayout(p);
      if error.Some? {
        return;
      }
      if db.payouts[p].bank.number == "" || db.payouts[p].bank.code == "" || settlement != Sent {
        return Some(BadRequest);
      }
      error := ApplyPayoutCompletion(p, fault);
    }

    method CompleteManualPayout(p: Id, fault: nat) returns (error: Option<Error>)
      modifies db
      ensures Reply(db.View(), error) == Perform(old(db.View()), MoneyOps.CompleteManualPayout(p), fault == 0)
    {
      error := CheckPayout(p);
      if error.None? {
        error := ApplyPayoutCompletion(p, fault);
      }
    }

    method ApplyPayoutCompletion(p: Id, fault: nat) returns (error: Option<Error>)
      requires PayoutProblem(db.View(), p).None?
      modifies db
      ensures if fault == 0
              then Reply(db.View(), error) == Ok(Apply(old(db.View()), Settle(old(db.View()), p)))
              else error == Some(Unavailable) && db.View() == old(db.View())
    {
      var u, q := db.payouts[p].user, db.payouts[p].quote;
      var before := db.View();
      if fault == 1 {
        return Some(Unavailable);
      }
      db.payouts := db.payouts[p := db.payouts[p].(status := Completed)];
      if fault == 2 {
        db.Rollback(before);
        return Some(Unavailable);
      }
      db.users := db.users[u := db.users[u].(earnings := db.users[u].earnings - q.amount)];
      if fault == 3 {
        db.Rollback(before);
        return Some(Unavailable);
      }
      var finance := Finance(q.ngn, RecoveredRate(q), q.fee, q.net);
      db.txns := db.txns + [Txn(u, PayoutSettled(p), q.amount, Some(q.ngn), Some(finance), TxnCompleted, db.clock)];
      if fault > 3 {
        db.Rollback(before);
        return Some(Unavailable);
      }
      return None;
    }

    method RejectPayout(p: Id, fault: nat) returns (error: Option<Error>)
      modifies db
      ensures Reply(db.View(), error) == Perform(old(db.View()), MoneyOps.RejectPayout(p), fault == 0)
    {
      if p !in db.payouts {
        return Some(NotFound);
      }
      if db.payouts[p].status != Pending {
        return Some(BadRequest);
      }
      if fault != 0 {
        return Some(Unavailable);
      }
      db.payouts := db.payouts[p := db.payouts[p].(status := Rejected)];
      return None;
    }

    /** A missing onboarding request is inserted before the transaction, so a rollback keeps it. */
    method CompleteOnboarding(u: Id, found: Option<Id>, id: Id, fault: nat) returns (error: Option<Error>)
      requires Requests.IsOpenAnswer(db.onboardings, u, found)
      modifies db
      ensures Reply(db.View(), error) == Requests.AdminOnboard(old(db.View()), u, found, id, fault == 0)
    {
      if u !in db.users {
        return Some(NotFound);
      }
      if db.users[u].onboarded {
        return Some(BadRequest);
      }
      var r := id;
      if found.Some? {
        r := found.value;
      } else {
        if id in db.onboardings {
          return Some(Unavailable);
        }
        db.onboardings := db.onboardings[id := OnboardingRequest(u, true, db.clock)];
      }
      var before := db.View();
      if fault == 1 {
        return Some(Unavailable);
      }
      db.users := db.users[u := db.users[u].(onboarded := true)];
      if fault == 2 {
        db.Rollback(before);
        return Some(Unavailable);
      }
      db.onboardings := db.onboardings[r := db.onboardings[r].(open := false)];
      if fault > 2 {
        db.Rollback(before);
        return Some(Unavailable);
      }
      return None;
    }
  }
}
