/** src/onboarding, src/credit-requests and src/payouts: submitting requests. */
module RequestServices {
  import opened Wrappers
  import opened Money
  import opened Database
  import opened Accounts
  import Requests
  import BankProofs
  import Store

  class OnboardingService {
    const db: Store.Store

    constructor (db: Store.Store)
      ensures this.db == db
    {
      this.db := db;
    }

    method CreateOnboardingRequest(u: Id, id: Id) returns (error: Option<Error>)
      modifies db
      ensures Reply(db.View(), error) == Requests.CreateOnboarding(old(db.View()), u, id)
    {
      if u !in db.users {
        return Some(NotFound);
      }
      if db.users[u].onboarded {
        return Some(Conflict);
      }
      if !db.users[u].tiktok || db.users[u].needsEmail {
        return Some(BadRequest);
      }
      if Requests.HasOpen(db.onboardings, u) {
        return Some(Conflict);
      }
      if id in db.onboardings {
        return Some(Unavailable);
      }
      db.onboardings := db.onboardings[id := OnboardingRequest(u, true, db.clock)];
      return None;
    }
  }

  class CreditRequestsService {
    const db: Store.Store

    constructor (db: Store.Store)
      ensures this.db == db
    {
      this.db := db;
    }

    method CreateCreditRequest(u: Id, amount: int, id: Id) returns (error: Option<Error>)
      modifies db
      ensures Reply(db.View(), error) == Requests.CreateCredit(old(db.View()), u, amount, id)
    {
      if u !in db.users {
        return Some(NotFound);
      }
      if !db.users[u].onboarded {
        return Some(Forbidden);
      }
      if Requests.HasPendingCredit(db.credits, u) {
        return Some(Conflict);
      }
      if id in db.credits {
        return Some(Unavailable);
      }
      db.credits := db.credits[id := CreditRequest(u, amount, Pending)];
      return None;
    }
  }

  lemma PercentageOf(x: int, percentage: int)
    ensures 0 <= percentage <= 10_000 && x >= 0 ==> 0 <= x * percentage <= x * 10_000
  {
    if 0 <= percentage <= 10_000 && x >= 0 {
      assert x * 10_000 - x * percentage == x * (10_000 - percentage);
    }
  }

  /** What calculateProcessingFee promises fixes the fee. */
  lemma FeeIsDetermined(s: Settings, cents: int, fee: int)
    requires s.feeType == Percentage ==> 10_000 * fee == Gross(s, cents) * s.percentage
    requires s.feeType == Fixed ==> Round(fee, MICRO) == s.fee && fee % MICRO == 0
    ensures fee == Fee(s, cents)
  {
    if s.feeType == Percentage {
      assert Gross(s, cents) * s.percentage == 10_000 * (cents * s.rate * s.percentage);
    } else {
      RoundMultiple(fee / MICRO, MICRO);
    }
  }

  class PayoutsService {
    const db: Store.Store

    constructor (db: Store.Store)
      ensures this.db == db
    {
      this.db := db;
    }

    /** The verified account asked for, else a primary one, else the newest verified one. */
    method FindBankAccount(u: Id, asked: Option<Id>) returns (choice: Option<Id>)
      ensures IsChoice(db.banks, u, asked, choice)
    {
      if asked.Some? {
        return if VerifiedOf(db.banks, u, asked.value) then asked else None;
      }
      if b: Id :| b in db.banks && PrimaryOf(db.banks, u, b) {
        return Some(b);
      }
      var verified := VerifiedSet(db.banks, u);
      assert forall c :: VerifiedOf(db.banks, u, c) ==> c in verified && c in db.banks;
      if verified == {} {
        return None;
      }
      ghost var newest := BankProofs.Newest(db.banks, verified);
      var b :| b in verified && forall c :: c in verified ==> db.banks[c].createdAt <= db.banks[b].createdAt;
      return Some(b);
    }

    /**
     A percentage fee is that share of the converted amount and never more than it; a fixed fee is
     stored as it was set, whatever the amount.
     */
    method CalculateProcessingFee(ngn: int) returns (fee: int)
      requires ngn % 10_000 == 0
      ensures db.settings.feeType == Percentage ==> 10_000 * fee == ngn * db.settings.percentage
      ensures db.settings.feeType == Percentage && ValidSettings(db.settings) && ngn >= 0 ==> 0 <= fee <= ngn
      ensures db.settings.feeType == Fixed ==> Round(fee, MICRO) == db.settings.fee && fee % MICRO == 0
    {
      if db.settings.feeType == Percentage {
        PercentageOf(ngn / 10_000, db.settings.percentage);
        return ngn / 10_000 * db.settings.percentage;
      }
      RoundMultiple(db.settings.fee, MICRO);
      return db.settings.fee * MICRO;
    }

    method CreatePayout(u: Id, cents: int, asked: Option<Id>, id: Id, session: Option<Id>)
      returns (error: Option<Error>, ghost choice: Option<Id>)
      modifies db
      ensures IsChoice(old(db.banks), u, asked, choice)
      ensures Reply(db.View(), error) == Requests.CreatePayout(old(db.View()), u, cents, asked, choice, id, session)
    {
      var account := FindBankAccount(u, asked);
      choice := account;
      if u !in db.users {
        return Some(NotFound), account;
      }
      if !db.users[u].onboarded {
        return Some(Forbidden), account;
      }
      if db.users[u].earnings < cents || Requests.HasPendingPayout(db.payouts, u) {
        return Some(BadRequest), account;
      }
      if account.None? {
        return Some(if asked.Some? then NotFound else BadRequest), account;
      }
      var ngn := Gross(db.settings, cents);
      assert ngn == cents * db.settings.rate * 10_000;
      var fee := CalculateProcessingFee(ngn);
      FeeIsDetermined(db.settings, cents, fee);
      var net := ngn - fee;
      if net <= 0 {
        return Some(BadRequest), account;
      }
      if id in db.payouts {
        return Some(Unavailable), account;
      }
      var quote := Quote(cents, Round(ngn, MICRO), Round(fee, MICRO), Round(net, MICRO));
      var row := Payout(u, quote, db.banks[account.value].details, Pending, db.settings, session);
      db.payouts := db.payouts[id := row];
      return None, account;
    }
  }
}
