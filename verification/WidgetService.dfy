/** src/widget: the session machine over the database. */
module WidgetService {
  import opened Wrappers
  import opened Database
  import opened Accounts
  import opened Widget
  import Requests
  import Store
  import RequestServices

  class WidgetService {
    const db: Store.Store
    const onboarding: RequestServices.OnboardingService
    const payouts: RequestServices.PayoutsService

    constructor (db: Store.Store, onboarding: RequestServices.OnboardingService,
                 payouts: RequestServices.PayoutsService)
      requires onboarding.db == db && payouts.db == db
      ensures this.db == db && this.onboarding == onboarding && this.payouts == payouts
    {
      this.db, this.onboarding, this.payouts := db, onboarding, payouts;
    }

    /** The services share one database. */
    ghost predicate Valid() {
      onboarding.db == db && payouts.db == db
    }

    method InitSession(s: Id, u: Id, t: Trigger) returns (error: Option<Error>)
      modifies db
      ensures Reply(db.View(), error) == Widget.InitSession(old(db.View()), s, u, t)
    {
      if u !in db.users {
        return Some(NotFound);
      }
      var initial := if t == ForOnboarding then RequestCredentials else CollectingAmount;
      if s in db.sessions {
        return Some(Unavailable);
      }
      db.sessions := db.sessions[s := Session(u, t, initial, [], map[], Active, db.clock)];
      return None;
    }

    method GetSession(s: Id, u: Id) returns (error: Option<Error>)
      modifies db
      ensures Reply(db.View(), error) == Widget.GetSession(old(db.View()), s, u)
    {
      if s !in db.sessions || db.sessions[s].user != u {
        return Some(NotFound);
      }
      if db.clock - db.sessions[s].lastActivity > HOUR {
        db.sessions := db.sessions[s := db.sessions[s].(status := Abandoned)];
        return Some(BadRequest);
      }
      return None;
    }

    method SubmitStep(s: Id, u: Id, step: WidgetStep, amount: Option<int>, requestId: Id) returns (error: Option<Error>)
      requires Valid()
      modifies db
      ensures Reply(db.View(), error) == Widget.SubmitStep(old(db.View()), s, u, step, amount, requestId)
    {
      error := GetSession(s, u);
      if error.Some? {
        return;
      }
      var session := db.sessions[s];
      if session.status != Active || session.step != step {
        return Some(BadRequest);
      }
      var data := session.data[step := amount];
      var done := session.done;
      if step !in done {
        done := done + [step];
      }
      var next := NextStep(session.trigger, step);
      session := session.(data := data, done := done, lastActivity := db.clock);
      if next.Some? {
        session := session.(step := next.value);
      } else {
        session := session.(step := StepCompleted);
      }
      if next == Some(StepCompleted) {
        session := session.(status := Finished);
      }
      db.sessions := db.sessions[s := session];
      if step == RequestCredentials && session.trigger == ForOnboarding {
        var _ := onboarding.CreateOnboardingRequest(u, requestId);
      }
      return None;
    }

    /** `fault` counts the writes of the deposit's transaction, as in PaymentsService. */
    method CompleteDeposit(s: Id, fault: nat) returns (error: Option<Error>)
      requires s in db.sessions
      modifies db
      ensures Reply(db.View(), error) == Widget.CompleteDeposit(old(db.View()), s, old(db.sessions)[s], fault == 0)
    {
      var session := db.sessions[s];
      var amount := AmountOf(session);
      if amount.None? {
        return Some(BadRequest);
      }
      var u := session.user;
      if u !in db.users {
        return Some(NotFound);
      }
      var before := db.View();
      if fault == 1 {
        return Some(Unavailable);
      }
      db.users := db.users[u := db.users[u].(earnings := db.users[u].earnings + amount.value)];
      if fault == 2 {
        db.Rollback(before);
        return Some(Unavailable);
      }
      db.txns := db.txns + [Txn(u, WidgetCredit(s), amount.value, None, None, TxnCompleted, db.clock)];
      if fault > 2 {
        db.Rollback(before);
        return Some(Unavailable);
      }
      return None;
    }

    method CompleteWithdrawal(s: Id, rowId: Id) returns (error: Option<Error>, ghost choice: Option<Id>)
      requires Valid() && s in db.sessions
      modifies db
      ensures IsChoice(old(db.banks), old(db.sessions)[s].user, None, choice)
      ensures Reply(db.View(), error)
              == Widget.CompleteWithdrawal(old(db.View()), s, old(db.sessions)[s], choice, rowId)
    {
      var amount := AmountOf(db.sessions[s]);
      if amount.None? {
        var account := payouts.FindBankAccount(db.sessions[s].user, None);
        return Some(BadRequest), account;
      }
      error, choice := payouts.CreatePayout(db.sessions[s].user, amount.value, None, rowId, Some(s));
    }

    method CompleteOnboarding(s: Id, rowId: Id) returns (error: Option<Error>)
      requires s in db.sessions
      modifies db
      ensures Reply(db.View(), error) == Widget.CompleteOnboarding(old(db.View()), old(db.sessions)[s].user, rowId)
    {
      var u := db.sessions[s].user;
      if u !in db.users || Requests.HasOpen(db.onboardings, u) {
        return None;
      }
      if rowId in db.onboardings {
        return Some(Unavailable);
      }
      db.onboardings := db.onboardings[rowId := OnboardingRequest(u, true, db.clock)];
      return None;
    }

    /** The work for the session's trigger. */
    method Process(s: Id, rowId: Id, fault: nat) returns (error: Option<Error>, ghost choice: Option<Id>)
      requires Valid() && s in db.sessions
      modifies db
      ensures IsChoice(old(db.banks), old(db.sessions)[s].user, None, choice)
      ensures Reply(db.View(), error)
              == Widget.Process(old(db.View()), s, old(db.sessions)[s], choice, rowId, fault == 0)
    {
      var account := payouts.FindBankAccount(db.sessions[s].user, None);
      choice := account;
      match db.sessions[s].trigger {
        case ForOnboarding => error := CompleteOnboarding(s, rowId);
        case ForWithdrawal => error, choice := CompleteWithdrawal(s, rowId);
        case ForDeposit => error := CompleteDeposit(s, fault);
      }
    }

    method CompleteSession(s: Id, u: Id, rowId: Id, fault: nat, saveOk: bool)
      returns (error: Option<Error>, ghost choice: Option<Id>)
      requires Valid()
      modifies db
      ensures IsChoice(old(db.banks), u, None, choice)
      ensures Reply(db.View(), error) == Widget.CompleteSession(old(db.View()), s, u, choice, rowId, fault == 0, saveOk)
    {
      var account := payouts.FindBankAccount(u, None);
      choice := account;
      error := GetSession(s, u);
      if error.Some? || db.sessions[s].status == Finished {
        return;
      }
      error, choice := Process(s, rowId, fault);
      if error.Some? {
        return;
      }
      if !saveOk {
        error := Some(Unavailable);
        return;
      }
      db.sessions := db.sessions[s := db.sessions[s].(status := Finished, step := StepCompleted)];
    }
  }
}
