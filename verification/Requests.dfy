/** Creating the rows the money operations work on: onboarding, credit and payout requests, payments. */
module Requests {
  import opened Wrappers
  import opened Money
  import opened Database
  import opened Accounts

  predicate OpenFor(onboardings: map<Id, OnboardingRequest>, u: Id, r: Id) {
    r in onboardings && onboardings[r].user == u && onboardings[r].open
  }

  predicate HasOpen(onboardings: map<Id, OnboardingRequest>, u: Id) {
    exists r :: r in onboardings && OpenFor(onboardings, u, r)
  }

  function InsertOnboarding(db: Db, u: Id, id: Id): (r: Reply)
    ensures r.db == db.(onboardings := r.db.onboardings)
    ensures r.error.Some? ==> r.db == db
  {
    if id in db.onboardings then Refused(db, Unavailable)
    else Ok(db.(onboardings := db.onboardings[id := OnboardingRequest(u, true, db.clock)]))
  }

  /** OnboardingService.createOnboardingRequest */
  function CreateOnboarding(db: Db, u: Id, id: Id): (r: Reply)
    ensures r.db == db.(onboardings := r.db.onboardings)
    ensures r.error.Some? ==> r.db == db
  {
    if u !in db.users then Refused(db, NotFound)
    else if db.users[u].onboarded then Refused(db, Conflict)
    else if !db.users[u].tiktok then Refused(db, BadRequest)
    else if db.users[u].needsEmail then Refused(db, BadRequest)
    else if HasOpen(db.onboardings, u) then Refused(db, Conflict)
    else InsertOnboarding(db, u, id)
  }

  /** What the query for the user's open onboarding request, newest first, may return. */
  ghost predicate IsOpenAnswer(onboardings: map<Id, OnboardingRequest>, u: Id, found: Option<Id>) {
    match found
    case Some(r) => OpenFor(onboardings, u, r) &&
                    forall q :: OpenFor(onboardings, u, q) ==> onboardings[q].submittedAt <= onboardings[r].submittedAt
    case None => forall r :: r in onboardings ==> !OpenFor(onboardings, u, r)
  }

  /** The two saves of completeOnboarding's transaction. */
  function CloseOnboarding(db: Db, u: Id, r: Id): Db
    requires u in db.users && r in db.onboardings
  {
    db.(users := db.users[u := db.users[u].(onboarded := true)],
        onboardings := db.onboardings[r := db.onboardings[r].(open := false)])
  }

  /** AdminsService.completeOnboarding: a missing request is inserted before the transaction opens. */
  function AdminOnboard(db: Db, u: Id, found: Option<Id>, id: Id, dbOk: bool): (r: Reply)
    requires IsOpenAnswer(db.onboardings, u, found)
    ensures r.db == db.(users := r.db.users, onboardings := r.db.onboardings)
  {
    if u !in db.users then Refused(db, NotFound)
    else if db.users[u].onboarded then Refused(db, BadRequest)
    else
      var ready := if found.Some? then Ok(db) else InsertOnboarding(db, u, id);
      if ready.error.Some? then ready
      else if !dbOk then Refused(ready.db, Unavailable)
      else Ok(CloseOnboarding(ready.db, u, if found.Some? then found.value else id))
  }

  predicate PendingCredit(credits: map<Id, CreditRequest>, u: Id, c: Id) {
    c in credits && credits[c].user == u && credits[c].status == Pending
  }

  predicate HasPendingCredit(credits: map<Id, CreditRequest>, u: Id) {
    exists c :: c in credits && PendingCredit(credits, u, c)
  }

  function CreateCredit(db: Db, u: Id, amount: int, id: Id): (r: Reply)
    ensures r.db == db.(credits := r.db.credits)
    ensures r.error.Some? ==> r.db == db
  {
    if u !in db.users then Refused(db, NotFound)
    else if !db.users[u].onboarded then Refused(db, Forbidden)
    else if HasPendingCredit(db.credits, u) then Refused(db, Conflict)
    else if id in db.credits then Refused(db, Unavailable)
    else Ok(db.(credits := db.credits[id := CreditRequest(u, amount, Pending)]))
  }

  predicate PendingPayout(payouts: map<Id, Payout>, u: Id, p: Id) {
    p in payouts && payouts[p].user == u && payouts[p].status == Pending
  }

  predicate HasPendingPayout(payouts: map<Id, Payout>, u: Id) {
    exists p :: p in payouts && PendingPayout(payouts, u, p)
  }

  /** PayoutsService.createPayout, given what the bank-account query answered. */
  function CreatePayout(db: Db, u: Id, cents: int, asked: Option<Id>, choice: Option<Id>, id: Id,
                        session: Option<Id>): (r: Reply)
    requires IsChoice(db.banks, u, asked, choice)
    ensures r.db == db.(payouts := r.db.payouts)
    ensures r.error.Some? ==> r.db == db
  {
    if u !in db.users then Refused(db, NotFound)
    else if !db.users[u].onboarded then Refused(db, Forbidden)
    else if db.users[u].earnings < cents then Refused(db, BadRequest)
    else if HasPendingPayout(db.payouts, u) then Refused(db, BadRequest)
    else if choice.None? then Refused(db, if asked.Some? then NotFound else BadRequest)
    else if !Accepted(db.settings, cents) then Refused(db, BadRequest)
    else if id in db.payouts then Refused(db, Unavailable)
    else
      var p := Payout(u, QuoteFor(db.settings, cents), db.banks[choice.value].details, Pending, db.settings, session);
      Ok(db.(payouts := db.payouts[id := p]))
  }

  /** PaymentsService.initializePayment: no row unless Paystack accepts. */
  function InitializePayment(db: Db, u: Id, id: Id, kobo: int, paystackOk: bool): (r: Reply)
    ensures r.db == db.(payments := r.db.payments)
    ensures r.error.Some? ==> r.db == db
  {
    if u !in db.users then Refused(db, NotFound)
    else if !paystackOk || id in db.payments then Refused(db, Unavailable)
    else Ok(db.(payments := db.payments[id := Payment(u, kobo, Awaiting)]))
  }

  // ---------- As one handler ----------

  datatype RequestOp =
    | CreateOnboardingRequest(user: Id, id: Id)
    | CompleteUserOnboarding(user: Id, found: Option<Id>, id: Id, dbOk: bool)
    | CreateCreditRequest(user: Id, amount: int, id: Id)
    | CreatePayoutRequest(user: Id, amount: int, asked: Option<Id>, choice: Option<Id>, id: Id)
    | InitializePaystack(user: Id, id: Id, kobo: int, paystackOk: bool)

  /** DTO bounds, and right answers to the queries. */
  ghost predicate AllowedRequest(db: Db, op: RequestOp) {
    match op
    case CreateOnboardingRequest(_, _) => true
    case CompleteUserOnboarding(u, found, _, _) => IsOpenAnswer(db.onboardings, u, found)
    case CreateCreditRequest(_, amount, _) => amount >= 100
    case CreatePayoutRequest(u, amount, asked, choice, _) => amount >= 1 && IsChoice(db.banks, u, asked, choice)
    case InitializePaystack(_, _, kobo, _) => kobo >= 100
  }

  function HandleRequest(db: Db, op: RequestOp): (r: Reply)
    requires AllowedRequest(db, op)
    ensures r.db == db.(users := r.db.users, credits := r.db.credits, payouts := r.db.payouts,
                        payments := r.db.payments, onboardings := r.db.onboardings)
  {
    match op
    case CreateOnboardingRequest(u, id) => CreateOnboarding(db, u, id)
    case CompleteUserOnboarding(u, found, id, dbOk) => AdminOnboard(db, u, found, id, dbOk)
    case CreateCreditRequest(u, amount, id) => CreateCredit(db, u, amount, id)
    case CreatePayoutRequest(u, amount, asked, choice, id) => CreatePayout(db, u, amount, asked, choice, id, None)
    case InitializePaystack(u, id, kobo, paystackOk) => InitializePayment(db, u, id, kobo, paystackOk)
  }
}
