/**
 What the requests that create rows do, said of the tables alone: when each succeeds and the one row it
 then writes.
 */
module RequestEffects {
  import opened Wrappers
  import opened Money
  import opened Database
  import opened Accounts
  import opened Requests

  /** None of the user's onboarding requests is open. */
  predicate NoneOpen(onboardings: map<Id, OnboardingRequest>, u: Id) {
    forall r :: r in onboardings && onboardings[r].user == u ==> !onboardings[r].open
  }

  /** The user may ask to be onboarded. */
  predicate MayAsk(db: Db, u: Id) {
    && u in db.users && !db.users[u].onboarded && db.users[u].tiktok && !db.users[u].needsEmail
    && NoneOpen(db.onboardings, u)
  }

  /** createOnboardingRequest */
  lemma AskingToBeOnboarded(db: Db, u: Id, id: Id)
    ensures var r := HandleRequest(db, CreateOnboardingRequest(u, id));
            var ok := MayAsk(db, u) && id !in db.onboardings;
            && (r.error.None? <==> ok)
            && r.db == if ok
                       then db.(onboardings := db.onboardings[id := OnboardingRequest(u, true, db.clock)]) else db
  {
    assert HasOpen(db.onboardings, u) <==> !NoneOpen(db.onboardings, u);
  }

  /**
   completeOnboarding.  The user is onboarded and the newest open request, or else the inserted one, is
   closed.  If the transaction fails, an inserted request stays, open.
   */
  lemma CompletingOnboarding(db: Db, u: Id, found: Option<Id>, id: Id, dbOk: bool)
    requires IsOpenAnswer(db.onboardings, u, found)
    ensures var r := HandleRequest(db, CompleteUserOnboarding(u, found, id, dbOk));
            var ready := u in db.users && !db.users[u].onboarded && (found.Some? || id !in db.onboardings);
            && (r.error.None? <==> ready && dbOk)
            && (ready && dbOk ==>
                  var closed := if found.Some? then found.value else id;
                  var since := if found.Some? then db.onboardings[found.value].submittedAt else db.clock;
                  var was := db.users[u];
                  var user := User(was.earnings, was.wallet, true, was.tiktok, was.needsEmail);
                  r.db == db.(users := db.users[u := user],
                              onboardings := db.onboardings[closed := OnboardingRequest(u, false, since)]))
            && (ready && !dbOk ==>
                  r.db == if found.Some? then db
                          else db.(onboardings := db.onboardings[id := OnboardingRequest(u, true, db.clock)]))
            && (!ready ==> r.db == db)
  {
  }

  /** Whoever had at most one open request has none left. */
  lemma OnboardedHaveNothingOpen(db: Db, u: Id, found: Option<Id>, id: Id, dbOk: bool)
    requires IsOpenAnswer(db.onboardings, u, found)
    requires forall q, r :: OpenFor(db.onboardings, u, q) && OpenFor(db.onboardings, u, r) ==> q == r
    ensures var r := HandleRequest(db, CompleteUserOnboarding(u, found, id, dbOk));
            r.error.None? ==> NoneOpen(r.db.onboardings, u)
  {
    CompletingOnboarding(db, u, found, id, dbOk);
    var after := HandleRequest(db, CompleteUserOnboarding(u, found, id, dbOk)).db.onboardings;
    forall r | r in after && after[r].user == u && after[r].open
      ensures HandleRequest(db, CompleteUserOnboarding(u, found, id, dbOk)).error.Some?
    {
      assert r in db.onboardings && after[r] == db.onboardings[r] ==> OpenFor(db.onboardings, u, r);
    }
  }

  /** createCreditRequest */
  lemma AskingForCredit(db: Db, u: Id, amount: int, id: Id)
    requires amount >= 100
    ensures var r := HandleRequest(db, CreateCreditRequest(u, amount, id));
            var ok := && u in db.users && db.users[u].onboarded && id !in db.credits
                      && (forall c :: c in db.credits && db.credits[c].user == u ==> db.credits[c].status != Pending);
            && (r.error.None? <==> ok)
            && r.db == if ok then db.(credits := db.credits[id := CreditRequest(u, amount, Pending)]) else db
  {
    assert HasPendingCredit(db.credits, u)
           <==> exists c :: c in db.credits && db.credits[c].user == u && db.credits[c].status == Pending;
  }

  /** initializePayment */
  lemma AskingToPay(db: Db, u: Id, id: Id, kobo: int, paystackOk: bool)
    requires kobo >= 100
    ensures var r := HandleRequest(db, InitializePaystack(u, id, kobo, paystackOk));
            var ok := u in db.users && paystackOk && id !in db.payments;
            && (r.error.None? <==> ok)
            && r.db == if ok then db.(payments := db.payments[id := Payment(u, kobo, Awaiting)]) else db
  {
  }

  // ---------- Payout requests ----------

  /** The nearest kobo to a number of millionths of a kobo, a tie going up. */
  predicate NearestKobo(kobo: int, millionths: int) {
    -500_000 < 1_000_000 * kobo - millionths <= 500_000
  }

  /** The converted amount and the fee in millionths of a kobo. */
  function Converted(s: Settings, cents: int): int {
    cents * s.rate * 10_000
  }

  function Charged(s: Settings, cents: int): int {
    if s.feeType == Percentage then cents * s.rate * s.percentage else s.fee * 1_000_000
  }

  /** The amount, and to the nearest kobo its conversion, the fee, and what is left. */
  predicate IsQuote(q: Quote, s: Settings, cents: int) {
    && q.amount == cents && NearestKobo(q.ngn, Converted(s, cents)) && NearestKobo(q.fee, Charged(s, cents))
    && NearestKobo(q.net, Converted(s, cents) - Charged(s, cents))
  }

  /** The account is one of the user's that are verified. */
  predicate CanReceive(banks: map<Id, BankAccount>, u: Id, b: Id) {
    b in banks && banks[b].user == u && banks[b].verified
  }

  /** The user can have a payout of the amount, to the account asked for or to any. */
  predicate MayWithdraw(db: Db, u: Id, cents: int, asked: Option<Id>) {
    && u in db.users && db.users[u].onboarded && cents <= db.users[u].earnings
    && (forall p :: p in db.payouts && db.payouts[p].user == u ==> db.payouts[p].status != Pending)
    && (if asked.Some? then CanReceive(db.banks, u, asked.value)
        else exists b :: b in db.banks && CanReceive(db.banks, u, b))
    && Converted(db.settings, cents) > Charged(db.settings, cents)
  }

  /** One payout row is added: of the user, quoted now, pending, and to the chosen account. */
  predicate Withdrawn(db: Db, u: Id, cents: int, asked: Option<Id>, choice: Option<Id>, id: Id,
                      session: Option<Id>, after: Db)
  {
    && choice.Some? && CanReceive(db.banks, u, choice.value) && (asked.Some? ==> choice == asked)
    && id in after.payouts && IsQuote(after.payouts[id].quote, db.settings, cents)
    && var row := Payout(u, after.payouts[id].quote, db.banks[choice.value].details, Pending, db.settings, session);
       after == db.(payouts := db.payouts[id := row])
  }

  lemma QuoteIsNearest(s: Settings, cents: int)
    ensures IsQuote(QuoteFor(s, cents), s, cents)
    ensures Accepted(s, cents) <==> Converted(s, cents) > Charged(s, cents)
  {
  }

  lemma CreatingPayout(db: Db, u: Id, cents: int, asked: Option<Id>, choice: Option<Id>, id: Id, session: Option<Id>)
    requires IsChoice(db.banks, u, asked, choice)
    ensures var r := CreatePayout(db, u, cents, asked, choice, id, session);
            var ok := MayWithdraw(db, u, cents, asked) && id !in db.payouts;
            && (r.error.None? <==> ok)
            && (if ok then Withdrawn(db, u, cents, asked, choice, id, session, r.db) else r.db == db)
  {
    QuoteIsNearest(db.settings, cents);
    assert HasPendingPayout(db.payouts, u)
           <==> exists p :: p in db.payouts && db.payouts[p].user == u && db.payouts[p].status == Pending;
    assert forall b :: VerifiedOf(db.banks, u, b) <==> CanReceive(db.banks, u, b);
  }

  /** createPayout */
  lemma AskingForPayout(db: Db, u: Id, cents: int, asked: Option<Id>, choice: Option<Id>, id: Id)
    requires AllowedRequest(db, CreatePayoutRequest(u, cents, asked, choice, id))
    ensures var r := HandleRequest(db, CreatePayoutRequest(u, cents, asked, choice, id));
            var ok := MayWithdraw(db, u, cents, asked) && id !in db.payouts;
            && (r.error.None? <==> ok)
            && (if ok then Withdrawn(db, u, cents, asked, choice, id, None, r.db) else r.db == db)
  {
    CreatingPayout(db, u, cents, asked, choice, id, None);
  }
}
