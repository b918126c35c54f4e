/**
 Runs that lead where the platform is for, from any state: a new user is onboarded, earns and is paid, and
 what a user pays in reaches a card.
 */
module Journeys {
  import opened Wrappers
  import opened Money
  import opened Database
  import opened MoneyOps
  import opened Profiles
  import opened Cards
  import opened Accounts
  import opened Requests
  import opened Platform
  import opened MoneyEffects
  import opened RequestEffects
  import opened BankEffects

  /** The run is allowed and leads there. */
  ghost predicate Leads(db: Db, es: seq<Event>, after: Db) {
    AllowedRun(db, es) && Run(db, es) == after
  }

  lemma LeadsOn(db: Db, es: seq<Event>, k: nat, between: Db, after: Db)
    requires k < |es| && Leads(db, es[..k], between) && Allowed(between, es[k]) && Step(between, es[k]) == after
    ensures Leads(db, es[..k + 1], after)
    ensures k + 1 == |es| ==> Leads(db, es, after)
  {
    RunExtends(db, es[..k], es[k]);
    assert es[..k] + [es[k]] == es[..k + 1];
    assert k + 1 == |es| ==> es[..k + 1] == es;
  }

  lemma {:induction false} LeadsTogether(db: Db, es: seq<Event>, between: Db, fs: seq<Event>, after: Db)
    requires Leads(db, es, between) && Leads(between, fs, after)
    ensures Leads(db, es + fs, after)
  {
    if fs == [] {
      assert es + fs == es;
    } else {
      var n := |fs| - 1;
      LeadsTogether(db, es, between, fs[..n], Run(between, fs[..n]));
      assert (es + fs)[..|es| + n] == es + fs[..n];
      LeadsOn(db, es + fs, |es| + n, Run(between, fs[..n]), after);
    }
  }

  /** No row is about the user. */
  predicate Unknown(db: Db, u: Id) {
    && u !in db.users
    && (forall r :: r in db.onboardings ==> db.onboardings[r].user != u)
    && (forall c :: c in db.credits ==> db.credits[c].user != u)
    && (forall b :: b in db.banks ==> db.banks[b].user != u)
    && (forall p :: p in db.payouts ==> db.payouts[p].user != u)
  }

  // ---------- From sign-up to a payout ----------

  function Joining(now: int, u: Id, r: Id): seq<Event> {
    [Event(now, Profile(Signup(u))), Event(now, Profile(EditProfile(u, true, false))),
     Event(now, Request(CreateOnboardingRequest(u, r))),
     Event(now, Request(CompleteUserOnboarding(u, Some(r), r, true)))]
  }

  function Linked(db: Db, now: int, u: Id): Db {
    db.(clock := now, users := db.users[u := User(0, 0, false, true, false)])
  }

  lemma LinkingLeads(db: Db, now: int, u: Id, r: Id)
    requires u !in db.users && db.clock <= now
    ensures Leads(db, Joining(now, u, r)[..2], Linked(db, now, u))
  {
    var es := Joining(now, u, r);
    var signed := db.(clock := now, users := db.users[u := User(0, 0, false, false, false)]);
    EditingProfiles(db.(clock := now), Signup(u));
    LeadsOn(db, es, 0, db, signed);
    EditingProfiles(signed, EditProfile(u, true, false));
    assert Linked(db, now, u).users == signed.users[u := User(0, 0, false, true, false)];
    LeadsOn(db, es, 1, signed, Linked(db, now, u));
  }

  function Joined(db: Db, now: int, u: Id, r: Id): Db {
    db.(clock := now, users := db.users[u := User(0, 0, true, true, false)],
        onboardings := db.onboardings[r := OnboardingRequest(u, false, now)])
  }

  lemma OnboardedThen(db: Db, now: int, u: Id, r: Id)
    requires (forall q :: q in db.onboardings ==> db.onboardings[q].user != u) && r !in db.onboardings
    ensures var asked := Linked(db, now, u).(onboardings := db.onboardings[r := OnboardingRequest(u, true, now)]);
            var e := Event(now, Request(CompleteUserOnboarding(u, Some(r), r, true)));
            Allowed(asked, e) && Step(asked, e) == Joined(db, now, u, r)
  {
    var asked := Linked(db, now, u).(onboardings := db.onboardings[r := OnboardingRequest(u, true, now)]);
    assert OpenFor(asked.onboardings, u, r);
    CompletingOnboarding(asked, u, Some(r), r, true);
    assert Joined(db, now, u, r).users == asked.users[u := User(0, 0, true, true, false)];
    assert Joined(db, now, u, r).onboardings == asked.onboardings[r := OnboardingRequest(u, false, now)];
  }

  lemma JoiningLeads(db: Db, now: int, u: Id, r: Id)
    requires Unknown(db, u) && db.clock <= now && r !in db.onboardings
    ensures Leads(db, Joining(now, u, r), Joined(db, now, u, r))
  {
    var es, linked := Joining(now, u, r), Linked(db, now, u);
    var asked := linked.(onboardings := db.onboardings[r := OnboardingRequest(u, true, now)]);
    LinkingLeads(db, now, u, r);
    AskingToBeOnboarded(linked, u, r);
    LeadsOn(db, es, 2, linked, asked);
    OnboardedThen(db, now, u, r);
    LeadsOn(db, es, 3, asked, Joined(db, now, u, r));
  }

  function Earning(now: int, u: Id, amount: int, c: Id): seq<Event> {
    [Event(now, Request(CreateCreditRequest(u, amount, c))),
     Event(now, MoveMoney(ApproveCredit(c, None, Balance), true))]
  }

  function Earned(db: Db, u: Id, amount: int, c: Id): Db
    requires u in db.users
  {
    db.(users := db.users[u := db.users[u].(earnings := db.users[u].earnings + amount)],
        credits := db.credits[c := CreditRequest(u, amount, Completed)],
        txns := db.txns + [Txn(u, BalanceCredit(c), amount, None, None, TxnCompleted, db.clock)])
  }

  lemma EarningLeads(db: Db, u: Id, amount: int, c: Id)
    requires u in db.users && db.users[u].onboarded && c !in db.credits && amount >= 100
    requires forall d :: d in db.credits && db.credits[d].user == u ==> db.credits[d].status != Pending
    ensures Leads(db, Earning(db.clock, u, amount, c), Earned(db, u, amount, c))
  {
    var es := Earning(db.clock, u, amount, c);
    var asked := db.(credits := db.credits[c := CreditRequest(u, amount, Pending)]);
    AskingForCredit(db, u, amount, c);
    LeadsOn(db, es, 0, db, asked);
    ApprovingCredit(asked, c, None, Balance, true);
    assert Earned(db, u, amount, c).credits == asked.credits[c := CreditRequest(u, amount, Completed)];
    LeadsOn(db, es, 1, asked, Earned(db, u, amount, c));
  }

  function Banking(now: int, u: Id, d: BankDetails, b: Id, otp: Otp): seq<Event> {
    [Event(now, Bank(AddBankAccount(u, d, None, b, otp, true))),
     Event(now, Bank(VerifyBankAccount(u, b, otp.code, true, true))),
     Event(now, Bank(SetPrimaryBankAccount(u, b, true)))]
  }

  function Banked(db: Db, u: Id, d: BankDetails, b: Id): Db {
    db.(banks := db.banks[b := BankAccount(u, d, true, true, None, db.clock)])
  }

  lemma OnlyAccountBecomesPrimary(db: Db, u: Id, d: BankDetails, b: Id)
    requires forall x :: x in db.banks ==> db.banks[x].user != u
    ensures var verified := db.(banks := db.banks[b := BankAccount(u, d, true, false, None, db.clock)]);
            Step(verified, Event(db.clock, Bank(SetPrimaryBankAccount(u, b, true)))) == Banked(db, u, d, b)
  {
    var verified := db.(banks := db.banks[b := BankAccount(u, d, true, false, None, db.clock)]);
    SettingPrimary(verified, u, b, true);
    assert HandleBank(verified, SetPrimaryBankAccount(u, b, true)).db.banks == Banked(db, u, d, b).banks;
  }

  lemma BankingLeads(db: Db, u: Id, d: BankDetails, b: Id, otp: Otp)
    requires u in db.users && b !in db.banks && db.clock <= otp.expires
    requires forall x :: x in db.banks ==> db.banks[x].user != u
    ensures Leads(db, Banking(db.clock, u, d, b, otp), Banked(db, u, d, b))
  {
    var es := Banking(db.clock, u, d, b, otp);
    var added := db.(banks := db.banks[b := BankAccount(u, d, false, false, Some(otp), db.clock)]);
    var verified := db.(banks := db.banks[b := BankAccount(u, d, true, false, None, db.clock)]);
    Adding(db, u, d, None, b, otp, true);
    LeadsOn(db, es, 0, db, added);
    Verifying(added, u, b, otp.code, true, true);
    assert verified.banks == added.banks[b := BankAccount(u, d, true, false, None, db.clock)];
    LeadsOn(db, es, 1, added, verified);
    OnlyAccountBecomesPrimary(db, u, d, b);
    LeadsOn(db, es, 2, verified, Banked(db, u, d, b));
  }

  function Withdrawing(now: int, u: Id, amount: int, b: Id, p: Id): seq<Event> {
    [Event(now, Request(CreatePayoutRequest(u, amount, None, Some(b), p))),
     Event(now, MoveMoney(ProcessPayout(p, Sent), true))]
  }

  /** The payout is completed, to those details, and recorded, and all else is as before. */
  predicate PaidTo(db: Db, u: Id, amount: int, d: BankDetails, p: Id, after: Db)
    requires u in db.users
  {
    && p in after.payouts && IsQuote(after.payouts[p].quote, db.settings, amount)
    && |after.txns| == |db.txns| + 1 && after.txns[|db.txns|].finance.Some?
    && var q, rate := after.payouts[p].quote, after.txns[|db.txns|].finance.value.rate;
       && IsRate(q, rate)
       && after == db.(users := db.users[u := db.users[u].(earnings := db.users[u].earnings - amount)],
                       payouts := db.payouts[p := Payout(u, q, d, Completed, db.settings, None)],
                       txns := db.txns + [Txn(u, PayoutSettled(p), amount, Some(q.ngn),
                                              Some(Finance(q.ngn, rate, q.fee, q.net)), TxnCompleted, db.clock)])
  }

  lemma ProcessedThen(db: Db, u: Id, amount: int, d: BankDetails, p: Id, q: Quote)
    requires u in db.users && amount <= db.users[u].earnings && d.number != "" && d.code != ""
    requires IsQuote(q, db.settings, amount)
    ensures var asked := db.(payouts := db.payouts[p := Payout(u, q, d, Pending, db.settings, None)]);
            PaidTo(db, u, amount, d, p, Step(asked, Event(db.clock, MoveMoney(ProcessPayout(p, Sent), true))))
  {
    var asked := db.(payouts := db.payouts[p := Payout(u, q, d, Pending, db.settings, None)]);
    ProcessingPayout(asked, p, Sent, true);
    assert asked.payouts[p := Payout(u, q, d, Completed, db.settings, None)]
           == db.payouts[p := Payout(u, q, d, Completed, db.settings, None)];
  }

  lemma WithdrawingLeads(db: Db, u: Id, amount: int, d: BankDetails, b: Id, p: Id) returns (after: Db)
    requires u in db.users && db.users[u].onboarded && 1 <= amount <= db.users[u].earnings && p !in db.payouts
    requires b in db.banks && db.banks[b].user == u && db.banks[b].details == d
    requires db.banks[b].verified && db.banks[b].primary && d.number != "" && d.code != ""
    requires forall q :: q in db.payouts && db.payouts[q].user == u ==> db.payouts[q].status != Pending
    requires Converted(db.settings, amount) > Charged(db.settings, amount)
    ensures Leads(db, Withdrawing(db.clock, u, amount, b, p), after) && PaidTo(db, u, amount, d, p, after)
  {
    var es := Withdrawing(db.clock, u, amount, b, p);
    assert IsChoice(db.banks, u, None, Some(b));
    var asked := Step(db, es[0]);
    AskingForPayout(db, u, amount, None, Some(b), p);
    LeadsOn(db, es, 0, db, asked);
    ProcessedThen(db, u, amount, d, p, asked.payouts[p].quote);
    after := Step(asked, es[1]);
    LeadsOn(db, es, 1, asked, after);
  }

  function Preparing(now: int, u: Id, amount: int, d: BankDetails, r: Id, c: Id, b: Id, otp: Otp): seq<Event> {
    Joining(now, u, r) + (Earning(now, u, amount, c) + Banking(now, u, d, b, otp))
  }

  function Prepared(db: Db, now: int, u: Id, amount: int, d: BankDetails, r: Id, c: Id, b: Id): Db {
    Banked(Earned(Joined(db, now, u, r), u, amount, c), u, d, b)
  }

  lemma PreparingLeads(db: Db, now: int, u: Id, amount: int, d: BankDetails, r: Id, c: Id, b: Id, otp: Otp)
    requires Unknown(db, u) && db.clock <= now <= otp.expires
    requires r !in db.onboardings && c !in db.credits && b !in db.banks && amount >= 100
    ensures Leads(db, Preparing(now, u, amount, d, r, c, b, otp), Prepared(db, now, u, amount, d, r, c, b))
  {
    var joined := Joined(db, now, u, r);
    var earned := Earned(joined, u, amount, c);
    var prepared := Prepared(db, now, u, amount, d, r, c, b);
    JoiningLeads(db, now, u, r);
    EarningLeads(joined, u, amount, c);
    BankingLeads(earned, u, d, b, otp);
    LeadsTogether(joined, Earning(now, u, amount, c), earned, Banking(now, u, d, b, otp), prepared);
    LeadsTogether(db, Joining(now, u, r), joined, Earning(now, u, amount, c) + Banking(now, u, d, b, otp), prepared);
  }

  lemma NothingIsLeft(db: Db, now: int, u: Id, amount: int, d: BankDetails, r: Id, c: Id, b: Id, p: Id, after: Db)
    requires PaidTo(Prepared(db, now, u, amount, d, r, c, b), u, amount, d, p, after)
    ensures after.users == db.users[u := User(0, 0, true, true, false)]
  {
  }

  /**
   In whatever state the platform is, and whatever its rate and fee, as long as they leave something: a new
   user can be onboarded, earn any amount from a dollar on, and be paid all of it.
   */
  lemma NewUsersCanBePaid(db: Db, now: int, u: Id, amount: int, d: BankDetails, r: Id, c: Id, b: Id, p: Id, otp: Otp)
    requires Unknown(db, u) && db.clock <= now <= otp.expires
    requires r !in db.onboardings && c !in db.credits && b !in db.banks && p !in db.payouts
    requires amount >= 100 && d.number != "" && d.code != ""
    requires Converted(db.settings, amount) > Charged(db.settings, amount)
    ensures var prepared := Prepared(db, now, u, amount, d, r, c, b);
            var es := Preparing(now, u, amount, d, r, c, b, otp) + Withdrawing(now, u, amount, b, p);
            exists after :: && Leads(db, es, after) && PaidTo(prepared, u, amount, d, p, after)
                            && after.users == db.users[u := User(0, 0, true, true, false)]
  {
    PreparingLeads(db, now, u, amount, d, r, c, b, otp);
    var prepared := Prepared(db, now, u, amount, d, r, c, b);
    var after := WithdrawingLeads(prepared, u, amount, d, b, p);
    NothingIsLeft(db, now, u, amount, d, r, c, b, p, after);
    LeadsTogether(db, Preparing(now, u, amount, d, r, c, b, otp), prepared, Withdrawing(now, u, amount, b, p), after);
  }

  // ---------- From Paystack to a card ----------

  function ToppingUp(now: int, u: Id, kobo: int, y: Id, c: Id, naira: bool, number: string, saved: bool): seq<Event> {
    [Event(now, Request(InitializePaystack(u, y, kobo, true))),
     Event(now, MoveMoney(VerifyPayment(y, Paid(kobo)), true)),
     Event(now, Profile(CreateCard(c, u, naira, number))),
     Event(now, FundFromWallet(Funding(c, u, kobo, None, saved, Sent, None, true)))]
  }

  function Deposited(db: Db, now: int, u: Id, kobo: int, y: Id): Db
    requires u in db.users
  {
    db.(clock := now, users := db.users[u := db.users[u].(wallet := db.users[u].wallet + kobo)],
        payments := db.payments[y := Payment(u, kobo, Success)],
        txns := db.txns + [Txn(u, WalletDeposit(y), kobo, Some(kobo), None, TxnCompleted, now)])
  }

  lemma DepositingLeads(db: Db, now: int, u: Id, kobo: int, y: Id, c: Id, naira: bool, number: string, saved: bool)
    requires u in db.users && db.clock <= now && kobo >= 100 && y !in db.payments
    ensures Leads(db, ToppingUp(now, u, kobo, y, c, naira, number, saved)[..2], Deposited(db, now, u, kobo, y))
  {
    var es := ToppingUp(now, u, kobo, y, c, naira, number, saved);
    var asked := db.(clock := now, payments := db.payments[y := Payment(u, kobo, Awaiting)]);
    AskingToPay(db.(clock := now), u, y, kobo, true);
    LeadsOn(db, es, 0, db, asked);
    VerifyingPayment(asked, y, Paid(kobo), true);
    assert Deposited(db, now, u, kobo, y).payments == asked.payments[y := Payment(u, kobo, Success)];
    LeadsOn(db, es, 1, asked, Deposited(db, now, u, kobo, y));
  }

  function OnCard(db: Db, now: int, u: Id, kobo: int, y: Id, c: Id, naira: bool, number: string): Db {
    db.(clock := now, payments := db.payments[y := Payment(u, kobo, Success)],
        cards := db.cards[c := Card(u, kobo, naira, number)],
        txns := db.txns + [Txn(u, WalletDeposit(y), kobo, Some(kobo), None, TxnCompleted, now),
                           Txn(u, CardFunding(c), kobo, if naira then Some(kobo) else None, None, TxnCompleted, now)],
        cardTxns := db.cardTxns + [CardTxn(c, u, kobo)])
  }

  lemma FundingNewCard(db: Db, cards: map<Id, Card>, u: Id, kobo: int, c: Id, naira: bool, number: string, saved: bool)
    requires u in db.users && kobo <= db.users[u].wallet
    ensures var f := Funding(c, u, kobo, None, saved, Sent, None, true);
            var ngn := if naira then Some(kobo) else None;
            Fund(db.(cards := cards[c := Card(u, 0, naira, number)]), f)
            == Ok(db.(users := db.users[u := db.users[u].(wallet := db.users[u].wallet - kobo)],
                      cards := cards[c := Card(u, kobo, naira, number)],
                      txns := db.txns + [Txn(u, CardFunding(c), kobo, ngn, None, TxnCompleted, db.clock)],
                      cardTxns := db.cardTxns + [CardTxn(c, u, kobo)]))
  {
    var carded := db.(cards := cards[c := Card(u, 0, naira, number)]);
    FundingCard(carded, Funding(c, u, kobo, None, saved, Sent, None, true));
    assert carded.cards[c := Card(u, kobo, naira, number)] == cards[c := Card(u, kobo, naira, number)];
  }

  lemma FundedThen(db: Db, now: int, u: Id, kobo: int, y: Id, c: Id, naira: bool, number: string, saved: bool)
    requires u in db.users && db.users[u].wallet >= 0 && y !in db.payments
    ensures var deposited := Deposited(db, now, u, kobo, y);
            var f := Funding(c, u, kobo, None, saved, Sent, None, true);
            Fund(deposited.(cards := db.cards[c := Card(u, 0, naira, number)]), f).db
            == OnCard(db, now, u, kobo, y, c, naira, number)
  {
    FundingNewCard(Deposited(db, now, u, kobo, y), db.cards, u, kobo, c, naira, number, saved);
    assert Deposited(db, now, u, kobo, y).users[u := db.users[u]] == db.users;
  }

  /** What a user pays in can go to a new card, to the kobo, and leaves both balances as they were. */
  lemma DepositsReachACard(db: Db, now: int, u: Id, kobo: int, y: Id, c: Id, naira: bool, number: string, saved: bool)
    requires u in db.users && db.users[u].wallet >= 0 && db.clock <= now
    requires kobo >= 100 && y !in db.payments && c !in db.cards
    ensures Leads(db, ToppingUp(now, u, kobo, y, c, naira, number, saved),
                  OnCard(db, now, u, kobo, y, c, naira, number))
  {
    var es, deposited := ToppingUp(now, u, kobo, y, c, naira, number, saved), Deposited(db, now, u, kobo, y);
    var carded := deposited.(cards := db.cards[c := Card(u, 0, naira, number)]);
    DepositingLeads(db, now, u, kobo, y, c, naira, number, saved);
    EditingProfiles(deposited, CreateCard(c, u, naira, number));
    LeadsOn(db, es, 2, deposited, carded);
    FundedThen(db, now, u, kobo, y, c, naira, number, saved);
    LeadsOn(db, es, 3, carded, OnCard(db, now, u, kobo, y, c, naira, number));
  }
}
