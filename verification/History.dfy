/** What one state says about every later one: the log only grows, and final statuses are final. */
module History {
  import opened Wrappers
  import opened Money
  import opened Database
  import opened MoneyOps
  import opened Profiles
  import opened Cards
  import opened Accounts
  import opened Requests
  import opened Widget
  import opened Platform
  import opened LifecycleProofs
  import opened BankProofs
  import Safety

  predicate PayoutLater(a: Payout, b: Payout) {
    b == a || (a.status == Pending && b == a.(status := b.status))
  }

  predicate CreditLater(a: CreditRequest, b: CreditRequest) {
    b == a || (a.status == Pending && b == a.(status := b.status))
  }

  predicate PaymentLater(a: Payment, b: Payment) {
    b == a || (a.status != Success && b == a.(status := b.status))
  }

  /**
   No user, payout, credit request or payment is removed; the log is only appended to; a payout or
   credit request that has left PENDING and a payment that is SUCCESS never change again; onboarding
   never reverts; no user loses the primary bank account.
   */
  ghost predicate Later(db: Db, after: Db) {
    && UsersKept(db.users, after.users)
    && db.txns <= after.txns
    && (forall p :: p in db.payouts ==> p in after.payouts && PayoutLater(db.payouts[p], after.payouts[p]))
    && (forall c :: c in db.credits ==> c in after.credits && CreditLater(db.credits[c], after.credits[c]))
    && (forall r :: r in db.payments ==> r in after.payments && PaymentLater(db.payments[r], after.payments[r]))
    && (forall u :: HasPrimary(db.banks, u) ==> HasPrimary(after.banks, u))
  }

  lemma LaterIsTransitive(a: Db, b: Db, c: Db)
    requires Later(a, b) && Later(b, c)
    ensures Later(a, c)
  {
  }

  lemma QuietIsLater(db: Db, after: Db)
    requires after == db.(users := after.users, onboardings := after.onboardings, sessions := after.sessions)
    requires UsersKept(db.users, after.users)
    ensures Later(db, after)
  {
  }

  lemma MoneyIsLater(db: Db, op: MoneyOp, dbOk: bool)
    ensures Later(db, Perform(db, op, dbOk).db)
  {
    PlansPost(db, op);
    PostingIsLater(db, Read(db, op));
  }

  lemma PostingIsLater(db: Db, p: Plan)
    requires MovesOn(db, p.row)
    ensures Later(db, Apply(db, p))
  {
  }

  lemma ProfileIsLater(db: Db, op: ProfileOp)
    requires AllowedProfile(op)
    ensures Later(db, HandleProfile(db, op).db)
  {
  }

  lemma FundingIsLater(db: Db, f: Funding)
    ensures Later(db, Fund(db, f).db)
  {
    var synced := ReadySync(db, f);
    if f.card in db.cards && db.cards[f.card].user == f.user && f.sudo.Some? {
      ProfileIsLater(db, SyncCard(f.card, f.sudo.value));
    }
    assert Later(db, synced);
    MoneyIsLater(synced, FundCard(f.card, f.user, f.amount, f.settlement, f.sudoBalance), f.dbOk);
    LaterIsTransitive(db, synced, Transfer(db, f).db);
  }

  lemma OnboardingKeepsUsers(db: Db, u: Id, found: Option<Id>, id: Id, dbOk: bool)
    requires IsOpenAnswer(db.onboardings, u, found)
    ensures UsersKept(db.users, AdminOnboard(db, u, found, id, dbOk).db.users)
  {
    var after := AdminOnboard(db, u, found, id, dbOk).db.users;
    assert after == db.users || (u in db.users && after == db.users[u := db.users[u].(onboarded := true)]);
  }

  lemma AdminOnboardIsLater(db: Db, u: Id, found: Option<Id>, id: Id, dbOk: bool)
    requires IsOpenAnswer(db.onboardings, u, found)
    ensures Later(db, AdminOnboard(db, u, found, id, dbOk).db)
  {
    OnboardingKeepsUsers(db, u, found, id, dbOk);
    QuietIsLater(db, AdminOnboard(db, u, found, id, dbOk).db);
  }

  lemma CreatePayoutIsLater(db: Db, u: Id, cents: int, asked: Option<Id>, choice: Option<Id>, id: Id,
                            session: Option<Id>)
    requires IsChoice(db.banks, u, asked, choice)
    ensures Later(db, CreatePayout(db, u, cents, asked, choice, id, session).db)
  {
  }

  lemma RequestIsLater(db: Db, op: RequestOp)
    requires AllowedRequest(db, op)
    ensures Later(db, HandleRequest(db, op).db)
  {
    match op
    case CompleteUserOnboarding(u, found, id, dbOk) => AdminOnboardIsLater(db, u, found, id, dbOk);
    case CreatePayoutRequest(u, amount, asked, choice, id) =>
      CreatePayoutIsLater(db, u, amount, asked, choice, id, None);
    case CreateOnboardingRequest(u, id) =>
    case CreateCreditRequest(u, amount, id) =>
    case InitializePaystack(u, id, kobo, paystackOk) =>
  }

  lemma ProcessIsLater(db: Db, s: Id, session: Session, choice: Option<Id>, rowId: Id, dbOk: bool)
    requires IsChoice(db.banks, session.user, None, choice)
    ensures Later(db, Process(db, s, session, choice, rowId, dbOk).db)
  {
    match session.trigger
    case ForOnboarding => QuietIsLater(db, CompleteOnboarding(db, session.user, rowId).db);
    case ForWithdrawal => WithdrawalIsLater(db, s, session, choice, rowId);
    case ForDeposit => DepositIsLater(db, s, session, dbOk);
  }

  lemma WithdrawalIsLater(db: Db, s: Id, session: Session, choice: Option<Id>, rowId: Id)
    requires IsChoice(db.banks, session.user, None, choice)
    ensures Later(db, CompleteWithdrawal(db, s, session, choice, rowId).db)
  {
    if AmountOf(session).Some? {
      CreatePayoutIsLater(db, session.user, AmountOf(session).value, None, choice, rowId, Some(s));
    }
  }

  lemma DepositIsLater(db: Db, s: Id, session: Session, dbOk: bool)
    ensures Later(db, CompleteDeposit(db, s, session, dbOk).db)
  {
    if AmountOf(session).Some? {
      MoneyIsLater(db, WidgetDeposit(s, session.user, AmountOf(session).value), dbOk);
    }
  }

  lemma CompleteIsLater(db: Db, s: Id, u: Id, choice: Option<Id>, rowId: Id, dbOk: bool, saveOk: bool)
    requires IsChoice(db.banks, u, None, choice)
    ensures Later(db, CompleteSession(db, s, u, choice, rowId, dbOk, saveOk).db)
  {
    var after := CompleteSession(db, s, u, choice, rowId, dbOk, saveOk).db;
    if after == db.(sessions := after.sessions) {
      QuietIsLater(db, after);
    } else {
      var done := Process(db, s, db.sessions[s], choice, rowId, dbOk).db;
      ProcessIsLater(db, s, db.sessions[s], choice, rowId, dbOk);
      QuietIsLater(done, after);
      LaterIsTransitive(db, done, after);
    }
  }

  lemma SessionIsLater(db: Db, op: SessionOp)
    requires AllowedSession(db, op)
    ensures Later(db, HandleSession(db, op).db)
  {
    match op
    case Complete(s, u, choice, rowId, dbOk, saveOk) => CompleteIsLater(db, s, u, choice, rowId, dbOk, saveOk);
    case Init(s, u, t) =>
    case Get(s, u) =>
    case Submit(s, u, step, amount, requestId) =>
  }

  lemma BankIsLater(db: Db, op: BankOp)
    requires BanksSound(db.banks) && AllowedBank(db, op)
    ensures Later(db, HandleBank(db, op).db)
  {
    BankOpsKeepBanks(db, op);
  }

  lemma LaterThanBefore(db: Db, now: Db, after: Db)
    requires now == db.(clock := now.clock) && Later(now, after)
    ensures Later(db, after)
  {
  }

  lemma StepIsLater(db: Db, e: Event)
    requires BanksSound(db.banks) && Allowed(db, e)
    ensures Later(db, Step(db, e))
  {
    var now := db.(clock := e.now);
    match e.op {
      case Profile(op) => ProfileIsLater(now, op);
      case MoveMoney(op, dbOk) => MoneyIsLater(now, op, dbOk);
      case FundFromWallet(f) => FundingIsLater(now, f);
      case Request(op) => RequestIsLater(now, op);
      case WidgetCall(op) => SessionIsLater(now, op);
      case Bank(op) => BankIsLater(now, op);
    }
    LaterThanBefore(db, now, Step(db, e));
  }

  /** Along any run, every state is later than every state before it. */
  lemma {:induction false} RunsGoForward(clock: int, settings: Settings, es: seq<Event>, k: nat)
    requires ValidSettings(settings) && AllowedRun(EmptyDb(clock, settings), es) && k <= |es|
    ensures AllowedRun(EmptyDb(clock, settings), es[..k])
    ensures Later(Run(EmptyDb(clock, settings), es[..k]), Run(EmptyDb(clock, settings), es))
  {
    var start := EmptyDb(clock, settings);
    if k == |es| {
      assert es[..k] == es;
    } else {
      var before := es[..|es| - 1];
      assert before[..k] == es[..k];
      RunsGoForward(clock, settings, before, k);
      Safety.ReachableInv(clock, settings, before);
      StepIsLater(Run(start, before), es[|es| - 1]);
      LaterIsTransitive(Run(start, es[..k]), Run(start, before), Run(start, es));
    }
  }
}
