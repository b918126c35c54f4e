/**
 The life of credit requests, payouts and payments: settled at most once, by exactly one record of
 the log, and never changed afterwards.
 */
module LifecycleProofs {
  import opened Wrappers
  import opened Money
  import opened Database
  import opened Ledger
  import opened MoneyOps
  import opened Profiles
  import opened Accounts
  import opened Requests
  import opened Widget

  function One(b: bool): nat {
    if b then 1 else 0
  }

  predicate Settled(db: Db, k: Key) {
    match k
    case CreditKey(c) => c in db.credits && db.credits[c].status == Completed
    case PayoutKey(p) => p in db.payouts && db.payouts[p].status == Completed
    case PaymentKey(r) => r in db.payments && db.payments[r].status == Success
    case SessionKey(_) => false
  }

  /** One record references each settled row and none references any other. */
  ghost predicate RecordedOnce(db: Db) {
    forall k: Key :: !k.SessionKey? ==> Refs(db.txns, k) == One(Settled(db, k))
  }

  /** What a record of a settled row says agrees with the row. */
  predicate RecordAgrees(db: Db, t: Txn) {
    && t.status == TxnCompleted
    && match t.source
       case BalanceCredit(c) => c in db.credits && db.credits[c].user == t.user
       case DirectRemittance(c) => c in db.credits && db.credits[c].user == t.user
       case PayoutSettled(p) =>
         && p in db.payouts && db.payouts[p].user == t.user && db.payouts[p].quote.amount == t.amount
         && var q := db.payouts[p].quote;
            t.ngn == Some(q.ngn) && t.finance == Some(Finance(q.ngn, RecoveredRate(q), q.fee, q.net))
       case WalletDeposit(r) => r in db.payments && db.payments[r].user == t.user && t.ngn == Some(t.amount)
       case _ => true
  }

  ghost predicate RecordsAgree(db: Db) {
    forall i :: 0 <= i < |db.txns| ==> RecordAgrees(db, db.txns[i])
  }

  /** A payout row was accepted under valid settings and stores the quote of those settings. */
  predicate PayoutSound(db: Db, p: Payout) {
    && p.user in db.users && db.users[p.user].onboarded
    && ValidSettings(p.quotedUnder) && Accepted(p.quotedUnder, p.quote.amount)
    && p.quote == QuoteFor(p.quotedUnder, p.quote.amount)
  }

  predicate CreditSound(db: Db, c: CreditRequest) {
    c.user in db.users && db.users[c.user].onboarded && c.amount > 0
  }

  ghost predicate RowsSound(db: Db) {
    && ValidSettings(db.settings)
    && (forall p :: p in db.payouts ==> PayoutSound(db, db.payouts[p]))
    && (forall c :: c in db.credits ==> CreditSound(db, db.credits[c]))
    && (forall r :: r in db.payments ==> db.payments[r].user in db.users)
  }

  predicate BothPending(a: Payout, b: Payout) {
    a.user == b.user && a.status == Pending && b.status == Pending
  }

  predicate BothWaiting(a: CreditRequest, b: CreditRequest) {
    a.user == b.user && a.status == Pending && b.status == Pending
  }

  predicate BothOpen(a: OnboardingRequest, b: OnboardingRequest) {
    a.user == b.user && a.open && b.open
  }

  ghost predicate OneOpen(onboardings: map<Id, OnboardingRequest>) {
    forall r, q :: r in onboardings && q in onboardings && BothOpen(onboardings[r], onboardings[q]) ==> r == q
  }

  /** A user has at most one pending payout, one pending credit request and one open onboarding request. */
  ghost predicate OnePending(db: Db) {
    && (forall p, q :: p in db.payouts && q in db.payouts && BothPending(db.payouts[p], db.payouts[q]) ==> p == q)
    && (forall c, d :: c in db.credits && d in db.credits && BothWaiting(db.credits[c], db.credits[d]) ==> c == d)
    && OneOpen(db.onboardings)
  }

  ghost predicate Lifecycle(db: Db) {
    RecordedOnce(db) && RecordsAgree(db) && RowsSound(db) && OnePending(db)
  }

  // ---------- One money operation ----------

  /** The row a write settles. */
  function SettledBy(w: RowWrite): Option<Key> {
    match w
    case CreditTo(c, Completed) => Some(CreditKey(c))
    case PayoutTo(p, Completed) => Some(PayoutKey(p))
    case PaymentTo(r, Success) => Some(PaymentKey(r))
    case _ => None
  }

  /** The row a write moves has not reached a final status, and does not go back to pending. */
  predicate MovesOn(db: Db, w: RowWrite) {
    match w
    case CreditTo(c, status) => c in db.credits && db.credits[c].status == Pending && status != Pending
    case PayoutTo(p, status) => p in db.payouts && db.payouts[p].status == Pending && status != Pending
    case PaymentTo(r, status) => r in db.payments && db.payments[r].status != Success && status != Awaiting
    case _ => true
  }

  /** A plan records a row exactly when it settles it, moves no row back, and records the truth. */
  predicate Posts(db: Db, p: Plan) {
    && MovesOn(db, p.row)
    && (if p.txn.None? then SettledBy(p.row) == None
        else && (|| KeyOf(p.txn.value) == SettledBy(p.row)
                 || (p.txn.value.source.WidgetCredit? && SettledBy(p.row) == None))
             && RecordAgrees(db, p.txn.value))
  }

  lemma PlansPost(db: Db, op: MoneyOp)
    ensures Posts(db, Read(db, op))
  {
  }

  lemma PostingRecordsOnce(db: Db, p: Plan)
    requires RecordedOnce(db) && Posts(db, p)
    ensures RecordedOnce(Apply(db, p))
  {
    var after := Apply(db, p);
    if p.txn.Some? {
      ReplayAppend(db.txns, Posted(db, p));
    }
    forall k: Key | !k.SessionKey?
      ensures Refs(after.txns, k) == One(Settled(after, k))
    {
      PostingSettles(db, p, k);
      assert Refs(db.txns, k) == One(Settled(db, k));
    }
  }

  /** A row is settled afterwards if it was before or the write settles it, and never both. */
  lemma PostingSettles(db: Db, p: Plan, k: Key)
    requires MovesOn(db, p.row)
    ensures Settled(Apply(db, p), k) <==> Settled(db, k) || SettledBy(p.row) == Some(k)
    ensures SettledBy(p.row) == Some(k) ==> !Settled(db, k)
  {
  }

  lemma PostingAgrees(db: Db, p: Plan)
    requires RecordsAgree(db) && Posts(db, p)
    ensures RecordsAgree(Apply(db, p))
  {
    var after := Apply(db, p);
    forall t: Txn | RecordAgrees(db, t)
      ensures RecordAgrees(after, t)
    {
    }
  }

  lemma PostingKeepsRows(db: Db, p: Plan)
    requires RowsSound(db) && OnePending(db) && Posts(db, p)
    ensures RowsSound(Apply(db, p)) && OnePending(Apply(db, p))
  {
  }

  lemma PerformKeepsLifecycle(db: Db, op: MoneyOp, dbOk: bool)
    requires Lifecycle(db)
    ensures Lifecycle(Perform(db, op, dbOk).db)
  {
    var p := Read(db, op);
    PlansPost(db, op);
    PostingRecordsOnce(db, p);
    PostingAgrees(db, p);
    PostingKeepsRows(db, p);
  }

  // ---------- Every other request ----------

  /** Users are never removed and never lose their onboarded status. */
  ghost predicate UsersKept(users: map<Id, User>, after: map<Id, User>) {
    forall u :: u in users ==> u in after && (users[u].onboarded ==> after[u].onboarded)
  }

  /** A change that leaves the log and the three settled tables alone. */
  lemma QuietKeepsLifecycle(db: Db, after: Db)
    requires Lifecycle(db) && OneOpen(after.onboardings)
    requires after.credits == db.credits && after.payouts == db.payouts && after.payments == db.payments
    requires after.txns == db.txns && UsersKept(db.users, after.users) && ValidSettings(after.settings)
    ensures Lifecycle(after)
  {
    assert forall k: Key :: Settled(after, k) == Settled(db, k);
    assert forall t :: RecordAgrees(db, t) ==> RecordAgrees(after, t);
  }

  lemma ProfilesKeepUsers(db: Db, op: ProfileOp)
    requires ValidSettings(db.settings) && AllowedProfile(op)
    ensures UsersKept(db.users, HandleProfile(db, op).db.users) && ValidSettings(HandleProfile(db, op).db.settings)
  {
  }

  lemma ProfilesKeepLifecycle(db: Db, op: ProfileOp)
    requires Lifecycle(db) && AllowedProfile(op)
    ensures Lifecycle(HandleProfile(db, op).db)
  {
    ProfilesKeepUsers(db, op);
    QuietKeepsLifecycle(db, HandleProfile(db, op).db);
  }

  lemma CreateOnboardingKeepsLifecycle(db: Db, u: Id, id: Id)
    requires Lifecycle(db)
    ensures Lifecycle(CreateOnboarding(db, u, id).db)
  {
    QuietKeepsLifecycle(db, CreateOnboarding(db, u, id).db);
  }

  lemma CompleteOnboardingKeepsLifecycle(db: Db, u: Id, id: Id)
    requires Lifecycle(db)
    ensures Lifecycle(CompleteOnboarding(db, u, id).db)
  {
    QuietKeepsLifecycle(db, CompleteOnboarding(db, u, id).db);
  }

  lemma InsertOnboardingKeepsLifecycle(db: Db, u: Id, id: Id)
    requires Lifecycle(db) && !HasOpen(db.onboardings, u)
    ensures Lifecycle(InsertOnboarding(db, u, id).db)
  {
    QuietKeepsLifecycle(db, InsertOnboarding(db, u, id).db);
  }

  lemma ClosingKeepsLifecycle(db: Db, u: Id, r: Id)
    requires Lifecycle(db) && u in db.users && r in db.onboardings
    ensures Lifecycle(CloseOnboarding(db, u, r))
  {
    var after := CloseOnboarding(db, u, r);
    assert OneOpen(after.onboardings) && UsersKept(db.users, after.users);
    QuietKeepsLifecycle(db, after);
  }

  lemma NoAnswerNoneOpen(onboardings: map<Id, OnboardingRequest>, u: Id)
    requires IsOpenAnswer(onboardings, u, None)
    ensures !HasOpen(onboardings, u)
  {
  }

  lemma InsertedIsThere(db: Db, u: Id, id: Id)
    ensures var r := InsertOnboarding(db, u, id);
            r.error.None? ==> id in r.db.onboardings && r.db.users == db.users
  {
  }

  lemma AdminOnboardKeepsLifecycle(db: Db, u: Id, found: Option<Id>, id: Id, dbOk: bool)
    requires Lifecycle(db) && IsOpenAnswer(db.onboardings, u, found)
    ensures Lifecycle(AdminOnboard(db, u, found, id, dbOk).db)
  {
    if u in db.users {
      if found.Some? {
        ClosingKeepsLifecycle(db, u, found.value);
      } else {
        NoAnswerNoneOpen(db.onboardings, u);
        InsertOnboardingKeepsLifecycle(db, u, id);
        InsertedIsThere(db, u, id);
        var ready := InsertOnboarding(db, u, id);
        if ready.error.None? {
          ClosingKeepsLifecycle(ready.db, u, id);
        }
      }
    }
  }

  lemma CreateCreditKeepsLifecycle(db: Db, u: Id, amount: int, id: Id)
    requires Lifecycle(db) && amount > 0
    ensures Lifecycle(CreateCredit(db, u, amount, id).db)
  {
    var r := CreateCredit(db, u, amount, id);
    if r.error.None? {
      InsertCreditKeepsLifecycle(db, id, r.db.credits[id]);
    }
  }

  lemma InsertCreditKeepsLifecycle(db: Db, id: Id, c: CreditRequest)
    requires Lifecycle(db) && id !in db.credits
    requires CreditSound(db, c) && c.status == Pending && !HasPendingCredit(db.credits, c.user)
    ensures Lifecycle(db.(credits := db.credits[id := c]))
  {
    var after := db.(credits := db.credits[id := c]);
    assert forall k: Key :: Settled(after, k) == Settled(db, k);
    assert forall t :: RecordAgrees(db, t) ==> RecordAgrees(after, t);
    forall d | d in db.credits && db.credits[d].user == c.user
      ensures db.credits[d].status != Pending
    {
      assert !PendingCredit(db.credits, c.user, d);
    }
  }

  lemma CreatePayoutKeepsLifecycle(db: Db, u: Id, cents: int, asked: Option<Id>, choice: Option<Id>, id: Id,
                                   session: Option<Id>)
    requires Lifecycle(db) && IsChoice(db.banks, u, asked, choice)
    ensures Lifecycle(CreatePayout(db, u, cents, asked, choice, id, session).db)
  {
    var r := CreatePayout(db, u, cents, asked, choice, id, session);
    if r.error.None? {
      var p := r.db.payouts[id];
      assert r.db.payouts == db.payouts[id := p];
      InsertPayoutKeepsLifecycle(db, id, p);
    }
  }

  lemma NewPayoutKeepsRecords(db: Db, id: Id, p: Payout)
    requires RecordedOnce(db) && RecordsAgree(db) && id !in db.payouts && p.status == Pending
    ensures var after := db.(payouts := db.payouts[id := p]);
            RecordedOnce(after) && RecordsAgree(after)
  {
    var after := db.(payouts := db.payouts[id := p]);
    assert forall k: Key :: Settled(after, k) == Settled(db, k);
    assert forall t :: RecordAgrees(db, t) ==> RecordAgrees(after, t);
  }

  lemma InsertPayoutKeepsLifecycle(db: Db, id: Id, p: Payout)
    requires Lifecycle(db) && id !in db.payouts
    requires PayoutSound(db, p) && p.status == Pending && !HasPendingPayout(db.payouts, p.user)
    ensures Lifecycle(db.(payouts := db.payouts[id := p]))
  {
    NewPayoutKeepsRecords(db, id, p);
    forall q | q in db.payouts
      ensures !BothPending(db.payouts[q], p)
    {
      assert !PendingPayout(db.payouts, p.user, q);
    }
  }

  lemma InitializeKeepsLifecycle(db: Db, u: Id, id: Id, kobo: int, paystackOk: bool)
    requires Lifecycle(db)
    ensures Lifecycle(InitializePayment(db, u, id, kobo, paystackOk).db)
  {
    var after := InitializePayment(db, u, id, kobo, paystackOk).db;
    assert forall k: Key :: Settled(after, k) == Settled(db, k);
    assert forall t :: RecordAgrees(db, t) ==> RecordAgrees(after, t);
  }

  lemma RequestsKeepLifecycle(db: Db, op: RequestOp)
    requires Lifecycle(db) && AllowedRequest(db, op)
    ensures Lifecycle(HandleRequest(db, op).db)
  {
    match op
    case CreateOnboardingRequest(u, id) => CreateOnboardingKeepsLifecycle(db, u, id);
    case CompleteUserOnboarding(u, found, id, dbOk) => AdminOnboardKeepsLifecycle(db, u, found, id, dbOk);
    case CreateCreditRequest(u, amount, id) => CreateCreditKeepsLifecycle(db, u, amount, id);
    case CreatePayoutRequest(u, amount, asked, choice, id) =>
      CreatePayoutKeepsLifecycle(db, u, amount, asked, choice, id, None);
    case InitializePaystack(u, id, kobo, paystackOk) => InitializeKeepsLifecycle(db, u, id, kobo, paystackOk);
  }

  lemma CompleteWithdrawalKeepsLifecycle(db: Db, s: Id, session: Session, choice: Option<Id>, rowId: Id)
    requires Lifecycle(db) && IsChoice(db.banks, session.user, None, choice)
    ensures Lifecycle(CompleteWithdrawal(db, s, session, choice, rowId).db)
  {
    if AmountOf(session).Some? {
      CreatePayoutKeepsLifecycle(db, session.user, AmountOf(session).value, None, choice, rowId, Some(s));
    }
  }

  lemma CompleteDepositKeepsLifecycle(db: Db, s: Id, session: Session, dbOk: bool)
    requires Lifecycle(db)
    ensures Lifecycle(CompleteDeposit(db, s, session, dbOk).db)
  {
    if AmountOf(session).Some? {
      PerformKeepsLifecycle(db, WidgetDeposit(s, session.user, AmountOf(session).value), dbOk);
    }
  }

  lemma ProcessKeepsLifecycle(db: Db, s: Id, session: Session, choice: Option<Id>, rowId: Id, dbOk: bool)
    requires Lifecycle(db) && IsChoice(db.banks, session.user, None, choice)
    ensures Lifecycle(Process(db, s, session, choice, rowId, dbOk).db)
  {
    match session.trigger
    case ForOnboarding => CompleteOnboardingKeepsLifecycle(db, session.user, rowId);
    case ForWithdrawal => CompleteWithdrawalKeepsLifecycle(db, s, session, choice, rowId);
    case ForDeposit => CompleteDepositKeepsLifecycle(db, s, session, dbOk);
  }

  lemma SubmitKeepsLifecycle(db: Db, s: Id, u: Id, step: WidgetStep, amount: Option<int>, requestId: Id)
    requires Lifecycle(db)
    ensures Lifecycle(SubmitStep(db, s, u, step, amount, requestId).db)
  {
    QuietKeepsLifecycle(db, SubmitStep(db, s, u, step, amount, requestId).db);
  }

  lemma CompleteKeepsLifecycle(db: Db, s: Id, u: Id, choice: Option<Id>, rowId: Id, dbOk: bool, saveOk: bool)
    requires Lifecycle(db) && IsChoice(db.banks, u, None, choice)
    ensures Lifecycle(CompleteSession(db, s, u, choice, rowId, dbOk, saveOk).db)
  {
    var after := CompleteSession(db, s, u, choice, rowId, dbOk, saveOk).db;
    if after == db.(sessions := after.sessions) {
      QuietKeepsLifecycle(db, after);
    } else {
      var done := Process(db, s, db.sessions[s], choice, rowId, dbOk).db;
      ProcessKeepsLifecycle(db, s, db.sessions[s], choice, rowId, dbOk);
      QuietKeepsLifecycle(done, after);
    }
  }

  lemma SessionsKeepLifecycle(db: Db, op: SessionOp)
    requires Lifecycle(db) && AllowedSession(db, op)
    ensures Lifecycle(HandleSession(db, op).db)
  {
    match op
    case Submit(s, u, step, amount, requestId) => SubmitKeepsLifecycle(db, s, u, step, amount, requestId);
    case Complete(s, u, choice, rowId, dbOk, saveOk) => CompleteKeepsLifecycle(db, s, u, choice, rowId, dbOk, saveOk);
    case _ => QuietKeepsLifecycle(db, HandleSession(db, op).db);
  }

  lemma BanksKeepLifecycle(db: Db, op: BankOp)
    requires Lifecycle(db) && AllowedBank(db, op)
    ensures Lifecycle(HandleBank(db, op).db)
  {
    QuietKeepsLifecycle(db, HandleBank(db, op).db);
  }
}
