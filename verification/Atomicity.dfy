/** What a refused or failed request leaves behind. */
module Atomicity {
  import opened Wrappers
  import opened Money
  import opened Database
  import opened Ledger
  import opened MoneyOps
  import opened Profiles
  import opened Cards
  import opened Accounts
  import opened Requests
  import opened Widget
  import opened Platform
  import opened LifecycleProofs
  import opened WidgetProofs

  /** Balances, requests, payouts and both kinds of records are as they were. */
  predicate SameMoney(db: Db, after: Db) {
    && after.users == db.users && after.credits == db.credits && after.payouts == db.payouts
    && after.txns == db.txns && after.cardTxns == db.cardTxns
  }

  /** So are the cards and bank accounts, which are not money. */
  predicate SameAccounts(db: Db, after: Db) {
    after.cards == db.cards && after.banks == db.banks
  }

  /** The one write a refused operation may keep: a declined payment is marked FAILED. */
  predicate SamePayments(payments: map<Id, Payment>, after: map<Id, Payment>) {
    after.Keys == payments.Keys &&
    forall r :: r in payments ==>
      after[r] == payments[r] || (payments[r].status != Success && after[r] == payments[r].(status := Failed))
  }

  /** An operation that refuses plans no write, except the FAILED mark of a declined payment. */
  lemma RefusalsWriteNothing(db: Db, op: MoneyOp)
    requires Read(db, op).error.Some?
    ensures var p := Read(db, op);
            && p.user == KeepUser && p.txn.None? && p.cardTxn.None?
            && if op.VerifyPayment? && op.answer == Declined && op.payment in db.payments
               then db.payments[op.payment].status != Success && p.row == PaymentTo(op.payment, Failed)
               else p.row == KeepRow
  {
  }

  /**
   Whatever fails inside a money operation, a check, an external call or a write of the database
   transaction, nothing of it remains, except that a payment Paystack declined is marked FAILED.
   */
  lemma MoneyIsAllOrNothing(db: Db, op: MoneyOp, dbOk: bool)
    requires Perform(db, op, dbOk).error.Some?
    ensures var after := Perform(db, op, dbOk).db;
            && SameMoney(db, after) && SameAccounts(db, after) && SamePayments(db.payments, after.payments)
            && (!(op.VerifyPayment? && op.answer == Declined) ==> after == db)
  {
    if Read(db, op).error.Some? {
      RefusalsWriteNothing(db, op);
    }
  }

  /** What createPayout asks for, of an onboarded user with an amount. */
  predicate CanWithdraw(db: Db, u: Id, amount: int, choice: Option<Id>, rowId: Id)
    requires u in db.users
  {
    && db.users[u].earnings >= amount && !HasPendingPayout(db.payouts, u) && choice.Some?
    && Accepted(db.settings, amount) && rowId !in db.payouts
  }

  lemma WithdrawingIff(db: Db, s: Id, session: Session, choice: Option<Id>, rowId: Id)
    requires session.user in db.users && db.users[session.user].onboarded && AmountOf(session).Some?
    requires IsChoice(db.banks, session.user, None, choice)
    ensures var r := CompleteWithdrawal(db, s, session, choice, rowId);
            && (r.error.None? <==> CanWithdraw(db, session.user, AmountOf(session).value, choice, rowId))
            && (r.error.None? ==> r.db.payouts.Keys == db.payouts.Keys + {rowId})
            && (HasPendingPayout(db.payouts, session.user) ==> r == Reply(db, Some(BadRequest)))
  {
  }

  /** The withdrawal goes through: the session has an amount, and createPayout accepts it. */
  predicate Withdraws(db: Db, session: Session, choice: Option<Id>, rowId: Id) {
    && AmountOf(session).Some? && session.user in db.users && db.users[session.user].onboarded
    && CanWithdraw(db, session.user, AmountOf(session).value, choice, rowId)
  }

  /** The work of the session's trigger moves money or makes a payout. */
  predicate Works(db: Db, session: Session, choice: Option<Id>, rowId: Id, dbOk: bool) {
    match session.trigger
    case ForOnboarding => false
    case ForWithdrawal => Withdraws(db, session, choice, rowId)
    case ForDeposit => dbOk && AmountOf(session).Some? && session.user in db.users
  }

  /** completeSession does its work, and then the session row cannot be saved. */
  predicate WorkIsNotSaved(db: Db, op: SessionOp) {
    && op.Complete? && !op.saveOk && op.session in db.sessions
    && var session := db.sessions[op.session];
       && session.user == op.user && session.status != Finished && db.clock - session.lastActivity <= HOUR
       && Works(db, session, op.choice, op.rowId, op.dbOk)
  }

  // ---------- Widget calls ----------

  lemma WithdrawalShows(db: Db, s: Id, session: Session, choice: Option<Id>, rowId: Id, dbOk: bool)
    requires session.trigger == ForWithdrawal && IsChoice(db.banks, session.user, None, choice)
    ensures SameMoney(db, Process(db, s, session, choice, rowId, dbOk).db) <==> !Withdraws(db, session, choice, rowId)
  {
    var r := CompleteWithdrawal(db, s, session, choice, rowId);
    if AmountOf(session).Some? && session.user in db.users && db.users[session.user].onboarded {
      WithdrawingIff(db, s, session, choice, rowId);
    }
    if r.error.None? {
      assert rowId in r.db.payouts.Keys && rowId !in db.payouts.Keys;
    }
  }

  lemma DepositShows(db: Db, s: Id, session: Session, choice: Option<Id>, rowId: Id, dbOk: bool)
    requires session.trigger == ForDeposit && IsChoice(db.banks, session.user, None, choice)
    ensures SameMoney(db, Process(db, s, session, choice, rowId, dbOk).db)
            <==> !Works(db, session, choice, rowId, dbOk)
  {
    var r := CompleteDeposit(db, s, session, dbOk);
    if Works(db, session, choice, rowId, dbOk) {
      assert |r.db.txns| == |db.txns| + 1;
    } else {
      assert r.db == db;
    }
  }

  lemma WorkShows(db: Db, s: Id, session: Session, choice: Option<Id>, rowId: Id, dbOk: bool)
    requires IsChoice(db.banks, session.user, None, choice)
    ensures SameMoney(db, Process(db, s, session, choice, rowId, dbOk).db)
            <==> !Works(db, session, choice, rowId, dbOk)
  {
    if session.trigger == ForDeposit {
      DepositShows(db, s, session, choice, rowId, dbOk);
    } else if session.trigger == ForWithdrawal {
      WithdrawalShows(db, s, session, choice, rowId, dbOk);
    } else {
      OnboardingShows(db, s, session, choice, rowId, dbOk);
    }
  }

  lemma OnboardingShows(db: Db, s: Id, session: Session, choice: Option<Id>, rowId: Id, dbOk: bool)
    requires session.trigger == ForOnboarding && IsChoice(db.banks, session.user, None, choice)
    ensures SameMoney(db, Process(db, s, session, choice, rowId, dbOk).db)
  {
  }

  lemma FailedCompletion(db: Db, s: Id, u: Id, choice: Option<Id>, rowId: Id, dbOk: bool, saveOk: bool)
    requires IsChoice(db.banks, u, None, choice)
    requires CompleteSession(db, s, u, choice, rowId, dbOk, saveOk).error.Some?
    ensures SameMoney(db, CompleteSession(db, s, u, choice, rowId, dbOk, saveOk).db)
            <==> !WorkIsNotSaved(db, Complete(s, u, choice, rowId, dbOk, saveOk))
  {
    var after := CompleteSession(db, s, u, choice, rowId, dbOk, saveOk).db;
    if GetSession(db, s, u).error.None? && db.sessions[s].status != Finished {
      var done := Process(db, s, db.sessions[s], choice, rowId, dbOk);
      WorkShows(db, s, db.sessions[s], choice, rowId, dbOk);
      assert after == done.db;
      assert saveOk ==> done.db == db;
    } else {
      assert SameMoney(db, after);
    }
  }

  /** A widget call that fails leaves the money as it was exactly if it is not the save of its work that failed. */
  lemma FailedSessions(db: Db, op: SessionOp)
    requires AllowedSession(db, op) && HandleSession(db, op).error.Some?
    ensures SameMoney(db, HandleSession(db, op).db) <==> !WorkIsNotSaved(db, op)
    ensures HandleSession(db, op).db.payments == db.payments && SameAccounts(db, HandleSession(db, op).db)
  {
    SessionsWriteNoPayment(db, op);
    match op
    case Complete(s, u, choice, rowId, dbOk, saveOk) => FailedCompletion(db, s, u, choice, rowId, dbOk, saveOk);
    case _ => assert SameMoney(db, HandleSession(db, op).db);
  }

  /** If the last save succeeds, a widget call that fails moves no money and makes no request. */
  lemma SessionIsAllOrNothing(db: Db, op: SessionOp)
    requires AllowedSession(db, op) && HandleSession(db, op).error.Some?
    requires op.Complete? ==> op.saveOk
    ensures var after := HandleSession(db, op).db;
            && SameMoney(db, after) && SameAccounts(db, after)
            && after.payments == db.payments && after.onboardings == db.onboardings
  {
  }

  lemma SessionsWriteNoPayment(db: Db, op: SessionOp)
    requires AllowedSession(db, op)
    ensures HandleSession(db, op).db.payments == db.payments && SameAccounts(db, HandleSession(db, op).db)
  {
  }

  lemma RequestIsAllOrNothing(db: Db, op: RequestOp)
    requires AllowedRequest(db, op) && HandleRequest(db, op).error.Some?
    ensures var after := HandleRequest(db, op).db;
            SameMoney(db, after) && SameAccounts(db, after) && after.payments == db.payments
  {
  }

  // ---------- Bank requests ----------

  /** A bank request whose row is written before what follows fails: the mail, or reloading the row. */
  predicate FailsAfterTheWrite(db: Db, op: BankOp) {
    match op
    case AddBankAccount(u, d, found, id, otp, mailOk) =>
      && !mailOk && u in db.users
      && (found.Some? ==> found.value in db.banks && !db.banks[found.value].verified
                          && db.banks[found.value].otp != Some(otp))
      && (found.None? ==> id !in db.banks)
    case VerifyBankAccount(u, b, code, dbOk, reloadOk) =>
      && dbOk && !reloadOk && OwnedBy(db.banks, u, b) && !db.banks[b].verified
      && db.banks[b].otp.Some? && db.banks[b].otp.value.code == code && db.clock <= db.banks[b].otp.value.expires
    case _ => false
  }

  lemma FailedAdding(db: Db, u: Id, d: BankDetails, found: Option<Id>, id: Id, otp: Otp, mailOk: bool)
    requires IsLookup(db.banks, u, d, found) && AddBank(db, u, d, found, id, otp, mailOk).error.Some?
    ensures AddBank(db, u, d, found, id, otp, mailOk).db == db
            <==> !FailsAfterTheWrite(db, AddBankAccount(u, d, found, id, otp, mailOk))
  {
    var after := AddBank(db, u, d, found, id, otp, mailOk).db;
    if FailsAfterTheWrite(db, AddBankAccount(u, d, found, id, otp, mailOk)) {
      var b := if found.Some? then found.value else id;
      assert b in after.banks && (b !in db.banks || after.banks[b] != db.banks[b]);
    } else if found.Some? {
      assert db.banks[found.value].otp == Some(otp) ==>
          Reissue(db.banks, found.value, otp)[found.value].otp == Some(otp);
      assert !db.banks[found.value].verified && db.banks[found.value].otp == Some(otp) ==>
          Reissue(db.banks, found.value, otp) == db.banks;
    }
  }

  lemma FailedVerifying(db: Db, u: Id, b: Id, code: int, dbOk: bool, reloadOk: bool)
    requires VerifyBank(db, u, b, code, dbOk, reloadOk).error.Some?
    ensures VerifyBank(db, u, b, code, dbOk, reloadOk).db == db
            <==> !FailsAfterTheWrite(db, VerifyBankAccount(u, b, code, dbOk, reloadOk))
  {
    if FailsAfterTheWrite(db, VerifyBankAccount(u, b, code, dbOk, reloadOk)) {
      assert VerifyBank(db, u, b, code, dbOk, reloadOk).db.banks[b].verified;
    }
  }

  /** A bank request that ends in an error leaves the rows alone exactly if it did not fail after its write. */
  lemma FailedBankRequests(db: Db, op: BankOp)
    requires AllowedBank(db, op) && HandleBank(db, op).error.Some?
    ensures HandleBank(db, op).db == db <==> !FailsAfterTheWrite(db, op)
  {
    match op
    case AddBankAccount(u, d, found, id, otp, mailOk) => FailedAdding(db, u, d, found, id, otp, mailOk);
    case VerifyBankAccount(u, b, code, dbOk, reloadOk) => FailedVerifying(db, u, b, code, dbOk, reloadOk);
    case _ => assert HandleBank(db, op).db == db;
  }

  // ---------- Any request ----------

  lemma RefusedProfilesStay(db: Db, op: ProfileOp)
    requires AllowedProfile(op) && HandleProfile(db, op).error.Some?
    ensures HandleProfile(db, op).db == db
  {
  }

  lemma FailedBankStep(db: Db, e: Event)
    requires Allowed(db, e) && e.op.Bank? && Handle(db, e).error.Some?
    ensures Step(db, e) == db.(clock := e.now, banks := Step(db, e).banks)
    ensures Step(db, e).banks == db.banks <==> !FailsAfterTheWrite(db.(clock := e.now), e.op.bank)
  {
    FailedBankRequests(db.(clock := e.now), e.op.bank);
  }

  /** A funding that fails leaves the card synced, if that was saved, and everything else as it was. */
  lemma FailedFunding(db: Db, f: Funding)
    requires Fund(db, f).error.Some?
    ensures Fund(db, f).db == db.(cards := if f.saved then ReadySync(db, f).cards else db.cards)
  {
  }

  lemma OtherFailures(db: Db, e: Event)
    requires Allowed(db, e) && (e.op.Profile? || e.op.MoveMoney? || e.op.Request?) && Handle(db, e).error.Some?
    ensures var after := Step(db, e);
            SameMoney(db, after) && SameAccounts(db, after) && SamePayments(db.payments, after.payments)
  {
    var now := db.(clock := e.now);
    match e.op
    case Profile(op) => RefusedProfilesStay(now, op);
    case MoveMoney(op, dbOk) => MoneyIsAllOrNothing(now, op, dbOk);
    case Request(op) => RequestIsAllOrNothing(now, op);
  }

  /**
   Any request that ends in an error leaves every balance, row and record of money as it was, unless it
   is a completeSession whose last save failed after its work; the cards, unless it is a funding, which
   leaves the card synced if it saved that; and the bank accounts, unless it is a bank request that
   failed after its write.
   */
  lemma FailedRequestsMoveNoMoney(db: Db, e: Event)
    requires Allowed(db, e) && Handle(db, e).error.Some?
    ensures SamePayments(db.payments, Step(db, e).payments)
    ensures SameMoney(db, Step(db, e))
            <==> !(e.op.WidgetCall? && WorkIsNotSaved(db.(clock := e.now), e.op.call))
    ensures Step(db, e).cards == if e.op.FundFromWallet? && e.op.funding.saved
                                 then ReadySync(db, e.op.funding).cards else db.cards
    ensures Step(db, e).banks == db.banks
            <==> !(e.op.Bank? && FailsAfterTheWrite(db.(clock := e.now), e.op.bank))
  {
    if e.op.Bank? {
      FailedBankStep(db, e);
    } else if e.op.FundFromWallet? {
      FailedFunding(db.(clock := e.now), e.op.funding);
    } else if e.op.WidgetCall? {
      FailedSessions(db.(clock := e.now), e.op.call);
    } else {
      OtherFailures(db, e);
    }
  }

  /**
   completeOnboarding is the exception: it inserts a missing onboarding request before its
   transaction opens, so a failed transaction leaves the database unchanged exactly when the request
   was already there.
   */
  lemma FailedOnboardingKeepsTheRequest(db: Db, u: Id, found: Option<Id>, id: Id)
    requires IsOpenAnswer(db.onboardings, u, found) && id !in db.onboardings
    requires u in db.users && !db.users[u].onboarded
    ensures AdminOnboard(db, u, found, id, false).error.Some?
    ensures AdminOnboard(db, u, found, id, false).db == db <==> found.Some?
    ensures HasOpen(AdminOnboard(db, u, found, id, false).db.onboardings, u)
  {
    var after := AdminOnboard(db, u, found, id, false).db;
    if found.None? {
      assert id in after.onboardings && OpenFor(after.onboardings, u, id);
    } else {
      assert OpenFor(after.onboardings, u, found.value);
    }
  }

  // ---------- Completing a session ----------

  /**
   Completing an active session in time needs an amount that was submitted and is not 0: a deposit
   succeeds exactly with one, a withdrawal only with one, and without one nothing changes.
   */
  lemma CompletingNeedsAnAmount(db: Db, s: Id, choice: Option<Id>, rowId: Id)
    requires s in db.sessions && db.sessions[s].trigger != ForOnboarding && db.sessions[s].status == Active
    requires db.sessions[s].user in db.users && db.clock - db.sessions[s].lastActivity <= HOUR
    requires IsChoice(db.banks, db.sessions[s].user, None, choice)
    ensures var session := db.sessions[s];
            var r := CompleteSession(db, s, session.user, choice, rowId, true, true);
            var submitted := CollectingAmount in session.data && session.data[CollectingAmount].Some?
                             && session.data[CollectingAmount].value != 0;
            && (r.error.None? ==> submitted)
            && (session.trigger == ForDeposit && submitted ==> r.error.None?)
            && (!submitted ==> r == Reply(db, Some(BadRequest)))
  {
  }

  /** Completing an active deposit session in time credits the amount it collected. */
  lemma CompletingCredits(db: Db, s: Id, choice: Option<Id>, rowId: Id, saveOk: bool)
    requires s in db.sessions && db.sessions[s].trigger == ForDeposit && db.sessions[s].status == Active
    requires db.sessions[s].user in db.users && AmountOf(db.sessions[s]).Some?
    requires db.clock - db.sessions[s].lastActivity <= HOUR && IsChoice(db.banks, db.sessions[s].user, None, choice)
    ensures var u, amount := db.sessions[s].user, AmountOf(db.sessions[s]).value;
            var after := CompleteSession(db, s, u, choice, rowId, true, saveOk).db;
            && after.users == db.users[u := db.users[u].(earnings := db.users[u].earnings + amount)]
            && after.txns == db.txns + [Txn(u, WidgetCredit(s), amount, None, None, TxnCompleted, db.clock)]
            && after.clock == db.clock && after.banks == db.banks
            && (!saveOk ==> after.sessions == db.sessions)
  {
  }

  /**
   The final save of completeSession is outside the transaction.  Whenever it fails after the
   deposit was committed, calling again credits the same session a second time.
   */
  lemma FailedSavePaysTwice(db: Db, s: Id, choice: Option<Id>, rowId: Id, rowId': Id)
    requires s in db.sessions && db.sessions[s].trigger == ForDeposit && db.sessions[s].status == Active
    requires db.sessions[s].user in db.users && AmountOf(db.sessions[s]).Some?
    requires db.clock - db.sessions[s].lastActivity <= HOUR && IsChoice(db.banks, db.sessions[s].user, None, choice)
    ensures var u, amount := db.sessions[s].user, AmountOf(db.sessions[s]).value;
            var once := CompleteSession(db, s, u, choice, rowId, true, false).db;
            && IsChoice(once.banks, u, None, choice)
            && var twice := CompleteSession(once, s, u, choice, rowId', true, true).db;
               && u in twice.users && twice.users[u].earnings == db.users[u].earnings + amount + amount
               && Refs(twice.txns, SessionKey(s)) == Refs(db.txns, SessionKey(s)) + 2
  {
    var u, amount := db.sessions[s].user, AmountOf(db.sessions[s]).value;
    var t := Txn(u, WidgetCredit(s), amount, None, None, TxnCompleted, db.clock);
    CompletingCredits(db, s, choice, rowId, false);
    var once := CompleteSession(db, s, u, choice, rowId, true, false).db;
    CompletingCredits(once, s, choice, rowId', true);
    ReplayAppend(db.txns, t);
    ReplayAppend(once.txns, t);
  }

  /**
   A withdrawal is protected while its payout is pending: calling again after the save failed makes a
   second payout exactly if the first has been decided and everything createPayout asks for holds again.
   */
  lemma FailedSaveWithdrawsAgain(db: Db, s: Id, p: Id, choice: Option<Id>, rowId: Id)
    requires SessionsSound(db) && RowsSound(db)
    requires s in db.sessions && db.sessions[s].trigger == ForWithdrawal && db.sessions[s].status == Active
    requires db.clock - db.sessions[s].lastActivity <= HOUR && IsChoice(db.banks, db.sessions[s].user, None, choice)
    requires p in db.payouts && db.payouts[p].session == Some(s)
    ensures AmountOf(db.sessions[s]) == Some(db.payouts[p].quote.amount) && db.sessions[s].user in db.users
    ensures var u, amount := db.sessions[s].user, db.payouts[p].quote.amount;
            var r := CompleteSession(db, s, u, choice, rowId, true, true);
            && (r.error.None? <==> CanWithdraw(db, u, amount, choice, rowId))
            && (r.error.None? ==> r.db.payouts.Keys == db.payouts.Keys + {rowId} && rowId !in db.payouts)
            && (db.payouts[p].status == Pending ==> r == Reply(db, Some(BadRequest)))
  {
    assert PayoutOfSession(db, db.payouts[p]) && PayoutSound(db, db.payouts[p]);
    WithdrawingIff(db, s, db.sessions[s], choice, rowId);
    if db.payouts[p].status == Pending {
      assert PendingPayout(db.payouts, db.sessions[s].user, p);
    }
  }
}
