/** Where payouts go: to an account of their user that was verified when they were requested. */
module PayoutAccounts {
  import opened Wrappers
  import opened Database
  import opened Cards
  import opened MoneyOps
  import opened Accounts
  import opened Requests
  import opened Widget
  import opened Platform
  import opened RequestEffects

  /** The event asks for a payout by this user, and if it names an account it names this one. */
  predicate AsksFor(op: Op, u: Id, b: Id) {
    match op
    case Request(CreatePayoutRequest(v, _, asked, _, _)) => v == u && (asked.Some? ==> asked == Some(b))
    case WidgetCall(Complete(_, v, _, _, _, _)) => v == u
    case _ => false
  }

  /** The event inserts the payout, to an account that is then the user's and verified. */
  ghost predicate InsertedBy(db: Db, e: Event, p: Id, row: Payout) {
    p !in db.payouts && exists b :: && b in db.banks && AsksFor(e.op, row.user, b) && CanReceive(db.banks, row.user, b)
                                    && db.banks[b].details == row.bank
  }

  /** The payout is an old one and goes where it went, or this event inserts it. */
  ghost predicate OldOrInserted(db: Db, e: Event, payouts: map<Id, Payout>, p: Id)
    requires p in payouts
  {
    || (p in db.payouts && db.payouts[p].user == payouts[p].user && db.payouts[p].bank == payouts[p].bank)
    || InsertedBy(db, e, p, payouts[p])
  }

  lemma MoneyInsertsNone(db: Db, op: MoneyOp, dbOk: bool, p: Id)
    requires p in Perform(db, op, dbOk).db.payouts
    ensures p in db.payouts && var row := Perform(db, op, dbOk).db.payouts[p];
            db.payouts[p].user == row.user && db.payouts[p].bank == row.bank
  {
  }

  lemma CreatingInserts(db: Db, now: Db, e: Event, u: Id, cents: int, asked: Option<Id>, choice: Option<Id>, id: Id,
                        session: Option<Id>, p: Id)
    requires now == db.(clock := e.now) && IsChoice(now.banks, u, asked, choice)
    requires forall b: Id :: (asked.Some? ==> asked == Some(b)) ==> AsksFor(e.op, u, b)
    requires p in CreatePayout(now, u, cents, asked, choice, id, session).db.payouts
    ensures OldOrInserted(db, e, CreatePayout(now, u, cents, asked, choice, id, session).db.payouts, p)
  {
    CreatingPayout(now, u, cents, asked, choice, id, session);
  }

  lemma RequestsInsert(db: Db, now: Db, e: Event, p: Id)
    requires e.op.Request? && now == db.(clock := e.now) && AllowedRequest(now, e.op.request)
    requires p in HandleRequest(now, e.op.request).db.payouts
    ensures OldOrInserted(db, e, HandleRequest(now, e.op.request).db.payouts, p)
  {
    match e.op.request
    case CreatePayoutRequest(u, amount, asked, choice, id) =>
      CreatingInserts(db, now, e, u, amount, asked, choice, id, None, p);
    case CompleteUserOnboarding(u, found, id, dbOk) => CompletingOnboarding(now, u, found, id, dbOk);
    case CreateOnboardingRequest(u, id) =>
    case CreateCreditRequest(u, amount, id) =>
    case InitializePaystack(u, id, kobo, paystackOk) =>
  }

  lemma CompletingInserts(db: Db, now: Db, e: Event, p: Id)
    requires e.op.WidgetCall? && e.op.call.Complete?
    requires now == db.(clock := e.now) && AllowedSession(now, e.op.call)
    requires p in HandleSession(now, e.op.call).db.payouts
    ensures OldOrInserted(db, e, HandleSession(now, e.op.call).db.payouts, p)
  {
    var op := e.op.call;
    var after := HandleSession(now, op).db.payouts;
    if after == db.payouts {
    } else {
      var session := now.sessions[op.session];
      assert after == Process(now, op.session, session, op.choice, op.rowId, op.dbOk).db.payouts;
      assert session.trigger == ForWithdrawal && AmountOf(session).Some?;
      CreatingInserts(db, now, e, op.user, AmountOf(session).value, None, op.choice, op.rowId, Some(op.session), p);
    }
  }

  lemma SessionsInsert(db: Db, now: Db, e: Event, p: Id)
    requires e.op.WidgetCall? && now == db.(clock := e.now) && AllowedSession(now, e.op.call)
    requires p in HandleSession(now, e.op.call).db.payouts
    ensures OldOrInserted(db, e, HandleSession(now, e.op.call).db.payouts, p)
  {
    match e.op.call
    case Complete(_, _, _, _, _, _) => CompletingInserts(db, now, e, p);
    case Init(s, u, t) =>
    case Get(s, u) =>
    case Submit(s, u, step, amount, requestId) =>
  }

  lemma StepInserts(db: Db, e: Event, p: Id)
    requires Allowed(db, e) && p in Step(db, e).payouts
    ensures OldOrInserted(db, e, Step(db, e).payouts, p)
  {
    var now := db.(clock := e.now);
    match e.op
    case Profile(op) =>
    case MoveMoney(op, dbOk) => MoneyInsertsNone(now, op, dbOk, p);
    case FundFromWallet(f) => assert Fund(now, f).db.payouts == db.payouts;
    case Request(op) => RequestsInsert(db, now, e, p);
    case WidgetCall(op) => SessionsInsert(db, now, e, p);
    case Bank(op) => assert HandleBank(now, op).db.payouts == db.payouts;
  }

  /** Later changes to the row do not matter. */
  lemma SameDestination(db: Db, e: Event, p: Id, was: Payout, row: Payout)
    requires InsertedBy(db, e, p, was) && was.user == row.user && was.bank == row.bank
    ensures InsertedBy(db, e, p, row)
  {
  }

  ghost predicate InsertedAt(start: Db, es: seq<Event>, k: nat, p: Id, row: Payout)
    requires k < |es|
  {
    AllowedRun(start, es[..k]) && InsertedBy(Run(start, es[..k]), es[k], p, row)
  }

  /**
   Over every run, each payout was inserted by one event, which asked for it, and goes to an account that
   was its user's and verified just then; to the one asked for, if one was.
   */
  lemma {:induction false} PayoutsGoToVerifiedAccounts(start: Db, es: seq<Event>, p: Id)
    requires AllowedRun(start, es) && p in Run(start, es).payouts && p !in start.payouts
    ensures exists k :: 0 <= k < |es| && InsertedAt(start, es, k, p, Run(start, es).payouts[p])
  {
    if es == [] {
      assert false;
    } else {
      var n := |es| - 1;
      StepInserts(Run(start, es[..n]), es[n], p);
      if InsertedBy(Run(start, es[..n]), es[n], p, Run(start, es).payouts[p]) {
        assert InsertedAt(start, es, n, p, Run(start, es).payouts[p]);
      } else {
        PayoutsGoToVerifiedAccounts(start, es[..n], p);
        var was := Run(start, es[..n]).payouts[p];
        var k :| 0 <= k < n && InsertedAt(start, es[..n], k, p, was);
        assert es[..n][..k] == es[..k];
        SameDestination(Run(start, es[..k]), es[k], p, was, Run(start, es).payouts[p]);
        assert InsertedAt(start, es, k, p, Run(start, es).payouts[p]);
      }
    }
  }
}
