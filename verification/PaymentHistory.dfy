/** What a run has made of one Paystack reference, whatever else happened in between. */
module PaymentHistory {
  import opened Wrappers
  import opened Money
  import opened Database
  import opened Ledger
  import opened MoneyOps
  import opened Profiles
  import opened Cards
  import opened Accounts
  import opened Requests
  import opened Widget
  import opened Platform
  import opened LifecycleProofs
  import Safety

  /** The event verifies the reference, Paystack reports it paid, and the transaction goes through. */
  predicate Stores(db: Db, e: Event, r: Id) {
    && e.op.MoveMoney? && e.op.dbOk && e.op.money.VerifyPayment? && e.op.money.payment == r
    && e.op.money.answer.Paid? && r in db.payments
  }

  /** The first amount stored for the reference. */
  ghost function FirstStored(db: Db, es: seq<Event>, r: Id): Option<int>
    requires AllowedRun(db, es)
  {
    if es == [] then None
    else
      var before, e := FirstStored(db, es[..|es| - 1], r), es[|es| - 1];
      if before.Some? then before
      else if Stores(Run(db, es[..|es| - 1]), e, r) then Some(e.op.money.answer.kobo) else None
  }

  predicate IsSuccess(db: Db, r: Id) {
    r in db.payments && db.payments[r].status == Success
  }

  /** The payment is SUCCESS exactly if something was stored, and every deposit record is of that amount. */
  ghost predicate PaidAs(db: Db, r: Id, first: Option<int>) {
    && (first.Some? <==> IsSuccess(db, r))
    && forall i :: 0 <= i < |db.txns| && db.txns[i].source == WalletDeposit(r) ==> first == Some(db.txns[i].amount)
  }

  /** No payment becomes or stops being SUCCESS, and no deposit is recorded. */
  predicate NoDeposit(db: Db, after: Db, r: Id) {
    && (IsSuccess(after, r) <==> IsSuccess(db, r))
    && db.txns <= after.txns
    && forall i :: |db.txns| <= i < |after.txns| ==> after.txns[i].source != WalletDeposit(r)
  }

  lemma NoDepositKeepsPaidAs(db: Db, after: Db, r: Id, first: Option<int>)
    requires PaidAs(db, r, first) && NoDeposit(db, after, r)
    ensures PaidAs(after, r, first)
  {
    forall i | 0 <= i < |after.txns| && after.txns[i].source == WalletDeposit(r)
      ensures first == Some(after.txns[i].amount)
    {
      assert i < |db.txns| && db.txns[i] == after.txns[i];
    }
  }

  lemma OtherMoney(db: Db, op: MoneyOp, dbOk: bool, r: Id)
    requires op.VerifyPayment? ==> op.payment != r
    ensures NoDeposit(db, Perform(db, op, dbOk).db, r)
  {
  }

  lemma Verifying(db: Db, answer: PaystackAnswer, dbOk: bool, r: Id, first: Option<int>)
    requires PaidAs(db, r, first) && (r in db.payments ==> db.payments[r].user in db.users)
    ensures var next := if first.Some? then first
                        else if r in db.payments && answer.Paid? && dbOk then Some(answer.kobo) else None;
            PaidAs(Perform(db, VerifyPayment(r, answer), dbOk).db, r, next)
  {
    if first.None? && r in db.payments && answer.Paid? && dbOk {
      var after := Perform(db, VerifyPayment(r, answer), dbOk).db;
      assert after.txns[..|db.txns|] == db.txns;
      assert after.txns[|db.txns|].amount == answer.kobo;
      assert forall i :: 0 <= i < |db.txns| ==> after.txns[i] == db.txns[i];
    } else {
      NoDepositKeepsPaidAs(db, Perform(db, VerifyPayment(r, answer), dbOk).db, r, first);
    }
  }

  lemma CompletingDepositsNothing(db: Db, s: Id, u: Id, choice: Option<Id>, rowId: Id, dbOk: bool, saveOk: bool, r: Id)
    requires IsChoice(db.banks, u, None, choice)
    ensures NoDeposit(db, CompleteSession(db, s, u, choice, rowId, dbOk, saveOk).db, r)
  {
    var after := CompleteSession(db, s, u, choice, rowId, dbOk, saveOk).db;
    if after != db.(sessions := after.sessions) {
      ProcessingDepositsNothing(db, s, db.sessions[s], choice, rowId, dbOk, r);
    }
  }

  lemma ProcessingDepositsNothing(db: Db, s: Id, session: Session, choice: Option<Id>, rowId: Id, dbOk: bool, r: Id)
    requires IsChoice(db.banks, session.user, None, choice)
    ensures NoDeposit(db, Process(db, s, session, choice, rowId, dbOk).db, r)
  {
    if session.trigger == ForDeposit && AmountOf(session).Some? {
      OtherMoney(db, WidgetDeposit(s, session.user, AmountOf(session).value), dbOk, r);
    }
  }

  lemma SessionsDepositNothing(db: Db, op: SessionOp, r: Id)
    requires AllowedSession(db, op)
    ensures NoDeposit(db, HandleSession(db, op).db, r)
  {
    match op
    case Complete(s, u, choice, rowId, dbOk, saveOk) =>
      CompletingDepositsNothing(db, s, u, choice, rowId, dbOk, saveOk, r);
    case Submit(s, u, step, amount, requestId) =>
      assert SubmitStep(db, s, u, step, amount, requestId).db.txns == db.txns;
    case Init(s, u, t) =>
    case Get(s, u) =>
  }

  lemma RequestsDepositNothing(db: Db, op: RequestOp, r: Id)
    requires AllowedRequest(db, op)
    ensures NoDeposit(db, HandleRequest(db, op).db, r)
  {
  }

  lemma FundingDepositsNothing(db: Db, f: Funding, r: Id)
    ensures NoDeposit(db, Fund(db, f).db, r)
  {
    var op := FundCard(f.card, f.user, f.amount, f.settlement, f.sudoBalance);
    OtherMoney(ReadySync(db, f), op, f.dbOk, r);
  }

  lemma OthersDepositNothing(db: Db, e: Event, r: Id)
    requires Allowed(db, e) && !(e.op.MoveMoney? && e.op.money.VerifyPayment? && e.op.money.payment == r)
    ensures NoDeposit(db, Step(db, e), r)
  {
    var now := db.(clock := e.now);
    match e.op
    case Profile(op) => assert HandleProfile(now, op).db.payments == db.payments;
    case MoveMoney(op, dbOk) => OtherMoney(now, op, dbOk, r);
    case FundFromWallet(f) => FundingDepositsNothing(now, f, r);
    case Request(op) => RequestsDepositNothing(now, op, r);
    case WidgetCall(op) => SessionsDepositNothing(now, op, r);
    case Bank(op) => assert HandleBank(now, op).db.payments == db.payments;
  }

  lemma StepPaidAs(db: Db, e: Event, r: Id, first: Option<int>)
    requires Safety.Inv(db) && Allowed(db, e) && PaidAs(db, r, first)
    ensures var next := if first.Some? then first
                        else if Stores(db, e, r) then Some(e.op.money.answer.kobo) else None;
            PaidAs(Step(db, e), r, next)
  {
    if e.op.MoveMoney? && e.op.money.VerifyPayment? && e.op.money.payment == r {
      Verifying(db.(clock := e.now), e.op.money.answer, e.op.dbOk, r, first);
    } else {
      OthersDepositNothing(db, e, r);
      NoDepositKeepsPaidAs(db, Step(db, e), r, first);
    }
  }

  /**
   In every run, whatever happens between the verifications of a reference: its payment is SUCCESS exactly
   if one of them was stored, and then its one deposit record carries the first amount stored.
   */
  lemma {:induction false} DepositIsFirstStored(clock: int, settings: Settings, es: seq<Event>, r: Id)
    requires ValidSettings(settings) && AllowedRun(EmptyDb(clock, settings), es)
    ensures var db := Run(EmptyDb(clock, settings), es);
            && PaidAs(db, r, FirstStored(EmptyDb(clock, settings), es, r))
            && Refs(db.txns, PaymentKey(r)) == One(IsSuccess(db, r))
  {
    Safety.ReachableInv(clock, settings, es);
    if es == [] {
      assert Run(EmptyDb(clock, settings), es) == EmptyDb(clock, settings);
    } else {
      var before := es[..|es| - 1];
      DepositIsFirstStored(clock, settings, before, r);
      Safety.ReachableInv(clock, settings, before);
      var first := FirstStored(EmptyDb(clock, settings), before, r);
      StepPaidAs(Run(EmptyDb(clock, settings), before), es[|es| - 1], r, first);
    }
    var db := Run(EmptyDb(clock, settings), es);
    assert Refs(db.txns, PaymentKey(r)) == One(Settled(db, PaymentKey(r)));
  }
}
