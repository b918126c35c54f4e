/** The card transactions of funding a card, and the CARD_FUNDING records of the log. */
module CardRecords {
  import opened Wrappers
  import opened Database
  import opened MoneyOps
  import opened Profiles
  import opened Cards
  import opened Accounts
  import opened Requests
  import opened Widget
  import opened Platform

  /** The fundings the log records, in order. */
  function Fundings(log: seq<Txn>): seq<CardTxn> {
    if log == [] then []
    else
      var t := log[|log| - 1];
      Fundings(log[..|log| - 1]) + if t.source.CardFunding? then [CardTxn(t.source.card, t.user, t.amount)] else []
  }

  lemma FundingsAppend(log: seq<Txn>, t: Txn)
    ensures Fundings(log + [t])
            == Fundings(log) + if t.source.CardFunding? then [CardTxn(t.source.card, t.user, t.amount)] else []
  {
    assert (log + [t])[..|log|] == log;
  }

  /** What a plan adds to one table it adds to the other. */
  predicate AddsBoth(p: Plan) {
    if p.txn.Some? && p.txn.value.source.CardFunding?
    then p.cardTxn == Some(CardTxn(p.txn.value.source.card, p.txn.value.user, p.txn.value.amount))
    else p.cardTxn.None?
  }

  lemma PlansAddBoth(db: Db, op: MoneyOp)
    ensures AddsBoth(Read(db, op))
  {
  }

  lemma MoneyKeepsFundings(db: Db, op: MoneyOp, dbOk: bool)
    requires db.cardTxns == Fundings(db.txns)
    ensures var after := Perform(db, op, dbOk).db; after.cardTxns == Fundings(after.txns)
  {
    PlansAddBoth(db, op);
    var p := Read(db, op);
    if p.txn.Some? {
      FundingsAppend(db.txns, Posted(db, p));
    }
  }

  lemma FundingKeepsFundings(db: Db, f: Funding)
    requires db.cardTxns == Fundings(db.txns)
    ensures Fund(db, f).db.cardTxns == Fundings(Fund(db, f).db.txns)
  {
    MoneyKeepsFundings(ReadySync(db, f), FundCard(f.card, f.user, f.amount, f.settlement, f.sudoBalance), f.dbOk);
  }

  lemma ProcessKeepsFundings(db: Db, s: Id, session: Session, choice: Option<Id>, rowId: Id, dbOk: bool)
    requires db.cardTxns == Fundings(db.txns) && IsChoice(db.banks, session.user, None, choice)
    ensures var after := Process(db, s, session, choice, rowId, dbOk).db; after.cardTxns == Fundings(after.txns)
  {
    if session.trigger == ForDeposit && AmountOf(session).Some? {
      MoneyKeepsFundings(db, WidgetDeposit(s, session.user, AmountOf(session).value), dbOk);
    }
  }

  lemma CompletingKeepsFundings(db: Db, s: Id, u: Id, choice: Option<Id>, rowId: Id, dbOk: bool, saveOk: bool)
    requires db.cardTxns == Fundings(db.txns) && IsChoice(db.banks, u, None, choice)
    ensures var after := CompleteSession(db, s, u, choice, rowId, dbOk, saveOk).db;
            after.cardTxns == Fundings(after.txns)
  {
    var after := CompleteSession(db, s, u, choice, rowId, dbOk, saveOk).db;
    if after != db.(sessions := after.sessions) {
      ProcessKeepsFundings(db, s, db.sessions[s], choice, rowId, dbOk);
    }
  }

  lemma StepKeepsFundings(db: Db, e: Event)
    requires Allowed(db, e) && db.cardTxns == Fundings(db.txns)
    ensures Step(db, e).cardTxns == Fundings(Step(db, e).txns)
  {
    var now := db.(clock := e.now);
    match e.op
    case MoveMoney(op, dbOk) => MoneyKeepsFundings(now, op, dbOk);
    case FundFromWallet(f) => FundingKeepsFundings(now, f);
    case WidgetCall(op) => SessionKeepsFundings(now, op);
    case Profile(op) => assert HandleProfile(now, op).db.txns == db.txns;
    case Request(op) => assert HandleRequest(now, op).db.txns == db.txns;
    case Bank(op) => assert HandleBank(now, op).db.txns == db.txns;
  }

  lemma SessionKeepsFundings(db: Db, op: SessionOp)
    requires AllowedSession(db, op) && db.cardTxns == Fundings(db.txns)
    ensures var after := HandleSession(db, op).db; after.cardTxns == Fundings(after.txns)
  {
    match op
    case Complete(s, u, choice, rowId, dbOk, saveOk) => CompletingKeepsFundings(db, s, u, choice, rowId, dbOk, saveOk);
    case Submit(s, u, step, amount, requestId) =>
      assert SubmitStep(db, s, u, step, amount, requestId).db.txns == db.txns;
    case Init(s, u, t) =>
    case Get(s, u) =>
  }

  /** After every run the card transactions are the CARD_FUNDING records, one for one and in order. */
  lemma {:induction false} FundingsAgree(db: Db, es: seq<Event>)
    requires AllowedRun(db, es) && db.cardTxns == Fundings(db.txns)
    ensures Run(db, es).cardTxns == Fundings(Run(db, es).txns)
  {
    if es == [] {
      assert Run(db, es) == db;
    } else {
      FundingsAgree(db, es[..|es| - 1]);
      StepKeepsFundings(Run(db, es[..|es| - 1]), es[|es| - 1]);
    }
  }
}
