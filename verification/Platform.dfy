/** The whole platform as one state machine: every request is a step, and a run is a list of steps. */
module Platform {
  import opened Database
  import opened MoneyOps
  import opened Profiles
  import opened Cards
  import opened Accounts
  import opened Requests
  import opened Widget

  datatype Op =
    | Profile(profile: ProfileOp)
    | MoveMoney(money: MoneyOp, dbOk: bool)
    | FundFromWallet(funding: Funding)
    | Request(request: RequestOp)
    | WidgetCall(call: SessionOp)
    | Bank(bank: BankOp)

  /** A request and the time it is handled at. */
  datatype Event = Event(now: int, op: Op)

  /** The bounds the DTOs put on a money operation, and that Paystack reports no negative payment. */
  predicate AllowedMoney(op: MoneyOp) {
    match op
    case ApproveCredit(_, override, _) => override.Some? ==> override.value >= 1
    case VerifyPayment(_, answer) => answer.Paid? ==> answer.kobo >= 0
    case TransferEarnings(_, amount) => amount >= 1
    case FundCard(_, _, amount, _, _) => amount >= 1
    case WidgetDeposit(_, _, _) => false // only inside completeSession
    case _ => true
  }

  /**
   What the surroundings guarantee of an event: the clock does not go back, DTO bounds hold, and the
   answers of database queries are right.
   */
  ghost predicate Allowed(db: Db, e: Event) {
    && db.clock <= e.now
    && match e.op
       case Profile(op) => AllowedProfile(op)
       case MoveMoney(op, _) => AllowedMoney(op) && !op.FundCard? // fundings come with their card sync
       case FundFromWallet(f) => f.amount >= 1
       case Request(op) => AllowedRequest(db, op)
       case WidgetCall(op) => AllowedSession(db, op)
       case Bank(op) => AllowedBank(db, op)
  }

  function Handle(before: Db, e: Event): Reply
    requires Allowed(before, e)
  {
    var db := before.(clock := e.now);
    match e.op
    case Profile(op) => HandleProfile(db, op)
    case MoveMoney(op, dbOk) => Perform(db, op, dbOk)
    case FundFromWallet(f) => Fund(db, f)
    case Request(op) => HandleRequest(db, op)
    case WidgetCall(op) => HandleSession(db, op)
    case Bank(op) => HandleBank(db, op)
  }

  function Step(db: Db, e: Event): Db
    requires Allowed(db, e)
  {
    Handle(db, e).db
  }

  /** Only widget calls write sessions. */
  lemma OthersKeepSessions(db: Db, e: Event)
    requires Allowed(db, e) && !e.op.WidgetCall?
    ensures Step(db, e).sessions == db.sessions
  {
    var now := db.(clock := e.now);
    match e.op
    case Profile(op) => assert HandleProfile(now, op).db.sessions == db.sessions;
    case MoveMoney(op, dbOk) => assert Perform(now, op, dbOk).db.sessions == db.sessions;
    case FundFromWallet(f) => assert Fund(now, f).db.sessions == db.sessions;
    case Request(op) => assert HandleRequest(now, op).db.sessions == db.sessions;
    case Bank(op) => assert HandleBank(now, op).db.sessions == db.sessions;
  }

  ghost predicate AllowedRun(db: Db, es: seq<Event>)
    decreases |es|, 0
  {
    es == [] || (AllowedRun(db, es[..|es| - 1]) && Allowed(Run(db, es[..|es| - 1]), es[|es| - 1]))
  }

  function Run(db: Db, es: seq<Event>): Db
    requires AllowedRun(db, es)
    decreases |es|, 1
  {
    if es == [] then db else Step(Run(db, es[..|es| - 1]), es[|es| - 1])
  }

  /** One more event. */
  lemma RunExtends(db: Db, es: seq<Event>, e: Event)
    requires AllowedRun(db, es) && Allowed(Run(db, es), e)
    ensures AllowedRun(db, es + [e]) && Run(db, es + [e]) == Step(Run(db, es), e)
  {
    assert (es + [e])[..|es|] == es;
  }
}
