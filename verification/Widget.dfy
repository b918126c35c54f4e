/** The widget session machine. */
module Widget {
  import opened Wrappers
  import opened Database
  import opened Accounts
  import opened Requests
  import opened MoneyOps

  const HOUR := 3_600_000

  function InitialStep(t: Trigger): WidgetStep {
    match t
    case ForOnboarding => RequestCredentials
    case ForWithdrawal => CollectingAmount
    case ForDeposit => CollectingAmount
  }

  function NextStep(t: Trigger, step: WidgetStep): Option<WidgetStep> {
    match t
    case ForOnboarding =>
      (match step
       case RequestCredentials => Some(WaitingForAdmin)
       case WaitingForAdmin => Some(TiktokSetupInstructions)
       case TiktokSetupInstructions => Some(ConfirmSetup)
       case ConfirmSetup => Some(PendingVerification)
       case PendingVerification => Some(StepCompleted)
       case _ => None)
    case _ =>
      (match step
       case CollectingAmount => Some(CollectingProof)
       case CollectingProof => Some(ConfirmingPaypal)
       case ConfirmingPaypal => Some(PendingAdmin)
       case PendingAdmin => Some(Processing)
       case Processing => Some(StepCompleted)
       case _ => None)
  }

  function InitSession(db: Db, s: Id, u: Id, t: Trigger): (r: Reply)
    ensures r.db == db.(sessions := r.db.sessions)
    ensures r.error.Some? ==> r.db == db
  {
    if u !in db.users then Refused(db, NotFound)
    else if s in db.sessions then Refused(db, Unavailable)
    else Ok(db.(sessions := db.sessions[s := Session(u, t, InitialStep(t), [], map[], Active, db.clock)]))
  }

  /** getSession: a session idle for more than an hour is abandoned, whatever its status was. */
  function GetSession(db: Db, s: Id, u: Id): (r: Reply)
    ensures r.db == db.(sessions := r.db.sessions)
    ensures r.error.None? ==> r.db == db && s in db.sessions && db.sessions[s].user == u
  {
    if s !in db.sessions || db.sessions[s].user != u then Refused(db, NotFound)
    else if db.clock - db.sessions[s].lastActivity > HOUR then
      Refused(db.(sessions := db.sessions[s := db.sessions[s].(status := Abandoned)]), BadRequest)
    else Ok(db)
  }

  /** The session row submitStep saves. */
  function Advance(session: Session, step: WidgetStep, amount: Option<int>, now: int): Session {
    var next := NextStep(session.trigger, step);
    session.(data := session.data[step := amount],
             done := if step in session.done then session.done else session.done + [step],
             step := if next.Some? then next.value else StepCompleted,
             lastActivity := now,
             status := if next == Some(StepCompleted) then Finished else session.status)
  }

  function SubmitStep(db: Db, s: Id, u: Id, step: WidgetStep, amount: Option<int>, requestId: Id): (r: Reply)
    ensures r.db == db.(sessions := r.db.sessions, onboardings := r.db.onboardings)
  {
    var got := GetSession(db, s, u);
    if got.error.Some? then got
    else if db.sessions[s].status != Active then Refused(db, BadRequest)
    else if db.sessions[s].step != step then Refused(db, BadRequest)
    else
      var saved := db.(sessions := db.sessions[s := Advance(db.sessions[s], step, amount, db.clock)]);
      if step == RequestCredentials && db.sessions[s].trigger == ForOnboarding
      then Ok(CreateOnboarding(saved, u, requestId).db) // its errors are swallowed
      else Ok(saved)
  }

  /** The amount submitted at collecting-amount; a missing or zero amount is none. */
  function AmountOf(session: Session): Option<int> {
    if CollectingAmount in session.data && session.data[CollectingAmount] != Some(0)
    then session.data[CollectingAmount] else None
  }

  function CompleteOnboarding(db: Db, u: Id, requestId: Id): (r: Reply)
    ensures r.db == db.(onboardings := r.db.onboardings)
    ensures r.error.Some? ==> r.db == db
  {
    if u !in db.users || HasOpen(db.onboardings, u) then Ok(db)
    else InsertOnboarding(db, u, requestId)
  }

  function CompleteWithdrawal(db: Db, s: Id, session: Session, choice: Option<Id>, rowId: Id): (r: Reply)
    requires IsChoice(db.banks, session.user, None, choice)
    ensures r.db == db.(payouts := r.db.payouts)
    ensures r.error.Some? ==> r.db == db
  {
    match AmountOf(session)
    case None => Refused(db, BadRequest)
    case Some(amount) => CreatePayout(db, session.user, amount, None, choice, rowId, Some(s))
  }

  function CompleteDeposit(db: Db, s: Id, session: Session, dbOk: bool): (r: Reply)
    ensures r.db == db.(users := r.db.users, txns := r.db.txns)
    ensures r.error.Some? ==> r.db == db
  {
    match AmountOf(session)
    case None => Refused(db, BadRequest)
    case Some(amount) => Perform(db, WidgetDeposit(s, session.user, amount), dbOk)
  }

  /** The work of completeSession for the session's trigger. */
  function Process(db: Db, s: Id, session: Session, choice: Option<Id>, rowId: Id, dbOk: bool): (r: Reply)
    requires IsChoice(db.banks, session.user, None, choice)
    ensures r.db == db.(users := r.db.users, payouts := r.db.payouts, onboardings := r.db.onboardings,
            txns := r.db.txns)
    ensures session.trigger != ForDeposit ==> r.db.users == db.users && r.db.txns == db.txns
    ensures r.error.Some? ==> r.db == db
  {
    match session.trigger
    case ForOnboarding => CompleteOnboarding(db, session.user, rowId)
    case ForWithdrawal => CompleteWithdrawal(db, s, session, choice, rowId)
    case ForDeposit => CompleteDeposit(db, s, session, dbOk)
  }

  /**
   completeSession.  The session row is saved after the work is committed; saveOk says whether that
   last save succeeds.
   */
  function CompleteSession(db: Db, s: Id, u: Id, choice: Option<Id>, rowId: Id, dbOk: bool, saveOk: bool): (r: Reply)
    requires IsChoice(db.banks, u, None, choice)
    ensures r.db == db.(sessions := r.db.sessions)
            || (&& s in db.sessions && db.sessions[s].user == u && db.sessions[s].status != Finished
                && db.clock - db.sessions[s].lastActivity <= HOUR
                && r.db == Process(db, s, db.sessions[s], choice, rowId, dbOk).db.(sessions := r.db.sessions))
  {
    var got := GetSession(db, s, u);
    if got.error.Some? then got
    else if db.sessions[s].status == Finished then Ok(db)
    else
      var done := Process(db, s, db.sessions[s], choice, rowId, dbOk);
      if done.error.Some? then done
      else if !saveOk then Refused(done.db, Unavailable)
      else
        var row := done.db.sessions[s].(status := Finished, step := StepCompleted);
        Ok(done.db.(sessions := done.db.sessions[s := row]))
  }

  // ---------- As one handler ----------

  datatype SessionOp =
    | Init(session: Id, user: Id, trigger: Trigger)
    | Get(session: Id, user: Id)
    | Submit(session: Id, user: Id, step: WidgetStep, amount: Option<int>, requestId: Id)
    | Complete(session: Id, user: Id, choice: Option<Id>, rowId: Id, dbOk: bool, saveOk: bool)

  ghost predicate AllowedSession(db: Db, op: SessionOp) {
    op.Complete? ==> IsChoice(db.banks, op.user, None, op.choice)
  }

  function HandleSession(db: Db, op: SessionOp): Reply
    requires AllowedSession(db, op)
  {
    match op
    case Init(s, u, t) => InitSession(db, s, u, t)
    case Get(s, u) => GetSession(db, s, u)
    case Submit(s, u, step, amount, requestId) => SubmitStep(db, s, u, step, amount, requestId)
    case Complete(s, u, choice, rowId, dbOk, saveOk) => CompleteSession(db, s, u, choice, rowId, dbOk, saveOk)
  }
}
