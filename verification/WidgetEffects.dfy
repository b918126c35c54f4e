/** What the widget calls do, said of the tables alone. */
module WidgetEffects {
  import opened Wrappers
  import opened Database
  import opened Accounts
  import opened Requests
  import opened Widget
  import opened RequestEffects
  import opened WidgetProofs
  import MoneyEffects

  predicate Own(db: Db, s: Id, u: Id) {
    s in db.sessions && db.sessions[s].user == u
  }

  /** More than an hour has passed since the last activity. */
  predicate Idle(db: Db, s: Id)
    requires s in db.sessions
  {
    db.clock - db.sessions[s].lastActivity > 60 * 60 * 1000
  }

  function SetSession(db: Db, s: Id, row: Session): Db {
    db.(sessions := db.sessions[s := row])
  }

  /** initSession: onboarding starts by asking for credentials, the other two by asking for an amount. */
  lemma Starting(db: Db, s: Id, u: Id, t: Trigger)
    ensures var r := HandleSession(db, Init(s, u, t));
            var ok := u in db.users && s !in db.sessions;
            var first := if t == ForOnboarding then RequestCredentials else CollectingAmount;
            && (r.error.None? <==> ok)
            && r.db == if ok then SetSession(db, s, Session(u, t, first, [], map[], Active, db.clock)) else db
  {
  }

  /** getSession: an idle session is abandoned, whatever it was, and not returned. */
  lemma Getting(db: Db, s: Id, u: Id)
    ensures var r := HandleSession(db, Get(s, u));
            && (r.error.None? <==> Own(db, s, u) && !Idle(db, s))
            && r.db == if Own(db, s, u) && Idle(db, s)
                       then SetSession(db, s, db.sessions[s].(status := Abandoned)) else db
  {
  }

  // ---------- Submitting a step ----------

  /** The steps of a session of each kind, and where it ends. */
  function Path(t: Trigger): seq<WidgetStep> {
    if t == ForOnboarding
    then [RequestCredentials, WaitingForAdmin, TiktokSetupInstructions, ConfirmSetup, PendingVerification,
          StepCompleted]
    else [CollectingAmount, CollectingProof, ConfirmingPaypal, PendingAdmin, Processing, StepCompleted]
  }

  /** The submission is for the step the active session stands at. */
  predicate Fits(db: Db, s: Id, u: Id, step: WidgetStep) {
    Own(db, s, u) && !Idle(db, s) && db.sessions[s].status == Active && db.sessions[s].step == step
  }

  /** The session at place k of its path, with what was submitted there, has gone on to the next place. */
  predicate Advanced(was: Session, k: nat, amount: Option<int>, now: int, row: Session)
    requires k < 5 && was.step == Path(was.trigger)[k]
  {
    row == Session(was.user, was.trigger, Path(was.trigger)[k + 1],
                   if was.step in was.done then was.done else was.done + [was.step],
                   was.data[was.step := amount], if k == 4 then Finished else Active, now)
  }

  lemma AdvancingMovesOn(was: Session, k: nat, amount: Option<int>, now: int)
    requires k < 5 && was.step == Path(was.trigger)[k] && was.status == Active
    ensures Advanced(was, k, amount, now, Advance(was, was.step, amount, now))
  {
  }

  lemma FilingARequest(db: Db, u: Id, id: Id)
    ensures CreateOnboarding(db, u, id).db
            == if MayAsk(db, u) && id !in db.onboardings
               then db.(onboardings := db.onboardings[id := OnboardingRequest(u, true, db.clock)]) else db
  {
    assert HasOpen(db.onboardings, u) <==> !NoneOpen(db.onboardings, u);
  }

  /** submitStep.  Asking for credentials also files an onboarding request, if the user may. */
  lemma Submitting(db: Db, s: Id, u: Id, k: nat, step: WidgetStep, amount: Option<int>, requestId: Id)
    requires Fits(db, s, u, step) && k < 5 && step == Path(db.sessions[s].trigger)[k]
    ensures var r := HandleSession(db, Submit(s, u, step, amount, requestId));
            var files := step == RequestCredentials && MayAsk(db, u) && requestId !in db.onboardings;
            && r.error.None?
            && s in r.db.sessions && Advanced(db.sessions[s], k, amount, db.clock, r.db.sessions[s])
            && r.db == SetSession(db, s, r.db.sessions[s])
                       .(onboardings := if files
                                        then db.onboardings[requestId := OnboardingRequest(u, true, db.clock)]
                                        else db.onboardings)
  {
    var row := Advance(db.sessions[s], step, amount, db.clock);
    AdvancingMovesOn(db.sessions[s], k, amount, db.clock);
    FilingARequest(SetSession(db, s, row), u, requestId);
  }

  /** In every reachable state an accepted submission is at the place after the completed steps. */
  lemma FittingIsOnThePath(db: Db, s: Id, u: Id, step: WidgetStep)
    requires Fits(db, s, u, step) && InFlow(db.sessions[s])
    ensures var k := |db.sessions[s].done|;
            k < 5 && step == Path(db.sessions[s].trigger)[k] && db.sessions[s].done == Path(db.sessions[s].trigger)[..k]
  {
    assert Path(db.sessions[s].trigger)[..5] == Flow(db.sessions[s].trigger);
  }

  /** A submission that does not fit is refused; an idle session is abandoned by it. */
  lemma RefusingSubmission(db: Db, s: Id, u: Id, step: WidgetStep, amount: Option<int>, requestId: Id)
    requires !Fits(db, s, u, step)
    ensures var r := HandleSession(db, Submit(s, u, step, amount, requestId));
            && r.error.Some?
            && r.db == if Own(db, s, u) && Idle(db, s)
                       then SetSession(db, s, db.sessions[s].(status := Abandoned)) else db
  {
  }

  // ---------- Completing ----------

  /** The session is there, in time, and not completed yet. */
  predicate Completable(db: Db, s: Id, u: Id) {
    Own(db, s, u) && !Idle(db, s) && db.sessions[s].status != Finished
  }

  /** What is left once the work is done: the session is completed, if its own save succeeds. */
  function Closed(work: Db, s: Id, saveOk: bool): Db
    requires s in work.sessions
  {
    if saveOk then SetSession(work, s, work.sessions[s].(status := Finished, step := StepCompleted)) else work
  }

  /** completeSession of a session that is missing, idle or completed: nothing is done again. */
  lemma CompletingNothing(db: Db, s: Id, u: Id, choice: Option<Id>, rowId: Id, dbOk: bool, saveOk: bool)
    requires IsChoice(db.banks, u, None, choice) && !Completable(db, s, u)
    ensures var r := HandleSession(db, Complete(s, u, choice, rowId, dbOk, saveOk));
            && (r.error.None? <==> Own(db, s, u) && !Idle(db, s))
            && r.db == if Own(db, s, u) && Idle(db, s)
                       then SetSession(db, s, db.sessions[s].(status := Abandoned)) else db
  {
  }

  /** completeOnboarding: a user without an open onboarding request gets one. */
  lemma CompletingOnboarding(db: Db, s: Id, u: Id, choice: Option<Id>, rowId: Id, dbOk: bool, saveOk: bool)
    requires IsChoice(db.banks, u, None, choice) && Completable(db, s, u) && db.sessions[s].trigger == ForOnboarding
    ensures var r := HandleSession(db, Complete(s, u, choice, rowId, dbOk, saveOk));
            var needed := u in db.users && NoneOpen(db.onboardings, u);
            var fails := needed && rowId in db.onboardings;
            && (r.error.None? <==> !fails && saveOk)
            && (fails ==> r.db == db)
            && (!fails ==>
                  var work := if needed
                              then db.(onboardings := db.onboardings[rowId := OnboardingRequest(u, true, db.clock)])
                              else db;
                  r.db == Closed(work, s, saveOk))
  {
    assert HasOpen(db.onboardings, u) <==> !NoneOpen(db.onboardings, u);
  }

  /** The session collected this amount, other than 0. */
  predicate Collected(session: Session, amount: int) {
    CollectingAmount in session.data && session.data[CollectingAmount] == Some(amount) && amount != 0
  }

  /** completeWithdrawal: one payout of the collected amount, tagged with the session. */
  lemma CompletingWithdrawal(db: Db, s: Id, u: Id, choice: Option<Id>, rowId: Id, dbOk: bool, saveOk: bool, amount: int)
    requires IsChoice(db.banks, u, None, choice) && Completable(db, s, u) && db.sessions[s].trigger == ForWithdrawal
    requires Collected(db.sessions[s], amount)
    ensures var r := HandleSession(db, Complete(s, u, choice, rowId, dbOk, saveOk));
            var ok := MayWithdraw(db, u, amount, None) && rowId !in db.payouts;
            && (r.error.None? <==> ok && saveOk)
            && (!ok ==> r.db == db)
            && (ok ==>
                  var work := db.(payouts := r.db.payouts);
                  Withdrawn(db, u, amount, None, choice, rowId, Some(s), work) && r.db == Closed(work, s, saveOk))
  {
    CreatingPayout(db, u, amount, None, choice, rowId, Some(s));
  }

  /** completeDeposit: the collected amount enters the earnings, with one record. */
  lemma CompletingDeposit(db: Db, s: Id, u: Id, choice: Option<Id>, rowId: Id, dbOk: bool, saveOk: bool, amount: int)
    requires IsChoice(db.banks, u, None, choice) && Completable(db, s, u) && db.sessions[s].trigger == ForDeposit
    requires Collected(db.sessions[s], amount)
    ensures var r := HandleSession(db, Complete(s, u, choice, rowId, dbOk, saveOk));
            var ok := u in db.users && dbOk;
            && (r.error.None? <==> ok && saveOk)
            && (!ok ==> r.db == db)
            && (ok ==>
                  var user := db.users[u].(earnings := db.users[u].earnings + amount);
                  var record := Txn(u, WidgetCredit(s), amount, None, None, TxnCompleted, db.clock);
                  r.db == Closed(db.(users := db.users[u := user], txns := db.txns + [record]), s, saveOk))
  {
    MoneyEffects.DepositingFromWidget(db, s, u, amount, dbOk);
  }

  /** Without such an amount, neither a withdrawal nor a deposit is completed. */
  lemma CompletingWithoutAmount(db: Db, s: Id, u: Id, choice: Option<Id>, rowId: Id, dbOk: bool, saveOk: bool)
    requires IsChoice(db.banks, u, None, choice) && Completable(db, s, u) && db.sessions[s].trigger != ForOnboarding
    requires forall amount :: !Collected(db.sessions[s], amount)
    ensures HandleSession(db, Complete(s, u, choice, rowId, dbOk, saveOk)) == Refused(db, BadRequest)
  {
    var data := db.sessions[s].data;
    if CollectingAmount in data && data[CollectingAmount].Some? {
      assert !Collected(db.sessions[s], data[CollectingAmount].value);
    }
  }
}
