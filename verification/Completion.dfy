/** What a COMPLETED session says about money: it paid, unless all five of its steps were submitted. */
module Completion {
  import opened Wrappers
  import opened Money
  import opened Database
  import opened Ledger
  import opened MoneyOps
  import opened Profiles
  import opened Cards
  import opened Accounts
  import opened Widget
  import opened Platform
  import opened WidgetProofs
  import opened History
  import opened Scenarios
  import Safety

  ghost predicate HasPayout(payouts: map<Id, Payout>, s: Id) {
    exists p :: p in payouts && payouts[p].session == Some(s)
  }

  /**
   A completed DEPOSIT session has its credit, and a completed WITHDRAWAL session its payout, iff
   it has a step left.
   */
  ghost predicate CompletedIsPaid(db: Db) {
    forall s :: s in db.sessions && db.sessions[s].status == Finished ==>
      && (db.sessions[s].trigger == ForDeposit ==>
            (Refs(db.txns, SessionKey(s)) > 0 <==> |db.sessions[s].done| < 5))
      && (db.sessions[s].trigger == ForWithdrawal ==>
            (HasPayout(db.payouts, s) <==> |db.sessions[s].done| < 5))
  }

  ghost predicate SameEffect(db: Db, after: Db, s: Id) {
    && Refs(after.txns, SessionKey(s)) == Refs(db.txns, SessionKey(s))
    && (HasPayout(after.payouts, s) <==> HasPayout(db.payouts, s))
  }

  /** Requests of other kinds neither pay for a session nor take a payment back. */
  lemma UnrelatedKeepsEffects(db: Db, after: Db)
    requires Unrelated(db, after) && Later(db, after)
    ensures forall s :: SameEffect(db, after, s)
  {
    UnrelatedReferences(db, after);
    forall s: Id
      ensures HasPayout(after.payouts, s) <==> HasPayout(db.payouts, s)
    {
      if HasPayout(after.payouts, s) {
        var p :| p in after.payouts && after.payouts[p].session == Some(s);
        assert p in db.payouts;
      }
      if HasPayout(db.payouts, s) {
        var p :| p in db.payouts && db.payouts[p].session == Some(s);
        assert PayoutLater(db.payouts[p], after.payouts[p]);
      }
    }
  }

  lemma UnrelatedKeepsCompleted(db: Db, after: Db)
    requires CompletedIsPaid(db) && Unrelated(db, after) && Later(db, after) && after.sessions == db.sessions
    ensures CompletedIsPaid(after)
  {
    UnrelatedKeepsEffects(db, after);
    forall s: Id
      ensures SameEffect(db, after, s)
    {
    }
  }

  /** The session has its credit or its payout. */
  ghost predicate HasEffect(db: Db, s: Id, trigger: Trigger) {
    match trigger
    case ForOnboarding => false
    case ForWithdrawal => HasPayout(db.payouts, s)
    case ForDeposit => Refs(db.txns, SessionKey(s)) > 0
  }

  /** A row that is completed agrees with what its session was paid. */
  ghost predicate RowAgrees(db: Db, s: Id, row: Session) {
    row.status == Finished && row.trigger != ForOnboarding ==> (HasEffect(db, s, row.trigger) <==> |row.done| < 5)
  }

  lemma RowKeepsCompletedIff(db: Db, s: Id, row: Session)
    requires CompletedIsPaid(db)
    ensures CompletedIsPaid(db.(sessions := db.sessions[s := row])) <==> RowAgrees(db, s, row)
  {
    var after := db.(sessions := db.sessions[s := row]);
    assert after.sessions[s] == row;
  }

  /** The fifth submission is accepted of a session that was paid already. */
  ghost predicate FinishesPaidOn(db: Db, op: SessionOp) {
    && op.Submit? && op.session in db.sessions
    && var session := db.sessions[op.session];
       && session.user == op.user && db.clock - session.lastActivity <= HOUR
       && session.status == Active && session.step == op.step && |session.done| == 4
       && HasEffect(db, op.session, session.trigger)
  }

  lemma OnboardingsDoNotMatter(db: Db, after: Db)
    requires after == db.(onboardings := after.onboardings)
    ensures CompletedIsPaid(after) <==> CompletedIsPaid(db)
  {
  }

  lemma SubmittingKeepsCompletedIff(db: Db, s: Id, u: Id, step: WidgetStep, amount: Option<int>, requestId: Id)
    requires CompletedIsPaid(db) && SessionsSound(db)
    ensures CompletedIsPaid(SubmitStep(db, s, u, step, amount, requestId).db)
            <==> !FinishesPaidOn(db, Submit(s, u, step, amount, requestId))
  {
    var r := SubmitStep(db, s, u, step, amount, requestId);
    if r.error.None? {
      var row := Advance(db.sessions[s], step, amount, db.clock);
      SubmissionAdvances(db.sessions[s], amount, db.clock);
      RowKeepsCompletedIff(db, s, row);
      OnboardingsDoNotMatter(db.(sessions := db.sessions[s := row]), r.db);
    } else if s in db.sessions {
      RowKeepsCompletedIff(db, s, db.sessions[s].(status := Abandoned));
    }
  }

  // ---------- Completing a session ----------

  /** Processing a DEPOSIT or WITHDRAWAL session with success pays for it and for no other. */
  lemma ProcessingPays(db: Db, s: Id, choice: Option<Id>, rowId: Id, dbOk: bool)
    requires s in db.sessions && db.sessions[s].trigger != ForOnboarding
    requires IsChoice(db.banks, db.sessions[s].user, None, choice)
    requires Process(db, s, db.sessions[s], choice, rowId, dbOk).error.None?
    ensures var after := Process(db, s, db.sessions[s], choice, rowId, dbOk).db;
            && (db.sessions[s].trigger == ForDeposit ==> Refs(after.txns, SessionKey(s)) > 0)
            && (db.sessions[s].trigger == ForWithdrawal ==> HasPayout(after.payouts, s))
            && forall x :: x != s ==> SameEffect(db, after, x)
  {
    var after := Process(db, s, db.sessions[s], choice, rowId, dbOk).db;
    if db.sessions[s].trigger == ForDeposit {
      var p := ReadWidgetDeposit(db, s, db.sessions[s].user, AmountOf(db.sessions[s]).value);
      ReplayAppend(db.txns, Posted(db, p));
    } else {
      InsertedPayout(db.payouts, rowId, after.payouts[rowId]);
    }
  }

  lemma InsertedPayout(payouts: map<Id, Payout>, id: Id, p: Payout)
    requires id !in payouts && p.session.Some?
    ensures HasPayout(payouts[id := p], p.session.value)
    ensures forall s :: s != p.session.value ==> (HasPayout(payouts[id := p], s) <==> HasPayout(payouts, s))
  {
    var after := payouts[id := p];
    assert after[id].session == p.session;
    forall s: Id | s != p.session.value
      ensures HasPayout(after, s) <==> HasPayout(payouts, s)
    {
      if q :| q in payouts && payouts[q].session == Some(s) {
        assert after[q].session == Some(s);
      }
    }
  }

  /** completeSession's last save, after the session was paid for. */
  lemma FinishingKeepsCompleted(db: Db, done: Db, s: Id)
    requires CompletedIsPaid(db) && done.sessions == db.sessions && s in db.sessions
    requires db.sessions[s].status == Active && |db.sessions[s].done| < 5
    requires forall x :: x != s ==> SameEffect(db, done, x)
    requires db.sessions[s].trigger == ForDeposit ==> Refs(done.txns, SessionKey(s)) > 0
    requires db.sessions[s].trigger == ForWithdrawal ==> HasPayout(done.payouts, s)
    ensures var row := done.sessions[s].(status := Finished, step := StepCompleted);
            CompletedIsPaid(done.(sessions := done.sessions[s := row]))
  {
    forall x | x in db.sessions && x != s
      ensures SameEffect(db, done, x)
    {
    }
  }

  /** If that save fails, the session stays active and says nothing. */
  lemma UnsavedKeepsCompleted(db: Db, done: Db, s: Id)
    requires CompletedIsPaid(db) && done.sessions == db.sessions && s in db.sessions
    requires db.sessions[s].status == Active && forall x :: x != s ==> SameEffect(db, done, x)
    ensures CompletedIsPaid(done)
  {
    forall x | x in db.sessions && x != s
      ensures SameEffect(db, done, x)
    {
    }
  }

  lemma OnboardingPaysNothing(db: Db, s: Id, choice: Option<Id>, rowId: Id, dbOk: bool)
    requires s in db.sessions && db.sessions[s].trigger == ForOnboarding
    requires IsChoice(db.banks, db.sessions[s].user, None, choice)
    ensures forall x :: SameEffect(db, Process(db, s, db.sessions[s], choice, rowId, dbOk).db, x)
  {
  }

  lemma WorkingKeepsCompleted(db: Db, s: Id, u: Id, choice: Option<Id>, rowId: Id, dbOk: bool, saveOk: bool)
    requires CompletedIsPaid(db) && SessionsSound(db) && IsChoice(db.banks, u, None, choice)
    requires GetSession(db, s, u).error.None? && db.sessions[s].status != Finished
    requires Process(db, s, db.sessions[s], choice, rowId, dbOk).error.None?
    ensures CompletedIsPaid(CompleteSession(db, s, u, choice, rowId, dbOk, saveOk).db)
  {
    AcceptedIsNotAbandoned(db, s, u);
    var done := Process(db, s, db.sessions[s], choice, rowId, dbOk).db;
    if db.sessions[s].trigger != ForOnboarding {
      ProcessingPays(db, s, choice, rowId, dbOk);
    } else {
      OnboardingPaysNothing(db, s, choice, rowId, dbOk);
    }
    if saveOk {
      FinishingKeepsCompleted(db, done, s);
    } else {
      UnsavedKeepsCompleted(db, done, s);
    }
  }

  lemma CompletingKeepsCompleted(db: Db, s: Id, u: Id, choice: Option<Id>, rowId: Id, dbOk: bool, saveOk: bool)
    requires CompletedIsPaid(db) && SessionsSound(db) && IsChoice(db.banks, u, None, choice)
    ensures CompletedIsPaid(CompleteSession(db, s, u, choice, rowId, dbOk, saveOk).db)
  {
    if GetSession(db, s, u).error.Some? {
      if s in db.sessions {
        RowKeepsCompletedIff(db, s, db.sessions[s].(status := Abandoned));
      }
    } else if db.sessions[s].status != Finished
           && Process(db, s, db.sessions[s], choice, rowId, dbOk).error.None? {
      WorkingKeepsCompleted(db, s, u, choice, rowId, dbOk, saveOk);
    }
  }

  lemma SessionKeepsCompletedIff(db: Db, op: SessionOp)
    requires CompletedIsPaid(db) && SessionsSound(db) && AllowedSession(db, op)
    ensures CompletedIsPaid(HandleSession(db, op).db) <==> !FinishesPaidOn(db, op)
  {
    match op
    case Init(s, u, t) => RowKeepsCompletedIff(db, s, Session(u, t, InitialStep(t), [], map[], Active, db.clock));
    case Get(s, u) =>
      if s in db.sessions {
        RowKeepsCompletedIff(db, s, db.sessions[s].(status := Abandoned));
      }
    case Submit(s, u, step, amount, requestId) => SubmittingKeepsCompletedIff(db, s, u, step, amount, requestId);
    case Complete(s, u, choice, rowId, dbOk, saveOk) =>
      CompletingKeepsCompleted(db, s, u, choice, rowId, dbOk, saveOk);
  }

  // ---------- Every run ----------

  lemma FundingIsUnrelated(db: Db, f: Funding)
    ensures Unrelated(db, Fund(db, f).db)
  {
    var op := FundCard(f.card, f.user, f.amount, f.settlement, f.sudoBalance);
    MoneyIsUnrelated(ReadySync(db, f), op, f.dbOk);
  }

  lemma OthersPayNothing(db: Db, e: Event)
    requires Allowed(db, e) && !e.op.WidgetCall?
    ensures Unrelated(db.(clock := e.now), Step(db, e))
  {
    var now := db.(clock := e.now);
    match e.op
    case Profile(op) => assert HandleProfile(now, op).db.payouts == db.payouts;
    case MoveMoney(op, dbOk) => MoneyIsUnrelated(now, op, dbOk);
    case FundFromWallet(f) => FundingIsUnrelated(now, f);
    case Request(op) => Safety.RequestsAreUnrelated(now, op);
    case Bank(op) => assert HandleBank(now, op).db.payouts == db.payouts;
  }

  /** Whatever is not a widget call leaves the sessions and their payments alone. */
  lemma OthersAreUnrelated(db: Db, e: Event)
    requires Allowed(db, e) && !e.op.WidgetCall?
    ensures Unrelated(db, Step(db, e)) && Step(db, e).sessions == db.sessions
  {
    OthersPayNothing(db, e);
    OthersKeepSessions(db, e);
  }

  ghost predicate FinishesPaid(db: Db, e: Event) {
    e.op.WidgetCall? && FinishesPaidOn(db.(clock := e.now), e.op.call)
  }

  /** One request keeps "completed is paid" exactly if it is not the fifth submission of a paid session. */
  lemma StepKeepsCompletedIff(db: Db, e: Event)
    requires CompletedIsPaid(db) && Safety.Inv(db) && Allowed(db, e)
    ensures CompletedIsPaid(Step(db, e)) <==> !FinishesPaid(db, e)
  {
    if e.op.WidgetCall? {
      Safety.TimePasses(db, e.now);
      SessionKeepsCompletedIff(db.(clock := e.now), e.op.call);
    } else {
      OthersAreUnrelated(db, e);
      StepIsLater(db, e);
      UnrelatedKeepsCompleted(db, Step(db, e));
    }
  }

  ghost predicate NothingFinishesPaid(db: Db, es: seq<Event>)
    requires AllowedRun(db, es)
  {
    es == [] || (NothingFinishesPaid(db, es[..|es| - 1]) && !FinishesPaid(Run(db, es[..|es| - 1]), es[|es| - 1]))
  }

  ghost predicate CompletedIsAlwaysPaid(db: Db, es: seq<Event>)
    requires AllowedRun(db, es)
  {
    CompletedIsPaid(Run(db, es)) && (es == [] || CompletedIsAlwaysPaid(db, es[..|es| - 1]))
  }

  /**
   For every run, whatever saves fail: in every state a completed DEPOSIT session has a credit, and a
   completed WITHDRAWAL session a payout, exactly if it was completed before its fifth submission; and
   this holds exactly if no fifth submission meets a session that was paid already.
   */
  lemma {:induction false} CompletedIsPaidIff(clock: int, settings: Settings, es: seq<Event>)
    requires ValidSettings(settings) && AllowedRun(EmptyDb(clock, settings), es)
    ensures CompletedIsAlwaysPaid(EmptyDb(clock, settings), es) <==> NothingFinishesPaid(EmptyDb(clock, settings), es)
  {
    if es == [] {
      assert Run(EmptyDb(clock, settings), es) == EmptyDb(clock, settings);
    } else {
      var before := es[..|es| - 1];
      CompletedIsPaidIff(clock, settings, before);
      Safety.ReachableInv(clock, settings, before);
      if CompletedIsPaid(Run(EmptyDb(clock, settings), before)) {
        StepKeepsCompletedIff(Run(EmptyDb(clock, settings), before), es[|es| - 1]);
      }
    }
  }

  lemma UnpaidFinish(db: Db, e: Event)
    requires PaidOnce(db)
    ensures !FinishesPaid(db, e)
  {
    forall s | s in db.sessions
      ensures HasEffect(db, s, db.sessions[s].trigger) ==> WidgetProofs.Paid(db, s)
    {
    }
  }

  /** In particular in every run whose final session saves succeed. */
  lemma {:induction false} CompletedIsPaidOrSubmitted(clock: int, settings: Settings, es: seq<Event>)
    requires ValidSettings(settings) && AllowedRun(EmptyDb(clock, settings), es)
    requires forall i :: 0 <= i < |es| ==> Safety.Saves(es[i])
    ensures CompletedIsPaid(Run(EmptyDb(clock, settings), es))
  {
    if es == [] {
      assert Run(EmptyDb(clock, settings), es) == EmptyDb(clock, settings);
    } else {
      var before := es[..|es| - 1];
      assert forall i :: 0 <= i < |before| ==> before[i] == es[i];
      CompletedIsPaidOrSubmitted(clock, settings, before);
      Safety.ReachableInv(clock, settings, before);
      Safety.SessionsPayOnce(clock, settings, before);
      UnpaidFinish(Run(EmptyDb(clock, settings), before), es[|es| - 1]);
      StepKeepsCompletedIff(Run(EmptyDb(clock, settings), before), es[|es| - 1]);
    }
  }

  // ---------- Completed by submissions alone ----------

  /** The session row after k submissions of the same amount. */
  function Submitted(t: Trigger, amount: Option<int>, k: nat): Session {
    if k == 0 then NewSession(t) else Advance(Submitted(t, amount, k - 1), Submitted(t, amount, k - 1).step, amount, 0)
  }

  /** Submitting the step that is due. */
  function Submission(row: Session, amount: Option<int>): Event {
    Event(0, WidgetCall(Submit(0, 0, row.step, amount, 0)))
  }

  /** The opening, and then k submissions of whatever step is due. */
  function SubmissionRun(t: Trigger, amount: Option<int>, k: nat): seq<Event> {
    if k == 0 then Opening(t)
    else SubmissionRun(t, amount, k - 1) + [Submission(Submitted(t, amount, k - 1), amount)]
  }

  predicate Ready(row: Session, t: Trigger, k: nat) {
    && InFlow(row) && |row.done| == k && row.user == 0 && row.trigger == t && row.lastActivity == 0
    && row.status == if k < 5 then Active else Finished
  }

  lemma {:induction false} SubmittedIsReady(t: Trigger, amount: Option<int>, k: nat)
    requires k <= 5
    ensures Ready(Submitted(t, amount, k), t, k)
  {
    if k == 0 {
    } else {
      SubmittedIsReady(t, amount, k - 1);
      SubmissionAdvances(Submitted(t, amount, k - 1), amount, 0);
    }
  }

  lemma SubmissionLeads(settings: Settings, row: Session, amount: Option<int>)
    requires row.user == 0 && row.lastActivity == 0 && row.status == Active && row.trigger != ForOnboarding
    ensures Allowed(WithRow(settings, row), Submission(row, amount))
    ensures Step(WithRow(settings, row), Submission(row, amount))
            == WithRow(settings, Advance(row, row.step, amount, 0))
  {
    var db := WithRow(settings, row);
    assert db.(clock := 0) == db;
    assert db.sessions[0 := Advance(row, row.step, amount, 0)] == map[0 := Advance(row, row.step, amount, 0)];
  }

  lemma {:induction false} SubmissionsLead(settings: Settings, t: Trigger, amount: Option<int>, k: nat)
    requires ValidSettings(settings) && t != ForOnboarding && k <= 5
    ensures AllowedRun(EmptyDb(0, settings), SubmissionRun(t, amount, k))
    ensures Run(EmptyDb(0, settings), SubmissionRun(t, amount, k)) == WithRow(settings, Submitted(t, amount, k))
  {
    if k == 0 {
      OpeningLeads(settings, t);
    } else {
      SubmissionsLead(settings, t, amount, k - 1);
      SubmittedIsReady(t, amount, k - 1);
      var row := Submitted(t, amount, k - 1);
      SubmissionLeads(settings, row, amount);
      RunExtends(EmptyDb(0, settings), SubmissionRun(t, amount, k - 1), Submission(row, amount));
    }
  }

  /** Five submissions, of any amount, complete a session that never pays. */
  lemma FiveSubmissionsPayNothing(settings: Settings, t: Trigger, amount: Option<int>)
    requires ValidSettings(settings) && t != ForOnboarding
    ensures AllowedRun(EmptyDb(0, settings), SubmissionRun(t, amount, 5))
    ensures var db := Run(EmptyDb(0, settings), SubmissionRun(t, amount, 5));
            && 0 in db.sessions && db.sessions[0].status == Finished && |db.sessions[0].done| == 5
            && db.txns == [] && db.payouts == map[] && 0 in db.users && db.users[0].earnings == 0
  {
    SubmissionsLead(settings, t, amount, 5);
    SubmittedIsReady(t, amount, 5);
  }
}
