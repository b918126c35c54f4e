/**
 Widget sessions: how they advance, and that each pays at most once although nothing but the time of
 the last activity tells an abandoned session that was paid from one that was not.
 */
module WidgetProofs {
  import opened Wrappers
  import opened Database
  import opened Ledger
  import opened MoneyOps
  import opened Accounts
  import opened Widget

  // ---------- The order of the steps ----------

  /** The five steps a session of each kind goes through. */
  function Flow(t: Trigger): (flow: seq<WidgetStep>)
    ensures |flow| == 5
  {
    match t
    case ForOnboarding =>
      [RequestCredentials, WaitingForAdmin, TiktokSetupInstructions, ConfirmSetup, PendingVerification]
    case _ => [CollectingAmount, CollectingProof, ConfirmingPaypal, PendingAdmin, Processing]
  }

  /**
   The completed steps are a prefix of the flow and have exactly the submitted data; an active
   session stands at the step after them, a session with all five is not active.
   */
  predicate InFlow(s: Session) {
    var k := |s.done|;
    && k <= 5 && s.done == Flow(s.trigger)[..k]
    && (forall x :: x in s.data <==> x in s.done)
    && (s.status == Active ==> k < 5 && s.step == Flow(s.trigger)[k])
  }

  /**
   An accepted submission completes one more step of the flow.  There always is a next step, so the
   fallback for a missing one is never taken, and the fifth submission finishes the session.
   */
  lemma SubmissionAdvances(s: Session, amount: Option<int>, now: int)
    requires InFlow(s) && s.status == Active
    ensures var after := Advance(s, s.step, amount, now);
            && InFlow(after) && NextStep(s.trigger, s.step).Some?
            && after.done == s.done + [s.step]
            && (after.status == Finished <==> |after.done| == 5)
            && (after.status != Finished ==> after.status == Active)
  {
    var flow, k := Flow(s.trigger), |s.done|;
    assert flow[..k + 1] == flow[..k] + [flow[k]];
    assert flow[k] !in flow[..k];
  }

  lemma SubmissionKeepsAmount(s: Session, amount: Option<int>, now: int)
    requires InFlow(s) && s.status == Active && AmountOf(s).Some?
    ensures AmountOf(Advance(s, s.step, amount, now)) == AmountOf(s)
  {
    var flow, k := Flow(s.trigger), |s.done|;
    assert flow[k] !in flow[..k];
  }

  // ---------- What every session keeps ----------

  /** An abandoned session has been idle for more than an hour, so no later getSession accepts it. */
  predicate InTime(db: Db, s: Session) {
    s.status == Abandoned ==> db.clock - s.lastActivity > HOUR
  }

  /** A widget credit is the amount its DEPOSIT session collected, for the session's user. */
  predicate CreditOfSession(db: Db, t: Txn) {
    t.source.WidgetCredit? ==>
      var s := t.source.session;
      && s in db.sessions && db.sessions[s].trigger == ForDeposit && db.sessions[s].user == t.user
      && AmountOf(db.sessions[s]) == Some(t.amount)
  }

  /** A payout made by a session is for the amount its WITHDRAWAL session collected. */
  predicate PayoutOfSession(db: Db, p: Payout) {
    p.session.Some? ==>
      var s := p.session.value;
      && s in db.sessions && db.sessions[s].trigger == ForWithdrawal && db.sessions[s].user == p.user
      && AmountOf(db.sessions[s]) == Some(p.quote.amount)
  }

  ghost predicate SessionsSound(db: Db) {
    && (forall s :: s in db.sessions ==> InFlow(db.sessions[s]) && InTime(db, db.sessions[s]))
    && (forall i :: 0 <= i < |db.txns| ==> CreditOfSession(db, db.txns[i]))
    && (forall p :: p in db.payouts ==> PayoutOfSession(db, db.payouts[p]))
  }

  /** The session has had its one effect. */
  ghost predicate Paid(db: Db, s: Id) {
    Refs(db.txns, SessionKey(s)) > 0 || exists p :: p in db.payouts && db.payouts[p].session == Some(s)
  }

  predicate SameSession(p: Payout, q: Payout) {
    p.session.Some? && p.session == q.session
  }

  /** A session credits at most once and makes at most one payout. */
  ghost predicate OneEffect(db: Db) {
    && (forall s :: Refs(db.txns, SessionKey(s)) <= 1)
    && (forall p, q :: p in db.payouts && q in db.payouts && SameSession(db.payouts[p], db.payouts[q]) ==> p == q)
  }

  /** And, except for one that is just being completed, it is not active once it has. */
  ghost predicate PaidOnceBut(db: Db, except: Option<Id>) {
    && OneEffect(db)
    && (forall s :: s in db.sessions && db.sessions[s].status == Active && Some(s) != except ==> !Paid(db, s))
  }

  ghost predicate PaidOnce(db: Db) {
    PaidOnceBut(db, None)
  }

  // ---------- Requests that leave the sessions alone ----------

  /** The log gained at most one record, and not a widget credit; no payout came from a session. */
  predicate Unrelated(db: Db, after: Db) {
    && (after.txns == db.txns
        || (|after.txns| == |db.txns| + 1 && after.txns[..|db.txns|] == db.txns
            && !after.txns[|db.txns|].source.WidgetCredit?))
    && forall p :: p in after.payouts && after.payouts[p].session.Some? ==>
         && p in db.payouts && after.payouts[p].session == db.payouts[p].session
         && after.payouts[p].user == db.payouts[p].user && after.payouts[p].quote == db.payouts[p].quote
  }

  lemma UnrelatedKeepsSessions(db: Db, after: Db)
    requires SessionsSound(db) && Unrelated(db, after)
    requires after.sessions == db.sessions && after.clock >= db.clock
    ensures SessionsSound(after)
    ensures PaidOnce(db) ==> PaidOnce(after)
  {
    forall i | 0 <= i < |after.txns|
      ensures CreditOfSession(after, after.txns[i])
    {
      if i < |db.txns| {
        assert after.txns[i] == db.txns[i];
        assert CreditOfSession(db, db.txns[i]);
      }
    }
    UnrelatedReferences(db, after);
    forall p | p in after.payouts
      ensures PayoutOfSession(after, after.payouts[p])
    {
      assert p in db.payouts ==> PayoutOfSession(db, db.payouts[p]);
    }
  }

  lemma UnrelatedReferences(db: Db, after: Db)
    requires Unrelated(db, after)
    ensures forall s :: Refs(after.txns, SessionKey(s)) == Refs(db.txns, SessionKey(s))
  {
    if after.txns != db.txns {
      var t := after.txns[|db.txns|];
      ReplayAppend(db.txns, t);
      assert after.txns == db.txns + [t];
    }
  }

  lemma MoneyIsUnrelated(db: Db, op: MoneyOp, dbOk: bool)
    requires !op.WidgetDeposit?
    ensures Unrelated(db, Perform(db, op, dbOk).db)
  {
  }

  // ---------- Changes of one session row ----------

  predicate Evolves(before: Session, next: Session) {
    && next.user == before.user && next.trigger == before.trigger
    && (AmountOf(before).Some? ==> AmountOf(next) == AmountOf(before))
    && (next.status == Active ==> before.status == Active)
  }

  lemma EvolvingKeepsSessions(db: Db, s: Id, next: Session)
    requires SessionsSound(db) && s in db.sessions
    requires Evolves(db.sessions[s], next) && InFlow(next) && InTime(db, next)
    ensures SessionsSound(db.(sessions := db.sessions[s := next]))
    ensures PaidOnce(db) ==> PaidOnce(db.(sessions := db.sessions[s := next]))
  {
    var after := db.(sessions := db.sessions[s := next]);
    assert forall t :: CreditOfSession(db, t) ==> CreditOfSession(after, t);
    assert forall p :: PayoutOfSession(db, p) ==> PayoutOfSession(after, p);
    assert forall x :: Paid(after, x) == Paid(db, x);
  }

  lemma NewSessionKeepsSessions(db: Db, s: Id, u: Id, t: Trigger)
    requires SessionsSound(db)
    ensures SessionsSound(InitSession(db, s, u, t).db)
    ensures PaidOnce(db) ==> PaidOnce(InitSession(db, s, u, t).db)
  {
    if s !in db.sessions {
      InsertingSession(db, s, Session(u, t, InitialStep(t), [], map[], Active, db.clock));
    }
  }

  lemma InsertingSession(db: Db, s: Id, row: Session)
    requires SessionsSound(db) && s !in db.sessions && InFlow(row) && row.status == Active
    ensures SessionsSound(db.(sessions := db.sessions[s := row]))
    ensures PaidOnce(db) ==> PaidOnce(db.(sessions := db.sessions[s := row]))
  {
    var after := db.(sessions := db.sessions[s := row]);
    assert forall t :: CreditOfSession(db, t) ==> CreditOfSession(after, t);
    assert forall p :: PayoutOfSession(db, p) ==> PayoutOfSession(after, p);
    PaidSessionsExist(db, s);
    forall x: Id
      ensures Paid(after, x) == Paid(db, x)
    {
    }
  }

  lemma PaidSessionsExist(db: Db, s: Id)
    requires SessionsSound(db) && s !in db.sessions
    ensures !Paid(db, s)
  {
    ReferencedIff(db.txns, SessionKey(s));
    assert forall i :: 0 <= i < |db.txns| ==> CreditOfSession(db, db.txns[i]);
    assert forall p :: p in db.payouts ==> PayoutOfSession(db, db.payouts[p]);
  }

  lemma GettingKeepsSessions(db: Db, s: Id, u: Id)
    requires SessionsSound(db)
    ensures SessionsSound(GetSession(db, s, u).db)
    ensures PaidOnce(db) ==> PaidOnce(GetSession(db, s, u).db)
  {
    if s in db.sessions && db.clock - db.sessions[s].lastActivity > HOUR {
      EvolvingKeepsSessions(db, s, db.sessions[s].(status := Abandoned));
    }
  }

  /** An accepted getSession never returns an abandoned session. */
  lemma AcceptedIsNotAbandoned(db: Db, s: Id, u: Id)
    requires SessionsSound(db) && GetSession(db, s, u).error.None?
    ensures db.sessions[s].status != Abandoned
  {
  }

  lemma AdvancingKeepsSessions(db: Db, s: Id, amount: Option<int>)
    requires SessionsSound(db) && s in db.sessions && db.sessions[s].status == Active
    ensures var row := Advance(db.sessions[s], db.sessions[s].step, amount, db.clock);
            var after := db.(sessions := db.sessions[s := row]);
            SessionsSound(after) && (PaidOnce(db) ==> PaidOnce(after))
  {
    var session := db.sessions[s];
    SubmissionAdvances(session, amount, db.clock);
    if AmountOf(session).Some? {
      SubmissionKeepsAmount(session, amount, db.clock);
    }
    EvolvingKeepsSessions(db, s, Advance(session, session.step, amount, db.clock));
  }

  lemma SubmittingKeepsSessions(db: Db, s: Id, u: Id, step: WidgetStep, amount: Option<int>, requestId: Id)
    requires SessionsSound(db)
    ensures SessionsSound(SubmitStep(db, s, u, step, amount, requestId).db)
    ensures PaidOnce(db) ==> PaidOnce(SubmitStep(db, s, u, step, amount, requestId).db)
  {
    var r := SubmitStep(db, s, u, step, amount, requestId);
    if r.error.None? {
      var saved := db.(sessions := db.sessions[s := Advance(db.sessions[s], step, amount, db.clock)]);
      AdvancingKeepsSessions(db, s, amount);
      assert r.db == saved.(onboardings := r.db.onboardings);
      UnrelatedKeepsSessions(saved, r.db);
    } else {
      GettingKeepsSessions(db, s, u);
    }
  }

  // ---------- Completing a session ----------

  lemma PostingKeepsSessions(db: Db, s: Id, t: Txn, users: map<Id, User>)
    requires SessionsSound(db) && CreditOfSession(db, t) && KeyOf(t) == Some(SessionKey(s))
    ensures var after := db.(users := users, txns := db.txns + [t]);
            SessionsSound(after) && (PaidOnce(db) && db.sessions[s].status == Active ==> PaidOnceBut(after, Some(s)))
  {
    ReplayAppend(db.txns, t);
    var after := db.(users := users, txns := db.txns + [t]);
    assert forall x :: x != s && Paid(after, x) ==> Paid(db, x);
  }

  lemma DepositKeepsSessions(db: Db, s: Id, dbOk: bool)
    requires SessionsSound(db) && s in db.sessions && db.sessions[s].trigger == ForDeposit
    ensures var after := CompleteDeposit(db, s, db.sessions[s], dbOk).db;
            SessionsSound(after) && (PaidOnce(db) && db.sessions[s].status == Active ==> PaidOnceBut(after, Some(s)))
  {
    var r := CompleteDeposit(db, s, db.sessions[s], dbOk);
    if r.error.None? {
      var p := Read(db, WidgetDeposit(s, db.sessions[s].user, AmountOf(db.sessions[s]).value));
      PostingKeepsSessions(db, s, Posted(db, p), r.db.users);
    }
  }

  lemma InsertingKeepsSessions(db: Db, s: Id, id: Id, p: Payout)
    requires SessionsSound(db) && PayoutOfSession(db, p) && p.session == Some(s) && id !in db.payouts
    ensures var after := db.(payouts := db.payouts[id := p]);
            SessionsSound(after) && (PaidOnce(db) && db.sessions[s].status == Active ==> PaidOnceBut(after, Some(s)))
  {
    var after := db.(payouts := db.payouts[id := p]);
    assert forall x :: x != s && Paid(after, x) ==> Paid(db, x);
  }

  lemma WithdrawalKeepsSessions(db: Db, s: Id, choice: Option<Id>, rowId: Id)
    requires SessionsSound(db) && s in db.sessions && db.sessions[s].trigger == ForWithdrawal
    requires IsChoice(db.banks, db.sessions[s].user, None, choice)
    ensures var after := CompleteWithdrawal(db, s, db.sessions[s], choice, rowId).db;
            SessionsSound(after) && (PaidOnce(db) && db.sessions[s].status == Active ==> PaidOnceBut(after, Some(s)))
  {
    var r := CompleteWithdrawal(db, s, db.sessions[s], choice, rowId);
    if r.error.None? {
      InsertingKeepsSessions(db, s, rowId, r.db.payouts[rowId]);
    }
  }

  lemma OnboardingKeepsSessions(db: Db, s: Id, u: Id, rowId: Id)
    requires SessionsSound(db)
    ensures var after := CompleteOnboarding(db, u, rowId).db;
            SessionsSound(after) && (PaidOnce(db) ==> PaidOnceBut(after, Some(s)))
  {
    UnrelatedKeepsSessions(db, CompleteOnboarding(db, u, rowId).db);
  }

  lemma ProcessingPaysOnce(db: Db, s: Id, choice: Option<Id>, rowId: Id, dbOk: bool)
    requires SessionsSound(db) && s in db.sessions
    requires IsChoice(db.banks, db.sessions[s].user, None, choice)
    ensures var after := Process(db, s, db.sessions[s], choice, rowId, dbOk).db;
            SessionsSound(after) && (PaidOnce(db) && db.sessions[s].status == Active ==> PaidOnceBut(after, Some(s)))
  {
    match db.sessions[s].trigger
    case ForOnboarding => OnboardingKeepsSessions(db, s, db.sessions[s].user, rowId);
    case ForWithdrawal => WithdrawalKeepsSessions(db, s, choice, rowId);
    case ForDeposit => DepositKeepsSessions(db, s, dbOk);
  }

  lemma CompletingKeepsSessions(db: Db, s: Id, u: Id, choice: Option<Id>, rowId: Id, dbOk: bool, saveOk: bool)
    requires SessionsSound(db) && IsChoice(db.banks, u, None, choice)
    ensures SessionsSound(CompleteSession(db, s, u, choice, rowId, dbOk, saveOk).db)
    ensures PaidOnce(db) && saveOk ==> PaidOnce(CompleteSession(db, s, u, choice, rowId, dbOk, saveOk).db)
  {
    GettingKeepsSessions(db, s, u);
    if GetSession(db, s, u).error.None? && db.sessions[s].status != Finished {
      AcceptedIsNotAbandoned(db, s, u);
      var done := Process(db, s, db.sessions[s], choice, rowId, dbOk);
      ProcessingPaysOnce(db, s, choice, rowId, dbOk);
      if done.error.None? {
        FinishingKeepsSessions(done.db, s);
      }
    }
  }

  lemma FinishingKeepsSessions(db: Db, s: Id)
    requires SessionsSound(db) && s in db.sessions
    ensures var after := db.(sessions := db.sessions[s := db.sessions[s].(status := Finished, step := StepCompleted)]);
            SessionsSound(after) && (PaidOnceBut(db, Some(s)) ==> PaidOnce(after))
  {
    var next := db.sessions[s].(status := Finished, step := StepCompleted);
    var after := db.(sessions := db.sessions[s := next]);
    EvolvingKeepsSessions(db, s, next);
    assert forall x :: Paid(after, x) == Paid(db, x);
  }

  lemma SessionsKeepSessions(db: Db, op: SessionOp)
    requires SessionsSound(db) && AllowedSession(db, op)
    ensures SessionsSound(HandleSession(db, op).db)
    ensures PaidOnce(db) && (op.Complete? ==> op.saveOk) ==> PaidOnce(HandleSession(db, op).db)
  {
    match op
    case Init(s, u, t) => NewSessionKeepsSessions(db, s, u, t);
    case Get(s, u) => GettingKeepsSessions(db, s, u);
    case Submit(s, u, step, amount, requestId) => SubmittingKeepsSessions(db, s, u, step, amount, requestId);
    case Complete(s, u, choice, rowId, dbOk, saveOk) => CompletingKeepsSessions(db, s, u, choice, rowId, dbOk, saveOk);
  }
}
