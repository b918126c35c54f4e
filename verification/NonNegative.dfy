/**
 Balances never go negative, except by completing a deposit session that collected a negative amount
 the earnings do not cover: completeDeposit only checks that the amount is not missing or 0.
 */
module NonNegative {
  import opened Wrappers
  import opened Money
  import opened Database
  import opened MoneyOps
  import opened Profiles
  import opened Cards
  import opened Accounts
  import opened Requests
  import opened Widget
  import opened Platform
  import opened LifecycleProofs
  import opened Scenarios
  import Safety

  ghost predicate NonNegativeBalances(db: Db) {
    forall u :: u in db.users ==> db.users[u].earnings >= 0 && db.users[u].wallet >= 0
  }

  // ---------- Money operations ----------

  predicate WritesNonNegative(w: UserWrite) {
    match w
    case KeepUser => true
    case SetEarnings(_, e) => e >= 0
    case SetWallet(_, w) => w >= 0
    case SetBoth(_, e, w) => e >= 0 && w >= 0
  }

  lemma WritingKeepsBalances(db: Db, p: Plan)
    requires NonNegativeBalances(db) && WritesNonNegative(p.user)
    ensures NonNegativeBalances(Apply(db, p))
  {
  }

  /** The balance checks before each debit keep the written balances from being negative. */
  lemma PlansStayNonNegative(db: Db, op: MoneyOp)
    requires NonNegativeBalances(db) && RowsSound(db) && AllowedMoney(op)
    ensures WritesNonNegative(Read(db, op).user)
  {
    if op.ApproveCredit? && op.credit in db.credits {
      assert CreditSound(db, db.credits[op.credit]);
    }
  }

  lemma MoneyKeepsBalances(db: Db, op: MoneyOp, dbOk: bool)
    requires NonNegativeBalances(db) && RowsSound(db) && AllowedMoney(op)
    ensures NonNegativeBalances(Perform(db, op, dbOk).db)
  {
    PlansStayNonNegative(db, op);
    WritingKeepsBalances(db, Read(db, op));
  }

  // ---------- Widget sessions ----------

  /** The deposit of a session is written and takes the user's earnings below 0. */
  predicate DepositOverdraws(db: Db, session: Session, dbOk: bool) {
    && session.trigger == ForDeposit && dbOk
    && session.user in db.users && AmountOf(session).Some?
    && db.users[session.user].earnings + AmountOf(session).value < 0
  }

  lemma DepositBalances(db: Db, op: MoneyOp, dbOk: bool)
    requires NonNegativeBalances(db) && op.WidgetDeposit?
    ensures NonNegativeBalances(Perform(db, op, dbOk).db)
            <==> !(dbOk && op.user in db.users && db.users[op.user].earnings + op.amount < 0)
  {
    var p := Read(db, op);
    if op.user in db.users && p.user.value < 0 && dbOk {
      var after := Apply(db, p);
      assert op.user in after.users && after.users[op.user].earnings < 0;
    } else if p.user.SetEarnings? && p.user.value >= 0 {
      WritingKeepsBalances(db, p);
    }
  }

  lemma ProcessBalances(db: Db, s: Id, session: Session, choice: Option<Id>, rowId: Id, dbOk: bool)
    requires NonNegativeBalances(db) && IsChoice(db.banks, session.user, None, choice)
    ensures NonNegativeBalances(Process(db, s, session, choice, rowId, dbOk).db)
            <==> !DepositOverdraws(db, session, dbOk)
  {
    if session.trigger == ForDeposit && AmountOf(session).Some? {
      DepositBalances(db, WidgetDeposit(s, session.user, AmountOf(session).value), dbOk);
    }
  }

  /** completeSession of a session in time that is not yet completed, and whose deposit overdraws. */
  predicate SessionOverdraws(db: Db, op: SessionOp) {
    && op.Complete? && op.session in db.sessions
    && var session := db.sessions[op.session];
       && session.user == op.user && session.status != Finished && db.clock - session.lastActivity <= HOUR
       && DepositOverdraws(db, session, op.dbOk)
  }

  lemma CompletingBalances(db: Db, s: Id, u: Id, choice: Option<Id>, rowId: Id, dbOk: bool, saveOk: bool)
    requires NonNegativeBalances(db) && IsChoice(db.banks, u, None, choice)
    ensures NonNegativeBalances(CompleteSession(db, s, u, choice, rowId, dbOk, saveOk).db)
            <==> !SessionOverdraws(db, Complete(s, u, choice, rowId, dbOk, saveOk))
  {
    if GetSession(db, s, u).error.None? && db.sessions[s].status != Finished {
      var done := Process(db, s, db.sessions[s], choice, rowId, dbOk).db;
      ProcessBalances(db, s, db.sessions[s], choice, rowId, dbOk);
      assert CompleteSession(db, s, u, choice, rowId, dbOk, saveOk).db.users == done.users;
    } else {
      assert CompleteSession(db, s, u, choice, rowId, dbOk, saveOk).db.users == db.users;
    }
  }

  lemma SessionBalances(db: Db, op: SessionOp)
    requires NonNegativeBalances(db) && AllowedSession(db, op)
    ensures NonNegativeBalances(HandleSession(db, op).db) <==> !SessionOverdraws(db, op)
  {
    match op
    case Init(s, u, t) =>
    case Get(s, u) =>
    case Submit(s, u, step, amount, requestId) =>
      assert SubmitStep(db, s, u, step, amount, requestId).db.users == db.users;
    case Complete(s, u, choice, rowId, dbOk, saveOk) => CompletingBalances(db, s, u, choice, rowId, dbOk, saveOk);
  }

  // ---------- Every request ----------

  lemma RequestKeepsBalances(db: Db, op: RequestOp)
    requires NonNegativeBalances(db) && AllowedRequest(db, op)
    ensures NonNegativeBalances(HandleRequest(db, op).db)
  {
    match op
    case CompleteUserOnboarding(u, found, id, dbOk) => OnboardingKeepsBalances(db, u, found, id, dbOk);
    case _ => assert HandleRequest(db, op).db.users == db.users;
  }

  lemma OnboardingKeepsBalances(db: Db, u: Id, found: Option<Id>, id: Id, dbOk: bool)
    requires NonNegativeBalances(db) && IsOpenAnswer(db.onboardings, u, found)
    ensures NonNegativeBalances(AdminOnboard(db, u, found, id, dbOk).db)
  {
  }

  lemma ProfileKeepsBalances(db: Db, op: ProfileOp)
    requires NonNegativeBalances(db) && AllowedProfile(op)
    ensures NonNegativeBalances(HandleProfile(db, op).db)
  {
  }

  predicate Overdraws(db: Db, e: Event) {
    e.op.WidgetCall? && SessionOverdraws(db.(clock := e.now), e.op.call)
  }

  lemma OthersKeepBalances(db: Db, e: Event)
    requires NonNegativeBalances(db) && Safety.Inv(db) && Allowed(db, e) && !e.op.WidgetCall?
    ensures NonNegativeBalances(Step(db, e))
  {
    var now := db.(clock := e.now);
    match e.op
    case Profile(op) => ProfileKeepsBalances(now, op);
    case MoveMoney(op, dbOk) => MoneyStep(now, op, dbOk, db);
    case FundFromWallet(f) => FundingStep(now, f, db);
    case Request(op) => RequestKeepsBalances(now, op);
    case Bank(op) => assert HandleBank(now, op).db.users == now.users;
  }

  /** One request keeps every balance from being negative exactly if it does not overdraw. */
  lemma StepBalances(db: Db, e: Event)
    requires NonNegativeBalances(db) && Safety.Inv(db) && Allowed(db, e)
    ensures NonNegativeBalances(Step(db, e)) <==> !Overdraws(db, e)
  {
    if e.op.WidgetCall? {
      SessionBalances(db.(clock := e.now), e.op.call);
    } else {
      OthersKeepBalances(db, e);
    }
  }

  lemma MoneyStep(now: Db, op: MoneyOp, dbOk: bool, db: Db)
    requires NonNegativeBalances(now) && Safety.Inv(db) && db.clock <= now.clock && now == db.(clock := now.clock)
    requires AllowedMoney(op)
    ensures NonNegativeBalances(Perform(now, op, dbOk).db)
  {
    Safety.TimePasses(db, now.clock);
    MoneyKeepsBalances(now, op, dbOk);
  }

  lemma FundingStep(now: Db, f: Funding, db: Db)
    requires NonNegativeBalances(now) && Safety.Inv(db) && db.clock <= now.clock && now == db.(clock := now.clock)
    requires f.amount >= 1
    ensures NonNegativeBalances(Fund(now, f).db)
  {
    Safety.TimePasses(db, now.clock);
    Safety.SyncKeepsInv(now, f);
    FundingKeepsBalances(now, f);
  }

  lemma FundingKeepsBalances(db: Db, f: Funding)
    requires NonNegativeBalances(db) && RowsSound(ReadySync(db, f)) && f.amount >= 1
    ensures NonNegativeBalances(Fund(db, f).db)
  {
    var op := FundCard(f.card, f.user, f.amount, f.settlement, f.sudoBalance);
    MoneyKeepsBalances(ReadySync(db, f), op, f.dbOk);
  }

  // ---------- Every run ----------

  /** No event of the run overdraws. */
  ghost predicate NothingOverdraws(db: Db, es: seq<Event>)
    requires AllowedRun(db, es)
  {
    es == [] || (NothingOverdraws(db, es[..|es| - 1]) && !Overdraws(Run(db, es[..|es| - 1]), es[|es| - 1]))
  }

  /** No balance is negative, now or in any earlier state of the run. */
  ghost predicate NeverBelowZero(db: Db, es: seq<Event>)
    requires AllowedRun(db, es)
  {
    NonNegativeBalances(Run(db, es)) && (es == [] || NeverBelowZero(db, es[..|es| - 1]))
  }

  /** For every run: no balance is ever negative exactly if no event overdraws. */
  lemma {:induction false} NonNegativeIffNothingOverdraws(clock: int, settings: Settings, es: seq<Event>)
    requires ValidSettings(settings) && AllowedRun(EmptyDb(clock, settings), es)
    ensures NeverBelowZero(EmptyDb(clock, settings), es) <==> NothingOverdraws(EmptyDb(clock, settings), es)
  {
    if es == [] {
      assert Run(EmptyDb(clock, settings), es).users == map[];
    } else {
      var before := es[..|es| - 1];
      NonNegativeIffNothingOverdraws(clock, settings, before);
      Safety.ReachableInv(clock, settings, before);
      if NeverBelowZero(EmptyDb(clock, settings), before) {
        BelowZeroAtLast(clock, settings, before);
        StepBalances(Run(EmptyDb(clock, settings), before), es[|es| - 1]);
      }
    }
  }

  lemma BelowZeroAtLast(clock: int, settings: Settings, es: seq<Event>)
    requires AllowedRun(EmptyDb(clock, settings), es) && NeverBelowZero(EmptyDb(clock, settings), es)
    ensures NonNegativeBalances(Run(EmptyDb(clock, settings), es))
  {
  }

  // ---------- A condition on the requests alone ----------

  predicate NotNegative(amount: Option<int>) {
    amount.Some? ==> amount.value >= 0
  }

  /** No session has collected a negative amount. */
  ghost predicate PlainSessions(sessions: map<Id, Session>) {
    forall s :: s in sessions ==> NotNegative(AmountOf(sessions[s]))
  }

  /** Whoever submits an amount submits one that is not negative. */
  predicate Plain(e: Event) {
    e.op.WidgetCall? && e.op.call.Submit? && e.op.call.step == CollectingAmount ==> NotNegative(e.op.call.amount)
  }

  lemma AdvancingStaysPlain(session: Session, step: WidgetStep, amount: Option<int>, now: int)
    requires NotNegative(AmountOf(session)) && (step == CollectingAmount ==> NotNegative(amount))
    ensures NotNegative(AmountOf(Advance(session, step, amount, now)))
  {
  }

  lemma RowStaysPlain(sessions: map<Id, Session>, s: Id, row: Session)
    requires PlainSessions(sessions) && NotNegative(AmountOf(row))
    ensures PlainSessions(sessions[s := row])
  {
  }

  lemma SubmittingStaysPlain(db: Db, s: Id, u: Id, step: WidgetStep, amount: Option<int>, requestId: Id)
    requires PlainSessions(db.sessions) && (step == CollectingAmount ==> NotNegative(amount))
    ensures PlainSessions(SubmitStep(db, s, u, step, amount, requestId).db.sessions)
  {
    var r := SubmitStep(db, s, u, step, amount, requestId);
    if r.error.None? {
      AdvancingStaysPlain(db.sessions[s], step, amount, db.clock);
      RowStaysPlain(db.sessions, s, Advance(db.sessions[s], step, amount, db.clock));
    } else if s in db.sessions {
      RowStaysPlain(db.sessions, s, db.sessions[s].(status := Abandoned));
    }
  }

  lemma CompletingStaysPlain(db: Db, s: Id, u: Id, choice: Option<Id>, rowId: Id, dbOk: bool, saveOk: bool)
    requires PlainSessions(db.sessions) && IsChoice(db.banks, u, None, choice)
    ensures PlainSessions(CompleteSession(db, s, u, choice, rowId, dbOk, saveOk).db.sessions)
  {
  }

  lemma SessionStaysPlain(db: Db, op: SessionOp)
    requires PlainSessions(db.sessions) && AllowedSession(db, op)
    requires op.Submit? && op.step == CollectingAmount ==> NotNegative(op.amount)
    ensures PlainSessions(HandleSession(db, op).db.sessions)
  {
    match op
    case Init(s, u, t) =>
    case Get(s, u) =>
    case Submit(s, u, step, amount, requestId) => SubmittingStaysPlain(db, s, u, step, amount, requestId);
    case Complete(s, u, choice, rowId, dbOk, saveOk) => CompletingStaysPlain(db, s, u, choice, rowId, dbOk, saveOk);
  }

  lemma StepStaysPlain(db: Db, e: Event)
    requires PlainSessions(db.sessions) && Allowed(db, e) && Plain(e)
    ensures PlainSessions(Step(db, e).sessions)
  {
    if e.op.WidgetCall? {
      SessionStaysPlain(db.(clock := e.now), e.op.call);
    } else {
      OthersKeepSessions(db, e);
    }
  }

  /** In every state reached without a negative collected amount, no balance is negative. */
  lemma {:induction false} NeverNegative(clock: int, settings: Settings, es: seq<Event>)
    requires ValidSettings(settings) && AllowedRun(EmptyDb(clock, settings), es)
    requires forall i :: 0 <= i < |es| ==> Plain(es[i])
    ensures NonNegativeBalances(Run(EmptyDb(clock, settings), es))
    ensures PlainSessions(Run(EmptyDb(clock, settings), es).sessions)
  {
    if es == [] {
      assert Run(EmptyDb(clock, settings), es) == EmptyDb(clock, settings);
    } else {
      var before := es[..|es| - 1];
      assert forall i :: 0 <= i < |before| ==> before[i] == es[i];
      NeverNegative(clock, settings, before);
      Safety.ReachableInv(clock, settings, before);
      StepBalances(Run(EmptyDb(clock, settings), before), es[|es| - 1]);
      StepStaysPlain(Run(EmptyDb(clock, settings), before), es[|es| - 1]);
    }
  }

  // ---------- Overdrawing happens ----------

  function Submission(amount: int): Event {
    Event(0, WidgetCall(Submit(0, 0, CollectingAmount, Some(amount), 0)))
  }

  function Completion(): Event {
    Event(0, WidgetCall(Complete(0, 0, None, 0, true, true)))
  }

  lemma SubmissionLeads(settings: Settings, amount: int)
    requires ValidSettings(settings) && amount != 0
    ensures AllowedRun(EmptyDb(0, settings), Opening(ForDeposit) + [Submission(amount)])
    ensures var row := Advance(NewSession(ForDeposit), CollectingAmount, Some(amount), 0);
            && Run(EmptyDb(0, settings), Opening(ForDeposit) + [Submission(amount)]) == WithRow(settings, row)
            && AmountOf(row) == Some(amount) && row.status == Active
  {
    OpeningLeads(settings, ForDeposit);
    RunExtends(EmptyDb(0, settings), Opening(ForDeposit), Submission(amount));
  }

  lemma CompletionCredits(settings: Settings, row: Session)
    requires row.user == 0 && row.trigger == ForDeposit && row.status == Active && row.lastActivity == 0
    requires AmountOf(row).Some?
    ensures IsChoice(WithRow(settings, row).banks, 0, None, None)
    ensures var db := CompleteSession(WithRow(settings, row), 0, 0, None, 0, true, true).db;
            0 in db.users && db.users[0].earnings == AmountOf(row).value
  {
  }

  /**
   Every amount but 0 submitted to a deposit session is credited as it is, so every negative one
   leaves a new user with negative earnings.
   */
  lemma DepositIsCreditedAsIs(settings: Settings, amount: int)
    requires ValidSettings(settings) && amount != 0
    ensures var es := Opening(ForDeposit) + [Submission(amount)] + [Completion()];
            && AllowedRun(EmptyDb(0, settings), es)
            && var db := Run(EmptyDb(0, settings), es);
               0 in db.users && db.users[0].earnings == amount
  {
    SubmissionLeads(settings, amount);
    CompletionCredits(settings, Advance(NewSession(ForDeposit), CollectingAmount, Some(amount), 0));
    RunExtends(EmptyDb(0, settings), Opening(ForDeposit) + [Submission(amount)], Completion());
  }
}
