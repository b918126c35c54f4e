/** What holds in every state the platform can reach, by any run of requests. */
module Safety {
  import opened Money
  import opened Database
  import opened MoneyOps
  import opened Profiles
  import opened Cards
  import opened Accounts
  import opened Requests
  import opened Widget
  import opened Platform
  import opened LedgerProofs
  import opened LifecycleProofs
  import opened WidgetProofs
  import opened BankProofs

  ghost predicate Inv(db: Db) {
    Replays(db) && Lifecycle(db) && SessionsSound(db) && BanksSound(db.banks)
  }

  // ---------- One request ----------

  lemma TimePasses(db: Db, now: int)
    requires Inv(db) && db.clock <= now
    ensures Inv(db.(clock := now))
    ensures PaidOnce(db) ==> PaidOnce(db.(clock := now))
  {
    QuietKeepsLifecycle(db, db.(clock := now));
    UnrelatedKeepsSessions(db, db.(clock := now));
  }

  lemma ProfileKeepsInv(db: Db, op: ProfileOp)
    requires Inv(db) && AllowedProfile(op)
    ensures Inv(HandleProfile(db, op).db)
    ensures PaidOnce(db) ==> PaidOnce(HandleProfile(db, op).db)
  {
    ProfilesKeepReplay(db, op);
    ProfilesKeepLifecycle(db, op);
    UnrelatedKeepsSessions(db, HandleProfile(db, op).db);
  }

  lemma MoneyKeepsInv(db: Db, op: MoneyOp, dbOk: bool)
    requires Inv(db) && AllowedMoney(op)
    ensures Inv(Perform(db, op, dbOk).db)
    ensures PaidOnce(db) ==> PaidOnce(Perform(db, op, dbOk).db)
  {
    PerformKeepsReplay(db, op, dbOk);
    PerformKeepsLifecycle(db, op, dbOk);
    MoneyIsUnrelated(db, op, dbOk);
    UnrelatedKeepsSessions(db, Perform(db, op, dbOk).db);
  }

  lemma SyncKeepsInv(db: Db, f: Funding)
    requires Inv(db)
    ensures Inv(ReadySync(db, f))
    ensures PaidOnce(db) ==> PaidOnce(ReadySync(db, f))
  {
    if f.card in db.cards && db.cards[f.card].user == f.user && f.sudo.Some? {
      ProfileKeepsInv(db, SyncCard(f.card, f.sudo.value));
    }
  }

  lemma FundingKeepsInv(db: Db, f: Funding)
    requires Inv(db) && f.amount >= 1
    ensures Inv(Fund(db, f).db)
    ensures PaidOnce(db) ==> PaidOnce(Fund(db, f).db)
  {
    SyncKeepsInv(db, f);
    MoneyKeepsInv(ReadySync(db, f), FundCard(f.card, f.user, f.amount, f.settlement, f.sudoBalance), f.dbOk);
  }

  lemma RequestsAreUnrelated(db: Db, op: RequestOp)
    requires AllowedRequest(db, op)
    ensures var after := HandleRequest(db, op).db;
            Unrelated(db, after) && after.sessions == db.sessions && after.clock == db.clock && after.banks == db.banks
  {
  }

  lemma RequestKeepsInv(db: Db, op: RequestOp)
    requires Inv(db) && AllowedRequest(db, op)
    ensures Inv(HandleRequest(db, op).db)
    ensures PaidOnce(db) ==> PaidOnce(HandleRequest(db, op).db)
  {
    RequestsKeepReplay(db, op);
    RequestsKeepLifecycle(db, op);
    RequestsAreUnrelated(db, op);
    UnrelatedKeepsSessions(db, HandleRequest(db, op).db);
  }

  lemma SessionsKeepBanks(db: Db, op: SessionOp)
    requires AllowedSession(db, op)
    ensures HandleSession(db, op).db.banks == db.banks
  {
  }

  lemma SessionKeepsInv(db: Db, op: SessionOp)
    requires Inv(db) && AllowedSession(db, op)
    ensures Inv(HandleSession(db, op).db)
    ensures PaidOnce(db) && (op.Complete? ==> op.saveOk) ==> PaidOnce(HandleSession(db, op).db)
  {
    SessionsKeepReplay(db, op);
    SessionsKeepLifecycle(db, op);
    SessionsKeepSessions(db, op);
    SessionsKeepBanks(db, op);
  }

  lemma BankKeepsInv(db: Db, op: BankOp)
    requires Inv(db) && AllowedBank(db, op)
    ensures Inv(HandleBank(db, op).db)
    ensures PaidOnce(db) ==> PaidOnce(HandleBank(db, op).db)
  {
    var after := HandleBank(db, op).db;
    assert after == db.(banks := after.banks);
    assert Unrelated(db, after) && Replays(after);
    BanksKeepLifecycle(db, op);
    BankOpsKeepBanks(db, op);
    UnrelatedKeepsSessions(db, after);
  }

  /** The final save of completeSession succeeds. */
  predicate Saves(e: Event) {
    e.op.WidgetCall? && e.op.call.Complete? ==> e.op.call.saveOk
  }

  lemma StepKeepsInv(db: Db, e: Event)
    requires Inv(db) && Allowed(db, e)
    ensures Inv(Step(db, e))
    ensures PaidOnce(db) && Saves(e) ==> PaidOnce(Step(db, e))
  {
    var now := db.(clock := e.now);
    TimePasses(db, e.now);
    match e.op
    case Profile(op) => ProfileKeepsInv(now, op);
    case MoveMoney(op, dbOk) => MoneyKeepsInv(now, op, dbOk);
    case FundFromWallet(f) => FundingKeepsInv(now, f);
    case Request(op) => RequestKeepsInv(now, op);
    case WidgetCall(op) => SessionKeepsInv(now, op);
    case Bank(op) => BankKeepsInv(now, op);
  }

  // ---------- Every run ----------

  lemma EmptyInv(clock: int, settings: Settings)
    requires ValidSettings(settings)
    ensures Inv(EmptyDb(clock, settings)) && PaidOnce(EmptyDb(clock, settings))
  {
  }

  /**
   In every reachable state: the balance columns replay the log; settled rows are recorded once and
   truthfully; payouts are positive, belong to onboarded users and store the quote of the settings of
   their time; nobody has two pending requests; sessions are in order; bank accounts are sound.
   */
  lemma {:induction false} ReachableInv(clock: int, settings: Settings, es: seq<Event>)
    requires ValidSettings(settings) && AllowedRun(EmptyDb(clock, settings), es)
    ensures Inv(Run(EmptyDb(clock, settings), es))
  {
    EmptyInv(clock, settings);
    if es == [] {
    } else {
      ReachableInv(clock, settings, es[..|es| - 1]);
      StepKeepsInv(Run(EmptyDb(clock, settings), es[..|es| - 1]), es[|es| - 1]);
    }
  }

  /**
   If the final saves succeed, a DEPOSIT session credits earnings at most once and a WITHDRAWAL
   session makes at most one payout over any run, each for the amount collected (see SessionsSound).
   */
  lemma {:induction false} SessionsPayOnce(clock: int, settings: Settings, es: seq<Event>)
    requires ValidSettings(settings) && AllowedRun(EmptyDb(clock, settings), es)
    requires forall i :: 0 <= i < |es| ==> Saves(es[i])
    ensures PaidOnce(Run(EmptyDb(clock, settings), es))
  {
    EmptyInv(clock, settings);
    if es == [] {
    } else {
      var before := es[..|es| - 1];
      assert forall i :: 0 <= i < |before| ==> before[i] == es[i];
      SessionsPayOnce(clock, settings, before);
      ReachableInv(clock, settings, before);
      StepKeepsInv(Run(EmptyDb(clock, settings), before), es[|es| - 1]);
    }
  }
}
