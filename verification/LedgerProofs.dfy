/** The balance columns are a fast form of replaying the transactions table. */
module LedgerProofs {
  import opened Wrappers
  import opened Database
  import opened Ledger
  import opened MoneyOps
  import opened Profiles
  import opened Accounts
  import opened Requests
  import opened Widget

  /** Every balance column agrees with the log, and every record belongs to a user. */
  ghost predicate Replays(db: Db) {
    && (forall u :: u in db.users ==> db.users[u].earnings == EarningsOf(db.txns, u)
                                      && db.users[u].wallet == WalletOf(db.txns, u))
    && forall i :: 0 <= i < |db.txns| ==> db.txns[i].user in db.users
  }

  // ---------- One operation ----------

  /** What a plan posts to the log is exactly what it does to the two columns, for every user. */
  ghost predicate Balanced(users: map<Id, User>, p: Plan) {
    && (p.txn.Some? ==> p.txn.value.user in users)
    && forall u :: u in users ==>
         var after := WriteUser(users, p.user);
         && u in after
         && after[u].earnings - users[u].earnings
            == (if p.txn.Some? && p.txn.value.user == u then EarningsDelta(p.txn.value) else 0)
         && after[u].wallet - users[u].wallet
            == (if p.txn.Some? && p.txn.value.user == u then WalletDelta(p.txn.value) else 0)
  }

  lemma AdminPlansBalance(db: Db, op: MoneyOp)
    requires op.ApproveCredit? || op.ProcessPayout? || op.CompleteManualPayout?
    ensures Balanced(db.users, Read(db, op))
  {
  }

  lemma WalletPlansBalance(db: Db, op: MoneyOp)
    requires op.VerifyPayment? || op.FundCard?
    ensures Balanced(db.users, Read(db, op))
  {
  }

  lemma PlansBalance(db: Db, op: MoneyOp)
    ensures Balanced(db.users, Read(db, op))
  {
    if op.ApproveCredit? || op.ProcessPayout? || op.CompleteManualPayout? {
      AdminPlansBalance(db, op);
    } else if op.VerifyPayment? || op.FundCard? {
      WalletPlansBalance(db, op);
    }
  }

  lemma BalancedKeepsReplay(db: Db, p: Plan)
    requires Replays(db) && Balanced(db.users, p)
    ensures Replays(Apply(db, p))
  {
    var after := Apply(db, p);
    if p.txn.Some? {
      var t := Posted(db, p);
      ReplayAppend(db.txns, t);
      assert EarningsDelta(t) == EarningsDelta(p.txn.value) && WalletDelta(t) == WalletDelta(p.txn.value);
      forall u | u in after.users
        ensures after.users[u].earnings == EarningsOf(db.txns + [t], u)
        ensures after.users[u].wallet == WalletOf(db.txns + [t], u)
      {
        assert u in db.users;
      }
    }
  }

  lemma PerformKeepsReplay(db: Db, op: MoneyOp, dbOk: bool)
    requires Replays(db)
    ensures Replays(Perform(db, op, dbOk).db)
  {
    PlansBalance(db, op);
    BalancedKeepsReplay(db, Read(db, op));
  }

  // ---------- Every request ----------

  lemma ProfilesKeepReplay(db: Db, op: ProfileOp)
    requires Replays(db) && AllowedProfile(op)
    ensures Replays(HandleProfile(db, op).db)
  {
    if op.Signup? && op.user !in db.users {
      NothingRecorded(db.txns, op.user);
    }
  }

  lemma OnboardingKeepsReplay(db: Db, u: Id, found: Option<Id>, id: Id, dbOk: bool)
    requires Replays(db) && IsOpenAnswer(db.onboardings, u, found)
    ensures Replays(AdminOnboard(db, u, found, id, dbOk).db)
  {
  }

  lemma RequestsKeepReplay(db: Db, op: RequestOp)
    requires Replays(db) && AllowedRequest(db, op)
    ensures Replays(HandleRequest(db, op).db)
  {
    var after := HandleRequest(db, op).db;
    match op
    case CompleteUserOnboarding(u, found, id, dbOk) => OnboardingKeepsReplay(db, u, found, id, dbOk);
    case _ => assert after.users == db.users && after.txns == db.txns;
  }

  lemma ProcessKeepsReplay(db: Db, s: Id, session: Session, choice: Option<Id>, rowId: Id, dbOk: bool)
    requires Replays(db) && IsChoice(db.banks, session.user, None, choice)
    ensures Replays(Process(db, s, session, choice, rowId, dbOk).db)
  {
    if session.trigger == ForDeposit && AmountOf(session).Some? {
      PerformKeepsReplay(db, WidgetDeposit(s, session.user, AmountOf(session).value), dbOk);
    }
  }

  lemma CompletingKeepsReplay(db: Db, s: Id, u: Id, choice: Option<Id>, rowId: Id, dbOk: bool, saveOk: bool)
    requires Replays(db) && IsChoice(db.banks, u, None, choice)
    ensures Replays(CompleteSession(db, s, u, choice, rowId, dbOk, saveOk).db)
  {
    var after := CompleteSession(db, s, u, choice, rowId, dbOk, saveOk).db;
    if after != db.(sessions := after.sessions) {
      ProcessKeepsReplay(db, s, db.sessions[s], choice, rowId, dbOk);
    }
  }

  lemma SessionsKeepReplay(db: Db, op: SessionOp)
    requires Replays(db) && AllowedSession(db, op)
    ensures Replays(HandleSession(db, op).db)
  {
    var after := HandleSession(db, op).db;
    match op
    case Complete(s, u, choice, rowId, dbOk, saveOk) => CompletingKeepsReplay(db, s, u, choice, rowId, dbOk, saveOk);
    case _ => assert after.users == db.users && after.txns == db.txns;
  }
}
