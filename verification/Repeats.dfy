/**
 A session that pays twice.  completeSession saves the session row after its work, so a session may
 have been paid and still be active; exactly completing it again, with success, pays it again.
 */
module Repeats {
  import opened Wrappers
  import opened Money
  import opened Database
  import opened Ledger
  import opened MoneyOps
  import opened Accounts
  import opened Widget
  import opened Platform
  import opened LedgerProofs
  import opened WidgetProofs
  import opened Completion
  import opened Atomicity
  import Safety

  lemma UnrelatedKeepsOneEffect(db: Db, after: Db)
    requires OneEffect(db) && Unrelated(db, after)
    ensures OneEffect(after)
  {
    UnrelatedReferences(db, after);
  }

  lemma SameRowsSameEffect(db: Db, after: Db)
    requires OneEffect(db) && after.txns == db.txns && after.payouts == db.payouts
    ensures OneEffect(after)
  {
  }

  // ---------- Deposits ----------

  /** A deposit session has no payout, so it is paid exactly if it is credited. */
  lemma DepositPaid(db: Db, s: Id)
    requires SessionsSound(db) && s in db.sessions && db.sessions[s].trigger == ForDeposit
    ensures WidgetProofs.Paid(db, s) <==> Refs(db.txns, SessionKey(s)) > 0
  {
    assert forall p :: p in db.payouts ==> PayoutOfSession(db, db.payouts[p]);
  }

  /** A credited session has an amount and a user, so its deposit is written unless the database fails. */
  lemma CreditedCanDeposit(db: Db, s: Id)
    requires SessionsSound(db) && Replays(db) && s in db.sessions && Refs(db.txns, SessionKey(s)) > 0
    ensures AmountOf(db.sessions[s]).Some? && db.sessions[s].user in db.users
  {
    ReferencedIff(db.txns, SessionKey(s));
    var i :| 0 <= i < |db.txns| && KeyOf(db.txns[i]) == Some(SessionKey(s));
    assert CreditOfSession(db, db.txns[i]);
  }

  lemma DepositEffect(db: Db, s: Id, dbOk: bool)
    requires SessionsSound(db) && OneEffect(db) && Replays(db)
    requires s in db.sessions && db.sessions[s].trigger == ForDeposit
    ensures OneEffect(CompleteDeposit(db, s, db.sessions[s], dbOk).db) <==> !(WidgetProofs.Paid(db, s) && dbOk)
  {
    var r := CompleteDeposit(db, s, db.sessions[s], dbOk);
    DepositPaid(db, s);
    if WidgetProofs.Paid(db, s) {
      CreditedCanDeposit(db, s);
    }
    if r.error.None? {
      var p := Read(db, WidgetDeposit(s, db.sessions[s].user, AmountOf(db.sessions[s]).value));
      CreditingAgain(db, r.db, s, Posted(db, p));
    }
  }

  lemma CreditingAgain(db: Db, after: Db, s: Id, t: Txn)
    requires OneEffect(db) && after.txns == db.txns + [t] && after.payouts == db.payouts
    requires KeyOf(t) == Some(SessionKey(s))
    ensures OneEffect(after) <==> Refs(db.txns, SessionKey(s)) == 0
  {
    ReplayAppend(db.txns, t);
    assert Refs(after.txns, SessionKey(s)) == Refs(db.txns, SessionKey(s)) + 1;
  }

  // ---------- Withdrawals ----------

  lemma WithdrawalPaid(db: Db, s: Id)
    requires SessionsSound(db) && s in db.sessions && db.sessions[s].trigger == ForWithdrawal
    ensures WidgetProofs.Paid(db, s) <==> HasPayout(db.payouts, s)
  {
    ReferencedIff(db.txns, SessionKey(s));
    assert forall i :: 0 <= i < |db.txns| ==> CreditOfSession(db, db.txns[i]);
  }

  lemma InsertingPayoutAgain(db: Db, s: Id, id: Id, p: Payout)
    requires OneEffect(db) && id !in db.payouts && p.session == Some(s)
    ensures OneEffect(db.(payouts := db.payouts[id := p])) <==> !HasPayout(db.payouts, s)
  {
    var after := db.(payouts := db.payouts[id := p]);
    if HasPayout(db.payouts, s) {
      var q :| q in db.payouts && db.payouts[q].session == Some(s);
      assert SameSession(after.payouts[q], after.payouts[id]);
    } else {
      forall q | q in db.payouts
        ensures !SameSession(db.payouts[q], p)
      {
      }
    }
  }

  lemma WithdrawalEffect(db: Db, s: Id, choice: Option<Id>, rowId: Id)
    requires SessionsSound(db) && OneEffect(db) && s in db.sessions && db.sessions[s].trigger == ForWithdrawal
    requires IsChoice(db.banks, db.sessions[s].user, None, choice)
    ensures OneEffect(CompleteWithdrawal(db, s, db.sessions[s], choice, rowId).db)
            <==> !(WidgetProofs.Paid(db, s) && Withdraws(db, db.sessions[s], choice, rowId))
  {
    var r := CompleteWithdrawal(db, s, db.sessions[s], choice, rowId);
    WithdrawalPaid(db, s);
    if AmountOf(db.sessions[s]).Some? && db.sessions[s].user in db.users && db.users[db.sessions[s].user].onboarded {
      WithdrawingIff(db, s, db.sessions[s], choice, rowId);
    }
    if r.error.None? {
      InsertingPayoutAgain(db, s, rowId, r.db.payouts[rowId]);
    }
  }

  // ---------- Every request ----------

  /** completeSession of a session in time that is not completed but paid already, and whose work succeeds. */
  ghost predicate PaysAgainOn(db: Db, op: SessionOp) {
    && op.Complete? && op.session in db.sessions
    && var session := db.sessions[op.session];
       && session.user == op.user && session.status != Finished && db.clock - session.lastActivity <= HOUR
       && session.trigger != ForOnboarding && WidgetProofs.Paid(db, op.session)
       && if session.trigger == ForDeposit then op.dbOk else Withdraws(db, session, op.choice, op.rowId)
  }

  lemma ProcessEffect(db: Db, s: Id, choice: Option<Id>, rowId: Id, dbOk: bool)
    requires SessionsSound(db) && OneEffect(db) && Replays(db) && s in db.sessions
    requires IsChoice(db.banks, db.sessions[s].user, None, choice)
    ensures var session := db.sessions[s];
            OneEffect(Process(db, s, session, choice, rowId, dbOk).db)
            <==> !(&& session.trigger != ForOnboarding && WidgetProofs.Paid(db, s)
                   && if session.trigger == ForDeposit then dbOk else Withdraws(db, session, choice, rowId))
  {
    match db.sessions[s].trigger
    case ForOnboarding => SameRowsSameEffect(db, CompleteOnboarding(db, db.sessions[s].user, rowId).db);
    case ForWithdrawal => WithdrawalEffect(db, s, choice, rowId);
    case ForDeposit => DepositEffect(db, s, dbOk);
  }

  lemma CompletingEffect(db: Db, s: Id, u: Id, choice: Option<Id>, rowId: Id, dbOk: bool, saveOk: bool)
    requires SessionsSound(db) && OneEffect(db) && Replays(db) && IsChoice(db.banks, u, None, choice)
    ensures OneEffect(CompleteSession(db, s, u, choice, rowId, dbOk, saveOk).db)
            <==> !PaysAgainOn(db, Complete(s, u, choice, rowId, dbOk, saveOk))
  {
    if GetSession(db, s, u).error.None? && db.sessions[s].status != Finished {
      ProcessEffect(db, s, choice, rowId, dbOk);
      CompletingDoesTheWork(db, s, u, choice, rowId, dbOk, saveOk);
    } else {
      SameRowsSameEffect(db, CompleteSession(db, s, u, choice, rowId, dbOk, saveOk).db);
    }
  }

  lemma CompletingDoesTheWork(db: Db, s: Id, u: Id, choice: Option<Id>, rowId: Id, dbOk: bool, saveOk: bool)
    requires IsChoice(db.banks, u, None, choice)
    requires GetSession(db, s, u).error.None? && db.sessions[s].status != Finished
    ensures var after := CompleteSession(db, s, u, choice, rowId, dbOk, saveOk).db;
            var done := Process(db, s, db.sessions[s], choice, rowId, dbOk).db;
            after.txns == done.txns && after.payouts == done.payouts
            && (OneEffect(after) <==> OneEffect(done))
  {
  }

  lemma SessionEffect(db: Db, op: SessionOp)
    requires SessionsSound(db) && OneEffect(db) && Replays(db) && AllowedSession(db, op)
    ensures OneEffect(HandleSession(db, op).db) <==> !PaysAgainOn(db, op)
  {
    match op
    case Complete(s, u, choice, rowId, dbOk, saveOk) => CompletingEffect(db, s, u, choice, rowId, dbOk, saveOk);
    case _ => SameRowsSameEffect(db, HandleSession(db, op).db);
  }

  ghost predicate PaysAgain(db: Db, e: Event) {
    e.op.WidgetCall? && PaysAgainOn(db.(clock := e.now), e.op.call)
  }

  /** One request leaves each session with at most one effect exactly if it does not pay a session again. */
  lemma StepEffect(db: Db, e: Event)
    requires Safety.Inv(db) && OneEffect(db) && Allowed(db, e)
    ensures OneEffect(Step(db, e)) <==> !PaysAgain(db, e)
  {
    if e.op.WidgetCall? {
      Safety.TimePasses(db, e.now);
      SessionEffect(db.(clock := e.now), e.op.call);
    } else {
      OthersAreUnrelated(db, e);
      UnrelatedKeepsOneEffect(db, Step(db, e));
    }
  }

  // ---------- Every run ----------

  ghost predicate NothingPaidAgain(db: Db, es: seq<Event>)
    requires AllowedRun(db, es)
  {
    es == [] || (NothingPaidAgain(db, es[..|es| - 1]) && !PaysAgain(Run(db, es[..|es| - 1]), es[|es| - 1]))
  }

  ghost predicate AlwaysOneEffect(db: Db, es: seq<Event>)
    requires AllowedRun(db, es)
  {
    OneEffect(Run(db, es)) && (es == [] || AlwaysOneEffect(db, es[..|es| - 1]))
  }

  /**
   For every run, whatever saves fail: each session credits at most once and makes at most one payout,
   in every state, exactly if no completion pays a session again.
   */
  lemma {:induction false} OneEffectIffNothingPaidAgain(clock: int, settings: Settings, es: seq<Event>)
    requires ValidSettings(settings) && AllowedRun(EmptyDb(clock, settings), es)
    ensures AlwaysOneEffect(EmptyDb(clock, settings), es) <==> NothingPaidAgain(EmptyDb(clock, settings), es)
  {
    if es == [] {
      assert Run(EmptyDb(clock, settings), es) == EmptyDb(clock, settings);
    } else {
      var before := es[..|es| - 1];
      OneEffectIffNothingPaidAgain(clock, settings, before);
      Safety.ReachableInv(clock, settings, before);
      if AlwaysOneEffect(EmptyDb(clock, settings), before) {
        assert OneEffect(Run(EmptyDb(clock, settings), before));
        StepEffect(Run(EmptyDb(clock, settings), before), es[|es| - 1]);
      }
    }
  }
}
