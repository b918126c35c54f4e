/**
 Interleavings in which operations on one row do overlap.  The balances replay the log exactly as long
 as no commit overwrites a balance column that has changed since its operation read the user, and
 settled rows have one record exactly as long as no commit writes a row that was settled meanwhile.
 */
module Overlaps {
  import opened Wrappers
  import opened Database
  import opened Ledger
  import opened MoneyOps
  import opened LedgerProofs
  import opened LifecycleProofs
  import opened Interleaving

  // ---------- Which commits break the ledger ----------

  /** The balance columns a write overwrites still hold the values that were read. */
  predicate Current(seen: map<Id, User>, users: map<Id, User>, w: UserWrite) {
    match w
    case KeepUser => true
    case SetEarnings(u, _) => u in seen && u in users && users[u].earnings == seen[u].earnings
    case SetWallet(u, _) => u in seen && u in users && users[u].wallet == seen[u].wallet
    case SetBoth(u, _, _) =>
      u in seen && u in users && users[u].earnings == seen[u].earnings && users[u].wallet == seen[u].wallet
  }

  predicate Writing(seen: map<Id, User>, w: UserWrite) {
    match w
    case KeepUser => true
    case SetEarnings(u, _) => u in seen
    case SetWallet(u, _) => u in seen
    case SetBoth(u, _, _) => u in seen
  }

  lemma PlansWriteKnownUsers(db: Db, op: MoneyOp)
    ensures Writing(db.users, Read(db, op).user)
  {
  }

  lemma CurrentIsBalanced(seen: map<Id, User>, users: map<Id, User>, p: Plan)
    requires Balanced(seen, p) && Writing(seen, p.user) && seen.Keys <= users.Keys && Current(seen, users, p.user)
    ensures Balanced(users, p)
  {
    forall u | u in users && u !in seen
      ensures WriteUser(users, p.user)[u] == users[u]
    {
    }
  }

  lemma StaleIsNotBalanced(seen: map<Id, User>, users: map<Id, User>, p: Plan)
    requires Balanced(seen, p) && Writing(seen, p.user) && seen.Keys <= users.Keys && !Current(seen, users, p.user)
    ensures !Balanced(users, p)
  {
    var u := p.user.user;
    assert u in seen && u in users;
  }

  lemma UnbalancedBreaksReplay(db: Db, p: Plan)
    requires Replays(db) && !Balanced(db.users, p) && (p.txn.Some? ==> p.txn.value.user in db.users)
    ensures !Replays(Apply(db, p))
  {
    var after := Apply(db, p);
    if p.txn.Some? {
      ReplayAppend(db.txns, Posted(db, p));
    }
  }

  /**
   A commit of writes computed from earlier user rows keeps the balances replaying the log exactly if
   every balance column it overwrites still holds the value that was read.
   */
  lemma CommitKeepsReplayIff(seen: map<Id, User>, db: Db, p: Plan)
    requires Replays(db) && Balanced(seen, p) && Writing(seen, p.user) && seen.Keys <= db.users.Keys
    ensures Replays(Apply(db, p)) <==> Current(seen, db.users, p.user)
  {
    if Current(seen, db.users, p.user) {
      CurrentIsBalanced(seen, db.users, p);
      BalancedKeepsReplay(db, p);
    } else {
      StaleIsNotBalanced(seen, db.users, p);
      UnbalancedBreaksReplay(db, p);
    }
  }

  /** For each of the nine operations, whenever it read its row and whenever after that it read the user. */
  lemma StaleOperation(start: Db, read: Db, db: Db, op: MoneyOp)
    requires Replays(db) && read.users.Keys <= db.users.Keys
    ensures var plan := Read(Mixed(start, read), op);
            Replays(Apply(db, plan)) <==> Current(read.users, db.users, plan.user)
  {
    PlansBalance(Mixed(start, read), op);
    PlansWriteKnownUsers(Mixed(start, read), op);
    CommitKeepsReplayIff(read.users, db, Read(Mixed(start, read), op));
  }

  // ---------- Every interleaving ----------

  ghost predicate Remembers(m: Machine) {
    forall i :: IsFetched(m, i) ==>
      var r := m.running[i];
      Balanced(r.seen, r.plan) && Writing(r.seen, r.plan.user) && r.seen.Keys <= m.db.users.Keys
  }

  /** The action writes what a fetched operation computed. */
  predicate Lands(m: Machine, a: Action) {
    a.Commit? && IsFetched(m, a.id) && (a.dbOk || !Writes(m.running[a.id].plan))
  }

  /** The commit overwrites a balance column that has changed since its operation fetched the user. */
  predicate Overwrites(m: Machine, a: Action) {
    Lands(m, a) && !Current(m.running[a.id].seen, m.db.users, m.running[a.id].plan.user)
  }

  lemma ActKeepsReplayIff(m: Machine, a: Action)
    requires Replays(m.db) && Remembers(m)
    ensures Replays(Act(m, a).db) <==> !Overwrites(m, a)
  {
    if Lands(m, a) {
      var r := m.running[a.id];
      CommitKeepsReplayIff(r.seen, m.db, r.plan);
    }
  }

  lemma ActRemembers(m: Machine, a: Action)
    requires Remembers(m)
    ensures Remembers(Act(m, a))
  {
    match a
    case Tick(now) =>
    case Begin(i, op) =>
    case Fetch(i) =>
      if i in m.running {
        PlansBalance(Mixed(m.running[i].start, m.db), m.running[i].op);
        PlansWriteKnownUsers(Mixed(m.running[i].start, m.db), m.running[i].op);
      }
    case Commit(i, dbOk) =>
      if IsFetched(m, i) {
        assert Apply(m.db, m.running[i].plan).users.Keys == m.db.users.Keys;
      }
  }

  lemma {:induction false} ExecRemembers(db: Db, acts: seq<Action>)
    ensures Remembers(Exec(Machine(db, map[]), acts))
  {
    if acts == [] {
    } else {
      ExecRemembers(db, acts[..|acts| - 1]);
      ActRemembers(Exec(Machine(db, map[]), acts[..|acts| - 1]), acts[|acts| - 1]);
    }
  }

  predicate NeverOverwrites(m: Machine, acts: seq<Action>) {
    acts == [] || (NeverOverwrites(m, acts[..|acts| - 1]) && !Overwrites(Exec(m, acts[..|acts| - 1]), acts[|acts| - 1]))
  }

  ghost predicate AlwaysReplays(m: Machine, acts: seq<Action>) {
    Replays(Exec(m, acts).db) && (acts == [] || AlwaysReplays(m, acts[..|acts| - 1]))
  }

  /**
   In any interleaving whatever, the balances replay the log after every action exactly if no commit
   overwrites a balance column that has changed since its operation fetched the user.
   */
  lemma {:induction false} ReplaysIffNothingOverwritten(db: Db, acts: seq<Action>)
    requires Replays(db)
    ensures AlwaysReplays(Machine(db, map[]), acts) <==> NeverOverwrites(Machine(db, map[]), acts)
  {
    if acts == [] {
    } else {
      var m, head := Machine(db, map[]), acts[..|acts| - 1];
      ReplaysIffNothingOverwritten(db, head);
      ExecRemembers(db, head);
      if Replays(Exec(m, head).db) {
        ActKeepsReplayIff(Exec(m, head), acts[|acts| - 1]);
      }
    }
  }

  // ---------- Which commits break the records ----------

  function RowOf(w: RowWrite): Option<Key> {
    match w
    case CreditTo(c, _) => Some(CreditKey(c))
    case PayoutTo(p, _) => Some(PayoutKey(p))
    case PaymentTo(r, _) => Some(PaymentKey(r))
    case _ => None
  }

  predicate RowIn(db: Db, w: RowWrite) {
    match w
    case CreditTo(c, _) => c in db.credits
    case PayoutTo(p, _) => p in db.payouts
    case PaymentTo(r, _) => r in db.payments
    case _ => true
  }

  /** The plan records a row exactly when it settles it. */
  predicate RecordsWhatItSettles(p: Plan) {
    if p.txn.None? then SettledBy(p.row) == None
    else KeyOf(p.txn.value) == SettledBy(p.row) || (p.txn.value.source.WidgetCredit? && SettledBy(p.row) == None)
  }

  /** The row to be written has been settled meanwhile. */
  predicate AlreadySettled(db: Db, p: Plan) {
    RowOf(p.row).Some? && Settled(db, RowOf(p.row).value)
  }

  /** Committing leaves one record per settled row exactly if the row written is not settled yet. */
  lemma CommitKeepsRecordsIff(db: Db, p: Plan)
    requires RecordedOnce(db) && RecordsWhatItSettles(p) && RowIn(db, p.row)
    ensures RecordedOnce(Apply(db, p)) <==> !AlreadySettled(db, p)
  {
    var after := Apply(db, p);
    if p.txn.Some? {
      ReplayAppend(db.txns, Posted(db, p));
    }
    if AlreadySettled(db, p) {
      var k := RowOf(p.row).value;
      assert Refs(db.txns, k) == 1;
      assert Refs(after.txns, k) != One(Settled(after, k));
    } else {
      forall k: Key | !k.SessionKey?
        ensures Refs(after.txns, k) == One(Settled(after, k))
      {
        assert Refs(db.txns, k) == One(Settled(db, k));
      }
    }
  }

  /** No request, payout or payment row is ever removed. */
  predicate RowsStay(start: Db, db: Db) {
    start.credits.Keys <= db.credits.Keys && start.payouts.Keys <= db.payouts.Keys
    && start.payments.Keys <= db.payments.Keys
  }

  ghost predicate RowsKnown(m: Machine) {
    forall i :: i in m.running ==>
      var r := m.running[i];
      RowsStay(r.start, m.db) && (r.Fetched? ==> RecordsWhatItSettles(r.plan) && RowIn(m.db, r.plan.row))
  }

  /** The commit writes a credit request, payout or payment that was settled since its operation began. */
  predicate Resettles(m: Machine, a: Action) {
    Lands(m, a) && AlreadySettled(m.db, m.running[a.id].plan)
  }

  lemma ActKeepsRecordsIff(m: Machine, a: Action)
    requires RecordedOnce(m.db) && RowsKnown(m)
    ensures RecordedOnce(Act(m, a).db) <==> !Resettles(m, a)
  {
    if Lands(m, a) {
      CommitKeepsRecordsIff(m.db, m.running[a.id].plan);
    } else {
      assert Act(m, a).db == m.db.(clock := Act(m, a).db.clock);
      assert forall k: Key :: Settled(Act(m, a).db, k) == Settled(m.db, k);
    }
  }

  lemma FetchKnowsRows(start: Db, db: Db, op: MoneyOp)
    requires RowsStay(start, db)
    ensures var plan := Read(Mixed(start, db), op);
            RecordsWhatItSettles(plan) && RowIn(db, plan.row)
  {
    PlansPost(Mixed(start, db), op);
  }

  lemma LandingKnowsRows(m: Machine, i: Id)
    requires RowsKnown(m) && IsFetched(m, i)
    ensures RowsKnown(Machine(Apply(m.db, m.running[i].plan), m.running - {i}))
  {
    var after := Apply(m.db, m.running[i].plan);
    assert RowsStay(m.db, after);
    forall j | j in m.running
      ensures RowsStay(m.running[j].start, after)
      ensures m.running[j].Fetched? ==> RowIn(after, m.running[j].plan.row)
    {
    }
  }

  lemma ActKnowsRows(m: Machine, a: Action)
    requires RowsKnown(m)
    ensures RowsKnown(Act(m, a))
  {
    match a
    case Tick(now) =>
    case Begin(i, op) =>
    case Fetch(i) =>
      if i in m.running {
        FetchKnowsRows(m.running[i].start, m.db, m.running[i].op);
      }
    case Commit(i, dbOk) =>
      if IsFetched(m, i) {
        LandingKnowsRows(m, i);
      }
  }

  lemma {:induction false} ExecKnowsRows(db: Db, acts: seq<Action>)
    ensures RowsKnown(Exec(Machine(db, map[]), acts))
  {
    if acts == [] {
    } else {
      ExecKnowsRows(db, acts[..|acts| - 1]);
      ActKnowsRows(Exec(Machine(db, map[]), acts[..|acts| - 1]), acts[|acts| - 1]);
    }
  }

  predicate NeverResettles(m: Machine, acts: seq<Action>) {
    acts == [] || (NeverResettles(m, acts[..|acts| - 1]) && !Resettles(Exec(m, acts[..|acts| - 1]), acts[|acts| - 1]))
  }

  ghost predicate AlwaysRecordedOnce(m: Machine, acts: seq<Action>) {
    RecordedOnce(Exec(m, acts).db) && (acts == [] || AlwaysRecordedOnce(m, acts[..|acts| - 1]))
  }

  /**
   In any interleaving whatever, one record references each settled row, and none any other, after
   every action exactly if no commit writes a row that was settled since its operation began.
   */
  lemma {:induction false} RecordsIffNothingResettled(db: Db, acts: seq<Action>)
    requires RecordedOnce(db)
    ensures AlwaysRecordedOnce(Machine(db, map[]), acts) <==> NeverResettles(Machine(db, map[]), acts)
  {
    if acts == [] {
    } else {
      var m, head := Machine(db, map[]), acts[..|acts| - 1];
      RecordsIffNothingResettled(db, head);
      ExecKnowsRows(db, head);
      if RecordedOnce(Exec(m, head).db) {
        ActKeepsRecordsIff(Exec(m, head), acts[|acts| - 1]);
      }
    }
  }

  // ---------- Overlap loses updates ----------

  /** Both operations check before either commits. */
  function BothAtOnce(op: MoneyOp, other: MoneyOp): seq<Action> {
    [Begin(0, op), Fetch(0), Begin(1, other), Fetch(1), Commit(0, true), Commit(1, true)]
  }

  lemma ExecOne(m: Machine, acts: seq<Action>, k: nat)
    requires k < |acts|
    ensures Exec(m, acts[..k + 1]) == Act(Exec(m, acts[..k]), acts[k])
  {
    assert acts[..k + 1][..k] == acts[..k];
  }

  lemma ExecTwo(m: Machine, acts: seq<Action>, k: nat)
    requires k + 1 < |acts|
    ensures Exec(m, acts[..k + 2]) == Act(Act(Exec(m, acts[..k]), acts[k]), acts[k + 1])
  {
    ExecOne(m, acts, k);
    ExecOne(m, acts, k + 1);
  }

  lemma OverlapOne(m: Machine, acts: seq<Action>, k: nat)
    requires k < |acts| && NoOverlap(m, acts[..k + 1])
    ensures NoOverlap(m, acts[..k])
    ensures acts[k].Begin? ==>
              forall j :: j in Exec(m, acts[..k]).running ==>
                Exec(m, acts[..k]).running[j].rows !! Rows(Exec(m, acts[..k]).db, acts[k].op)
  {
    assert acts[..k + 1][..k] == acts[..k];
  }

  /** An operation that begins and fetches on the spot has computed what it would alone. */
  lemma BeginAndFetch(m: Machine, i: Id, op: MoneyOp)
    requires i !in m.running
    ensures Act(Act(m, Begin(i, op)), Fetch(i))
            == m.(running := m.running[i := Now(m.db, op)])
  {
    assert Mixed(m.db, m.db) == m.db;
  }

  /** What an operation has read when it begins and fetches in one state. */
  function Now(db: Db, op: MoneyOp): Running {
    Fetched(op, db, Rows(db, op), db.users, Read(db, op))
  }

  lemma FirstRead(db: Db, op: MoneyOp, other: MoneyOp)
    ensures Exec(Machine(db, map[]), BothAtOnce(op, other)[..2]) == Machine(db, map[0 := Now(db, op)])
  {
    var m, acts := Machine(db, map[]), BothAtOnce(op, other);
    ExecTwo(m, acts, 0);
    BeginAndFetch(m, 0, op);
  }

  /** Once both have read. */
  lemma BothRead(db: Db, op: MoneyOp, other: MoneyOp)
    ensures Exec(Machine(db, map[]), BothAtOnce(op, other)[..4])
            == Machine(db, map[0 := Now(db, op), 1 := Now(db, other)])
  {
    var m, acts := Machine(db, map[]), BothAtOnce(op, other);
    FirstRead(db, op, other);
    ExecTwo(m, acts, 2);
    BeginAndFetch(Exec(m, acts[..2]), 1, other);
  }

  /** This counts as overlap if they share a row. */
  lemma BothOverlap(db: Db, op: MoneyOp, other: MoneyOp)
    requires NoOverlap(Machine(db, map[]), BothAtOnce(op, other))
    ensures Rows(db, op) !! Rows(db, other)
  {
    var m, acts := Machine(db, map[]), BothAtOnce(op, other);
    assert acts[..6] == acts;
    OverlapOne(m, acts, 5);
    OverlapOne(m, acts, 4);
    OverlapOne(m, acts, 3);
    OverlapOne(m, acts, 2);
    FirstRead(db, op, other);
    assert 0 in Exec(m, acts[..2]).running;
  }

  lemma ExecLastTwo(m: Machine, acts: seq<Action>)
    requires |acts| == 6
    ensures Exec(m, acts) == Act(Act(Exec(m, acts[..4]), acts[4]), acts[5])
  {
    ExecTwo(m, acts, 4);
    assert acts[..6] == acts;
  }

  lemma CommitOne(m: Machine, i: Id)
    requires IsFetched(m, i)
    ensures Act(m, Commit(i, true)) == Machine(Apply(m.db, m.running[i].plan), m.running - {i})
  {
  }

  lemma CommitBoth(db: Db, op: MoneyOp, other: MoneyOp)
    ensures Act(Act(Machine(db, map[0 := Now(db, op), 1 := Now(db, other)]), Commit(0, true)), Commit(1, true)).db
            == Apply(Apply(db, Read(db, op)), Read(db, other))
  {
    var m := Machine(db, map[0 := Now(db, op), 1 := Now(db, other)]);
    CommitOne(m, 0);
    CommitOne(Act(m, Commit(0, true)), 1);
  }

  /** Both commit what they computed from the same state. */
  lemma BothAtOnceLead(db: Db, op: MoneyOp, other: MoneyOp)
    ensures Exec(Machine(db, map[]), BothAtOnce(op, other)).db == Apply(Apply(db, Read(db, op)), Read(db, other))
    ensures NoOverlap(Machine(db, map[]), BothAtOnce(op, other)) ==> Rows(db, op) !! Rows(db, other)
  {
    var m, acts := Machine(db, map[]), BothAtOnce(op, other);
    BothRead(db, op, other);
    ExecLastTwo(m, acts);
    CommitBoth(db, op, other);
    if NoOverlap(m, acts) {
      BothOverlap(db, op, other);
    }
  }

  lemma TransfersShareTheUser(db: Db, u: Id, x: int, y: int)
    ensures !(Rows(db, TransferEarnings(u, x)) !! Rows(db, TransferEarnings(u, y)))
  {
    assert UserRow(u) in Rows(db, TransferEarnings(u, x)) * Rows(db, TransferEarnings(u, y));
  }

  lemma EarningsAppend(log: seq<Txn>, t: Txn, u: Id)
    ensures EarningsOf(log + [t], u) == EarningsOf(log, u) + if t.user == u then EarningsDelta(t) else 0
  {
    assert (log + [t])[..|log|] == log;
  }

  lemma OneTransfer(db: Db, seen: Db, u: Id, x: int)
    requires u in db.users && u in seen.users && 1 <= x <= seen.users[u].earnings
    ensures var after := Apply(db, Read(seen, TransferEarnings(u, x)));
            && after.users.Keys == db.users.Keys && after.users[u].earnings == seen.users[u].earnings - x
            && EarningsOf(after.txns, u) == EarningsOf(db.txns, u) - x
            && Read(seen, TransferEarnings(u, x)).user.SetBoth? && Read(seen, TransferEarnings(u, x)).user.user == u
  {
    var p := ReadTransfer(seen, u, x);
    assert p.user.SetBoth? && p.txn.Some?;
    EarningsAppend(db.txns, Posted(db, p), u);
  }

  lemma TwoTransfers(db: Db, u: Id, x: int, y: int)
    requires Replays(db) && u in db.users && 1 <= x <= db.users[u].earnings && 1 <= y <= db.users[u].earnings
    ensures var after := Apply(Apply(db, Read(db, TransferEarnings(u, x))), Read(db, TransferEarnings(u, y)));
            && u in after.users && after.users[u].earnings == db.users[u].earnings - y
            && EarningsOf(after.txns, u) == db.users[u].earnings - x - y && !Replays(after)
  {
    var first := Apply(db, Read(db, TransferEarnings(u, x)));
    OneTransfer(db, db, u, x);
    OneTransfer(first, db, u, y);
  }

  /**
   Two transfers of the same user that overlap both succeed, but only the second write of the
   balance survives while the log records both: the balance no longer replays the log, whatever the
   two amounts are.
   */
  lemma OverlapLosesAnUpdate(db: Db, u: Id, x: int, y: int)
    requires Replays(db) && u in db.users && 1 <= x <= db.users[u].earnings && 1 <= y <= db.users[u].earnings
    ensures var acts := BothAtOnce(TransferEarnings(u, x), TransferEarnings(u, y));
            var after := Exec(Machine(db, map[]), acts).db;
            && !NoOverlap(Machine(db, map[]), acts)
            && u in after.users && after.users[u].earnings == db.users[u].earnings - y
            && EarningsOf(after.txns, u) == db.users[u].earnings - x - y
            && !Replays(after)
  {
    BothAtOnceLead(db, TransferEarnings(u, x), TransferEarnings(u, y));
    TransfersShareTheUser(db, u, x, y);
    TwoTransfers(db, u, x, y);
  }

  // ---------- Overlap that loses none ----------

  /** An operation begins, and before it fetches the user another one runs from beginning to end. */
  function Meanwhile(op: MoneyOp, other: MoneyOp): seq<Action> {
    [Begin(0, op), Begin(1, other), Fetch(1), Commit(1, true), Fetch(0), Commit(0, true)]
  }

  function AfterMeanwhile(db: Db, op: MoneyOp, other: MoneyOp): Db {
    Exec(Machine(db, map[]), Meanwhile(op, other)).db
  }

  lemma ExecLastThree(m: Machine, acts: seq<Action>)
    requires |acts| == 6
    ensures Exec(m, acts) == Act(Act(Act(Exec(m, acts[..3]), acts[3]), acts[4]), acts[5])
  {
    ExecOne(m, acts, 3);
    ExecOne(m, acts, 4);
    ExecOne(m, acts, 5);
    assert acts[..6] == acts;
  }

  lemma MeanwhileBegun(db: Db, op: MoneyOp, other: MoneyOp)
    ensures Exec(Machine(db, map[]), Meanwhile(op, other)[..3])
            == Machine(db, map[0 := Begun(op, db, Rows(db, op)), 1 := Now(db, other)])
  {
    var m, acts := Machine(db, map[]), Meanwhile(op, other);
    ExecOne(m, acts, 0);
    ExecOne(m, acts, 1);
    ExecOne(m, acts, 2);
    BeginAndFetch(Exec(m, acts[..1]), 1, other);
  }

  /** The last three actions: the other operation lands, and then the first one fetches and lands. */
  lemma MeanwhileEnds(m: Machine, op: MoneyOp)
    requires m.running.Keys == {0, 1} && IsFetched(m, 1) && m.running[0].Begun? && m.running[0].op == op
    ensures var between := Apply(m.db, m.running[1].plan);
            Act(Act(Act(m, Commit(1, true)), Fetch(0)), Commit(0, true)).db
            == Apply(between, Read(Mixed(m.running[0].start, between), op))
  {
  }

  /** The first goes by its row as it was and the user as the other operation left it. */
  lemma MeanwhileLeads(db: Db, op: MoneyOp, other: MoneyOp)
    ensures var between := Apply(db, Read(db, other));
            AfterMeanwhile(db, op, other) == Apply(between, Read(Mixed(db, between), op))
  {
    var m, acts := Machine(db, map[]), Meanwhile(op, other);
    MeanwhileBegun(db, op, other);
    MeanwhileEnds(Exec(m, acts[..3]), op);
    ExecLastThree(m, acts);
  }

  /** Whatever the two operations are, nothing is overwritten: the balances still replay the log. */
  lemma MeanwhileReplays(db: Db, op: MoneyOp, other: MoneyOp)
    requires Replays(db)
    ensures Replays(AfterMeanwhile(db, op, other))
  {
    var between := Apply(db, Read(db, other));
    MeanwhileLeads(db, op, other);
    PlansBalance(db, other);
    BalancedKeepsReplay(db, Read(db, other));
    PlansWriteKnownUsers(Mixed(db, between), op);
    assert Current(between.users, between.users, Read(Mixed(db, between), op).user);
    StaleOperation(db, between, between, op);
  }

  /** What a verification writes that goes by an unpaid payment and a user that is there. */
  lemma LateCredit(start: Db, now: Db, r: Id, kobo: int)
    requires r in start.payments && start.payments[r].status != Success && start.payments[r].user in now.users
    ensures var u := start.payments[r].user;
            Read(Mixed(start, now), VerifyPayment(r, Paid(kobo)))
            == Plan(SetWallet(u, now.users[u].wallet + kobo), PaymentTo(r, Success),
                    Some(Txn(u, WalletDeposit(r), kobo, Some(kobo), None, TxnCompleted, 0)), None, None)
  {
  }

  lemma LateCreditLands(start: Db, now: Db, r: Id, kobo: int, after: Db)
    requires r in start.payments && start.payments[r].status != Success && start.payments[r].user in now.users
    requires after == Apply(now, Read(Mixed(start, now), VerifyPayment(r, Paid(kobo))))
    ensures var u := start.payments[r].user;
            after.users == now.users[u := now.users[u].(wallet := now.users[u].wallet + kobo)]
  {
    LateCredit(start, now, r, kobo);
  }

  lemma KeepsUsers(db: Db, p: Plan)
    ensures Apply(db, p).users.Keys == db.users.Keys
  {
  }

  /**
   verifyPayment fetches the user only after Paystack has answered, so whatever operation on the same
   user runs meanwhile, its effect on the balances stays, and they still replay the log.
   */
  lemma VerifyingOverwritesNothing(db: Db, r: Id, kobo: int, other: MoneyOp)
    requires Replays(db) && r in db.payments && db.payments[r].status != Success && db.payments[r].user in db.users
    ensures var u, between := db.payments[r].user, Apply(db, Read(db, other));
            var after := AfterMeanwhile(db, VerifyPayment(r, Paid(kobo)), other);
            && u in between.users && Replays(after)
            && after.users == between.users[u := between.users[u].(wallet := between.users[u].wallet + kobo)]
  {
    var verify, between := VerifyPayment(r, Paid(kobo)), Apply(db, Read(db, other));
    KeepsUsers(db, Read(db, other));
    MeanwhileReplays(db, verify, other);
    MeanwhileLeads(db, verify, other);
    LateCreditLands(db, between, r, kobo, AfterMeanwhile(db, verify, other));
  }

  /**
   Two verifications of one reference that overlap credit the wallet twice.  The balances still replay
   the log, but the payment has two records.
   */
  lemma VerifyingTwiceRecordsTwice(db: Db, r: Id, kobo: int, again: int)
    requires Replays(db) && RecordedOnce(db)
    requires r in db.payments && db.payments[r].status != Success && db.payments[r].user in db.users
    ensures var u, other := db.payments[r].user, VerifyPayment(r, Paid(again));
            var after := AfterMeanwhile(db, VerifyPayment(r, Paid(kobo)), other);
            && u in after.users && after.users[u].wallet == db.users[u].wallet + again + kobo
            && Replays(after) && Refs(after.txns, PaymentKey(r)) == 2 && !RecordedOnce(after)
  {
    var verify, other := VerifyPayment(r, Paid(kobo)), VerifyPayment(r, Paid(again));
    var p := Read(db, other);
    var between := Apply(db, p);
    assert Mixed(db, db) == db;
    LateCredit(db, db, r, again);
    KeepsUsers(db, p);
    LateCredit(db, between, r, kobo);
    MeanwhileReplays(db, verify, other);
    MeanwhileLeads(db, verify, other);
    CreditedTwice(db, p, Read(Mixed(db, between), verify), r, kobo, again);
  }

  lemma CreditedTwice(db: Db, p: Plan, q: Plan, r: Id, kobo: int, again: int)
    requires RecordedOnce(db) && r in db.payments && db.payments[r].status != Success
    requires p.txn.Some? && KeyOf(p.txn.value) == Some(PaymentKey(r))
    requires q.txn.Some? && KeyOf(q.txn.value) == Some(PaymentKey(r))
    requires var u := db.payments[r].user;
             && u in db.users && p.user == SetWallet(u, db.users[u].wallet + again)
             && q.user == SetWallet(u, db.users[u].wallet + again + kobo)
    ensures var u, after := db.payments[r].user, Apply(Apply(db, p), q);
            && u in after.users && after.users[u].wallet == db.users[u].wallet + again + kobo
            && Refs(after.txns, PaymentKey(r)) == 2 && !RecordedOnce(after)
  {
    var between := Apply(db, p);
    assert Refs(db.txns, PaymentKey(r)) == One(Settled(db, PaymentKey(r)));
    RefsAppend(db.txns, Posted(db, p), PaymentKey(r));
    RefsAppend(between.txns, Posted(between, q), PaymentKey(r));
    var after := Apply(between, q);
    assert Refs(after.txns, PaymentKey(r)) != One(Settled(after, PaymentKey(r)));
  }

  lemma RefsAppend(log: seq<Txn>, t: Txn, k: Key)
    ensures Refs(log + [t], k) == Refs(log, k) + One(KeyOf(t) == Some(k))
  {
    assert (log + [t])[..|log|] == log;
  }
}
