/**
 Overlapping requests.  An operation reads the row it is about, later the user's row, and later still it
 commits the absolute values it computed from both; other requests run in between, and no row is
 locked.  What lies between differs: verifyPayment asks Paystack before it reads the user, inside its
 transaction, while the others read the user and then call out or open theirs.  If operations that
 share a row do not overlap, this is as good as running them one by one.
 */
module Interleaving {
  import opened Database
  import opened MoneyOps
  import opened LedgerProofs
  import opened LifecycleProofs
  import opened NonNegative
  import opened Platform

  datatype RowKey = UserRow(Id) | CreditRow(Id) | PayoutRow(Id) | PaymentRow(Id) | CardRow(Id)

  /** The rows an operation reads or writes. */
  function Rows(db: Db, op: MoneyOp): set<RowKey> {
    match op
    case ApproveCredit(c, _, _) => {CreditRow(c)} + (if c in db.credits then {UserRow(db.credits[c].user)} else {})
    case RejectCredit(c) => {CreditRow(c)} + (if c in db.credits then {UserRow(db.credits[c].user)} else {})
    case ProcessPayout(p, _) => {PayoutRow(p)} + (if p in db.payouts then {UserRow(db.payouts[p].user)} else {})
    case CompleteManualPayout(p) => {PayoutRow(p)} + (if p in db.payouts then {UserRow(db.payouts[p].user)} else {})
    case RejectPayout(p) => {PayoutRow(p)}
    case VerifyPayment(r, _) => {PaymentRow(r)} + (if r in db.payments then {UserRow(db.payments[r].user)} else {})
    case TransferEarnings(u, _) => {UserRow(u)}
    case FundCard(c, u, _, _, _) => {CardRow(c), UserRow(u)}
    case WidgetDeposit(_, u, _) => {UserRow(u)}
  }

  predicate SameAt<V(==)>(a: map<Id, V>, b: map<Id, V>, k: Id) {
    (k in a <==> k in b) && (k in a ==> a[k] == b[k])
  }

  predicate SameRow(a: Db, b: Db, k: RowKey) {
    match k
    case UserRow(u) => SameAt(a.users, b.users, u)
    case CreditRow(c) => SameAt(a.credits, b.credits, c)
    case PayoutRow(p) => SameAt(a.payouts, b.payouts, p)
    case PaymentRow(r) => SameAt(a.payments, b.payments, r)
    case CardRow(c) => SameAt(a.cards, b.cards, c)
  }

  /** The rows agree, and so do the bank accounts, which no money operation writes. */
  predicate SameRows(a: Db, b: Db, rows: set<RowKey>) {
    a.banks == b.banks && forall k :: k in rows ==> SameRow(a, b, k)
  }

  predicate DecidesRequest(op: MoneyOp) {
    op.ApproveCredit? || op.RejectCredit? || op.ProcessPayout? || op.CompleteManualPayout? || op.RejectPayout?
  }

  lemma DecisionReadsItsRows(a: Db, b: Db, op: MoneyOp)
    requires SameRows(a, b, Rows(a, op)) && DecidesRequest(op)
    ensures Rows(b, op) == Rows(a, op) && Read(b, op) == Read(a, op)
  {
    match op
    case ApproveCredit(c, _, _) => assert SameRow(a, b, CreditRow(c));
    case RejectCredit(c) => assert SameRow(a, b, CreditRow(c));
    case ProcessPayout(p, _) => assert SameRow(a, b, PayoutRow(p));
    case CompleteManualPayout(p) => assert SameRow(a, b, PayoutRow(p));
    case RejectPayout(p) => assert SameRow(a, b, PayoutRow(p));
  }

  lemma ReadsOnlyItsRows(a: Db, b: Db, op: MoneyOp)
    requires SameRows(a, b, Rows(a, op))
    ensures Rows(b, op) == Rows(a, op) && Read(b, op) == Read(a, op)
  {
    match op
    case VerifyPayment(r, _) => assert SameRow(a, b, PaymentRow(r));
    case TransferEarnings(u, _) => assert SameRow(a, b, UserRow(u));
    case FundCard(c, u, _, _, _) => assert SameRow(a, b, CardRow(c)) && SameRow(a, b, UserRow(u));
    case WidgetDeposit(_, u, _) => assert SameRow(a, b, UserRow(u));
    case _ => DecisionReadsItsRows(a, b, op);
  }

  /** The rows a plan writes. */
  function Written(p: Plan): set<RowKey> {
    (if p.user.KeepUser? then {} else {UserRow(p.user.user)})
    + (match p.row
       case KeepRow => {}
       case CreditTo(c, _) => {CreditRow(c)}
       case PayoutTo(p, _) => {PayoutRow(p)}
       case PaymentTo(r, _) => {PaymentRow(r)}
       case CardTo(c, _) => {CardRow(c)})
  }

  lemma PlansWriteTheirRows(db: Db, op: MoneyOp)
    ensures Written(Read(db, op)) <= Rows(db, op)
  {
  }

  lemma ApplyingKeepsOtherRows(db: Db, p: Plan, k: RowKey)
    requires k !in Written(p)
    ensures SameRow(db, Apply(db, p), k)
  {
  }

  lemma WritesOnlyItsRows(db: Db, op: MoneyOp, rows: set<RowKey>)
    requires Rows(db, op) !! rows
    ensures SameRows(db, Apply(db, Read(db, op)), rows)
  {
    PlansWriteTheirRows(db, op);
    forall k | k in rows
      ensures SameRow(db, Apply(db, Read(db, op)), k)
    {
      assert k !in Rows(db, op);
      ApplyingKeepsOtherRows(db, Read(db, op), k);
    }
  }

  // ---------- The machine ----------

  /**
   An operation that has begun, with the database it read its row from, or that has fetched the user
   too; `seen` are the user rows at that time, and the plan is what it computed.
   */
  datatype Running =
    | Begun(op: MoneyOp, start: Db, rows: set<RowKey>)
    | Fetched(op: MoneyOp, start: Db, rows: set<RowKey>, seen: map<Id, User>, plan: Plan)

  /** What an operation goes by: its row as it was, the users and bank accounts as they are now. */
  function Mixed(start: Db, now: Db): Db {
    start.(users := now.users, banks := now.banks)
  }

  datatype Machine = Machine(db: Db, running: map<Id, Running>)

  datatype Action = Tick(now: int) | Begin(id: Id, op: MoneyOp) | Fetch(id: Id) | Commit(id: Id, dbOk: bool)

  predicate IsFetched(m: Machine, i: Id) {
    i in m.running && m.running[i].Fetched?
  }

  function Act(m: Machine, a: Action): Machine {
    match a
    case Tick(now) => m.(db := m.db.(clock := now))
    case Begin(i, op) =>
      if i in m.running then m
      else m.(running := m.running[i := Begun(op, m.db, Rows(m.db, op))])
    case Fetch(i) =>
      if i !in m.running || m.running[i].Fetched? then m
      else
        var r := m.running[i];
        var fetched := Fetched(r.op, r.start, r.rows, m.db.users, Read(Mixed(r.start, m.db), r.op));
        m.(running := m.running[i := fetched])
    case Commit(i, dbOk) =>
      if !IsFetched(m, i) then m
      else Machine(if Writes(m.running[i].plan) && !dbOk then m.db else Apply(m.db, m.running[i].plan), m.running - {i})
  }

  function Exec(m: Machine, acts: seq<Action>): Machine {
    if acts == [] then m else Act(Exec(m, acts[..|acts| - 1]), acts[|acts| - 1])
  }

  /** An operation begins only if it shares no row with one that is running. */
  predicate NoOverlap(m: Machine, acts: seq<Action>) {
    acts == [] ||
    (&& NoOverlap(m, acts[..|acts| - 1])
     && var before, a := Exec(m, acts[..|acts| - 1]), acts[|acts| - 1];
        a.Begin? ==> forall j :: j in before.running ==> before.running[j].rows !! Rows(before.db, a.op))
  }

  /** An operation as it was committed. */
  datatype Done = Done(now: int, op: MoneyOp, dbOk: bool)

  function Commits(m: Machine, acts: seq<Action>): seq<Done> {
    if acts == [] then []
    else
      var before, a := Exec(m, acts[..|acts| - 1]), acts[|acts| - 1];
      Commits(m, acts[..|acts| - 1]) +
      if a.Commit? && IsFetched(before, a.id) then [Done(before.db.clock, before.running[a.id].op, a.dbOk)] else []
  }

  /** One after the other, each alone. */
  function Serial(db: Db, ds: seq<Done>): Db {
    if ds == [] then db
    else
      var d := ds[|ds| - 1];
      Perform(Serial(db, ds[..|ds| - 1]).(clock := d.now), d.op, d.dbOk).db
  }

  // ---------- Serialisability ----------

  /** The rows a running operation read are as they were, and what it computed is what it would compute now. */
  ghost predicate Fresh(db: Db, r: Running) {
    && r.rows == Rows(db, r.op) && SameRows(r.start, db, r.rows)
    && (r.Fetched? ==> r.plan == Read(db, r.op))
  }

  /** So it is for every running operation, and no two share a row. */
  ghost predicate UpToDate(m: Machine) {
    && (forall i :: i in m.running ==> Fresh(m.db, m.running[i]))
    && (forall i, j :: i in m.running && j in m.running && i != j ==> m.running[i].rows !! m.running[j].rows)
  }

  lemma SameRowsChain(a: Db, b: Db, c: Db, rows: set<RowKey>)
    requires SameRows(a, b, rows) && SameRows(b, c, rows)
    ensures SameRows(a, c, rows)
  {
    forall k | k in rows
      ensures SameRow(a, c, k)
    {
      assert SameRow(a, b, k) && SameRow(b, c, k);
    }
  }

  lemma StaysFresh(db: Db, after: Db, r: Running)
    requires Fresh(db, r) && SameRows(db, after, r.rows)
    ensures Fresh(after, r)
  {
    SameRowsChain(r.start, db, after, r.rows);
    ReadsOnlyItsRows(db, after, r.op);
  }

  lemma CommitKeepsUpToDate(m: Machine, i: Id)
    requires UpToDate(m) && IsFetched(m, i)
    ensures UpToDate(Machine(Apply(m.db, m.running[i].plan), m.running - {i}))
  {
    forall j | j in m.running && j != i
      ensures Fresh(Apply(m.db, m.running[i].plan), m.running[j])
    {
      WritesOnlyItsRows(m.db, m.running[i].op, m.running[j].rows);
      StaysFresh(m.db, Apply(m.db, m.running[i].plan), m.running[j]);
    }
  }

  lemma TickKeepsUpToDate(m: Machine, now: int)
    requires UpToDate(m)
    ensures UpToDate(Act(m, Tick(now)))
  {
    forall j | j in m.running
      ensures Fresh(m.db.(clock := now), m.running[j])
    {
      StaysFresh(m.db, m.db.(clock := now), m.running[j]);
    }
  }

  /** With its rows unchanged, an operation computes from the mixed rows what it would compute now. */
  lemma FetchIsFresh(db: Db, r: Running)
    requires Fresh(db, r)
    ensures Read(Mixed(r.start, db), r.op) == Read(db, r.op)
  {
    forall k | k in r.rows
      ensures SameRow(db, Mixed(r.start, db), k)
    {
      assert SameRow(r.start, db, k);
    }
    ReadsOnlyItsRows(db, Mixed(r.start, db), r.op);
  }

  lemma FetchKeepsUpToDate(m: Machine, i: Id)
    requires UpToDate(m)
    ensures UpToDate(Act(m, Fetch(i)))
  {
    if i in m.running {
      FetchIsFresh(m.db, m.running[i]);
    }
  }

  lemma BeginKeepsUpToDate(m: Machine, i: Id, op: MoneyOp)
    requires UpToDate(m) && forall j :: j in m.running ==> m.running[j].rows !! Rows(m.db, op)
    ensures UpToDate(Act(m, Begin(i, op)))
  {
  }

  lemma {:induction false} StaysUpToDate(db: Db, acts: seq<Action>)
    requires NoOverlap(Machine(db, map[]), acts)
    ensures UpToDate(Exec(Machine(db, map[]), acts))
  {
    if acts == [] {
    } else {
      var before, a := Exec(Machine(db, map[]), acts[..|acts| - 1]), acts[|acts| - 1];
      StaysUpToDate(db, acts[..|acts| - 1]);
      match a
      case Tick(now) => TickKeepsUpToDate(before, now);
      case Begin(i, op) => BeginKeepsUpToDate(before, i, op);
      case Fetch(i) => FetchKeepsUpToDate(before, i);
      case Commit(i, dbOk) =>
        if IsFetched(before, i) {
          CommitKeepsUpToDate(before, i);
        }
    }
  }

  lemma SerialExtends(db: Db, ds: seq<Done>, d: Done)
    ensures Serial(db, ds + [d]) == Perform(Serial(db, ds).(clock := d.now), d.op, d.dbOk).db
  {
    assert (ds + [d])[..|ds|] == ds;
  }

  /** Committing what is up to date is performing the operation now. */
  lemma CommitIsPerform(m: Machine, a: Action)
    requires UpToDate(m) && a.Commit? && IsFetched(m, a.id)
    ensures Act(m, a).db == Perform(m.db, m.running[a.id].op, a.dbOk).db
  {
    assert Fresh(m.db, m.running[a.id]);
  }

  /**
   Any interleaving in which operations sharing a row do not overlap ends in the same database as
   the serial run of the same operations in the order of their commits (each at its commit time).
   */
  lemma {:induction false} NonOverlappingIsSerial(db: Db, acts: seq<Action>)
    requires NoOverlap(Machine(db, map[]), acts)
    ensures var m := Exec(Machine(db, map[]), acts);
            m.db == Serial(db, Commits(Machine(db, map[]), acts)).(clock := m.db.clock)
  {
    if acts == [] {
    } else {
      var start := Machine(db, map[]);
      var acts', a := acts[..|acts| - 1], acts[|acts| - 1];
      NonOverlappingIsSerial(db, acts');
      StaysUpToDate(db, acts');
      var before := Exec(start, acts');
      if a.Commit? && IsFetched(before, a.id) {
        var ds, d := Commits(start, acts'), Done(before.db.clock, before.running[a.id].op, a.dbOk);
        assert Commits(start, acts) == ds + [d];
        SerialExtends(db, ds, d);
        CommitIsPerform(before, a);
      } else {
        assert Commits(start, acts) == Commits(start, acts');
      }
    }
  }

  lemma {:induction false} SerialKeepsLedger(db: Db, ds: seq<Done>)
    requires Replays(db) && Lifecycle(db)
    ensures Replays(Serial(db, ds)) && Lifecycle(Serial(db, ds))
  {
    if ds == [] {
    } else {
      var before, d := Serial(db, ds[..|ds| - 1]), ds[|ds| - 1];
      SerialKeepsLedger(db, ds[..|ds| - 1]);
      QuietKeepsLifecycle(before, before.(clock := d.now));
      PerformKeepsReplay(before.(clock := d.now), d.op, d.dbOk);
      PerformKeepsLifecycle(before.(clock := d.now), d.op, d.dbOk);
    }
  }

  /** So the ledger invariants hold after every non-overlapping interleaving. */
  lemma NonOverlappingKeepsLedger(db: Db, acts: seq<Action>)
    requires Replays(db) && Lifecycle(db) && NoOverlap(Machine(db, map[]), acts)
    ensures Replays(Exec(Machine(db, map[]), acts).db) && Lifecycle(Exec(Machine(db, map[]), acts).db)
  {
    var after, serial := Exec(Machine(db, map[]), acts).db, Serial(db, Commits(Machine(db, map[]), acts));
    NonOverlappingIsSerial(db, acts);
    SerialKeepsLedger(db, Commits(Machine(db, map[]), acts));
    QuietKeepsLifecycle(serial, after);
  }

  // ---------- Non-negative balances ----------

  /** Within the DTO bounds; a widget deposit has none. */
  predicate InBounds(op: MoneyOp) {
    op.WidgetDeposit? || AllowedMoney(op)
  }

  predicate WithinBounds(acts: seq<Action>) {
    forall i :: 0 <= i < |acts| && acts[i].Begin? ==> InBounds(acts[i].op)
  }

  predicate RunningInBounds(m: Machine) {
    forall i :: i in m.running ==> InBounds(m.running[i].op)
  }

  lemma {:induction false} RunningWithinBounds(db: Db, acts: seq<Action>)
    requires WithinBounds(acts)
    ensures RunningInBounds(Exec(Machine(db, map[]), acts))
  {
    if acts == [] {
    } else {
      var head := acts[..|acts| - 1];
      assert forall i :: 0 <= i < |head| ==> head[i] == acts[i];
      RunningWithinBounds(db, head);
      var a := acts[|acts| - 1];
      assert a.Begin? ==> InBounds(a.op);
    }
  }

  /** The commit of a widget deposit that takes the earnings below 0. */
  predicate CommitOverdraws(m: Machine, a: Action) {
    && a.Commit? && a.dbOk && IsFetched(m, a.id)
    && var op := m.running[a.id].op;
       op.WidgetDeposit? && op.user in m.db.users && m.db.users[op.user].earnings + op.amount < 0
  }

  lemma CommitBalances(m: Machine, a: Action)
    requires UpToDate(m) && RowsSound(m.db) && NonNegativeBalances(m.db) && a.Commit? && IsFetched(m, a.id)
    requires InBounds(m.running[a.id].op)
    ensures NonNegativeBalances(Act(m, a).db) <==> !CommitOverdraws(m, a)
  {
    var op := m.running[a.id].op;
    CommitIsPerform(m, a);
    if op.WidgetDeposit? {
      DepositBalances(m.db, op, a.dbOk);
    } else {
      MoneyKeepsBalances(m.db, op, a.dbOk);
    }
  }

  predicate NoCommitOverdraws(m: Machine, acts: seq<Action>) {
    acts == []
    || (NoCommitOverdraws(m, acts[..|acts| - 1]) && !CommitOverdraws(Exec(m, acts[..|acts| - 1]), acts[|acts| - 1]))
  }

  ghost predicate StaysNonNegative(m: Machine, acts: seq<Action>) {
    NonNegativeBalances(Exec(m, acts).db) && (acts == [] || StaysNonNegative(m, acts[..|acts| - 1]))
  }

  /** And in every such interleaving no balance is ever negative exactly if no commit overdraws. */
  lemma {:induction false} NonOverlappingBalances(db: Db, acts: seq<Action>)
    requires Replays(db) && Lifecycle(db) && NonNegativeBalances(db)
    requires NoOverlap(Machine(db, map[]), acts) && WithinBounds(acts)
    ensures StaysNonNegative(Machine(db, map[]), acts) <==> NoCommitOverdraws(Machine(db, map[]), acts)
  {
    if acts == [] {
    } else {
      var head, a := acts[..|acts| - 1], acts[|acts| - 1];
      assert forall i :: 0 <= i < |head| ==> head[i] == acts[i];
      NonOverlappingBalances(db, head);
      var m := Exec(Machine(db, map[]), head);
      if NonNegativeBalances(m.db) && a.Commit? && IsFetched(m, a.id) {
        StaysUpToDate(db, head);
        NonOverlappingKeepsLedger(db, head);
        RunningWithinBounds(db, head);
        CommitBalances(m, a);
      }
    }
  }
}
