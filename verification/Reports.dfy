/** The admin aggregates over the transactions table. */
module Reports {
  import opened Wrappers
  import opened Money
  import opened Database
  import opened Ledger
  import opened LedgerProofs
  import opened LifecycleProofs
  import opened Platform
  import Safety

  datatype TxnType = CreditType | PayoutType | DepositType | TransferType | FundingType

  function TypeOf(t: Txn): TxnType {
    match t.source
    case BalanceCredit(_) => CreditType
    case DirectRemittance(_) => CreditType
    case WidgetCredit(_) => CreditType
    case PayoutSettled(_) => PayoutType
    case WalletDeposit(_) => DepositType
    case EarningsToWallet => TransferType
    case CardFunding(_) => FundingType
  }

  /** The optional date filter, both ends included. */
  datatype Dates = Dates(from: Option<int>, to: Option<int>)

  const ALL := Dates(None, None)

  predicate InRange(f: Dates, t: Txn) {
    (f.from.Some? ==> f.from.value <= t.date) && (f.to.Some? ==> t.date <= f.to.value)
  }

  /** SUM(amount) over the records of one type in range, completed ones only if asked. */
  function SumAmount(log: seq<Txn>, k: TxnType, f: Dates, completed: bool): int {
    if log == [] then 0
    else
      var t := log[|log| - 1];
      SumAmount(log[..|log| - 1], k, f, completed)
      + if TypeOf(t) == k && InRange(f, t) && (completed ==> t.status == TxnCompleted) then t.amount else 0
  }

  /** getTransactionStatistics: credits minus payouts (no WITHDRAWAL record is ever written). */
  function NetBalance(log: seq<Txn>, f: Dates): int {
    SumAmount(log, CreditType, f, false) - SumAmount(log, PayoutType, f, false)
  }

  function CompletedNetBalance(log: seq<Txn>, f: Dates): int {
    SumAmount(log, CreditType, f, true) - SumAmount(log, PayoutType, f, true)
  }

  /** The credits that went to a bank account instead of the balance. */
  function DirectTotal(log: seq<Txn>): int {
    if log == [] then 0
    else
      var t := log[|log| - 1];
      DirectTotal(log[..|log| - 1]) + if t.source.DirectRemittance? then t.amount else 0
  }

  // ---------- The net balance ----------

  ghost function Total(ids: set<Id>, f: Id -> int): int {
    if ids == {} then 0
    else
      var u :| u in ids;
      f(u) + Total(ids - {u}, f)
  }

  lemma {:induction false} TotalAgrees(ids: set<Id>, f: Id -> int, g: Id -> int)
    requires forall u :: u in ids ==> f(u) == g(u)
    ensures Total(ids, f) == Total(ids, g)
  {
    if ids == {} {
    } else {
      var u :| u in ids && Total(ids, f) == f(u) + Total(ids - {u}, f) && Total(ids, g) == g(u) + Total(ids - {u}, g);
      TotalAgrees(ids - {u}, f, g);
    }
  }

  /** Raising the value of one id raises the total by as much. */
  lemma {:induction false} TotalRaised(ids: set<Id>, f: Id -> int, g: Id -> int, x: Id, d: int)
    requires forall u :: u in ids ==> g(u) == f(u) + if u == x then d else 0
    ensures Total(ids, g) == Total(ids, f) + if x in ids then d else 0
  {
    if ids == {} {
    } else {
      var u :| u in ids && Total(ids, f) == f(u) + Total(ids - {u}, f) && Total(ids, g) == g(u) + Total(ids - {u}, g);
      TotalRaised(ids - {u}, f, g, x, d);
    }
  }

  lemma {:induction false} TotalZero(ids: set<Id>, f: Id -> int)
    requires forall u :: u in ids ==> f(u) == 0
    ensures Total(ids, f) == 0
  {
    if ids == {} {
    } else {
      var u :| u in ids && Total(ids, f) == f(u) + Total(ids - {u}, f);
      TotalZero(ids - {u}, f);
    }
  }

  lemma {:induction false} EarningsTotal(ids: set<Id>, log: seq<Txn>)
    requires forall i :: 0 <= i < |log| ==> log[i].user in ids
    ensures Total(ids, (u: Id) => EarningsOf(log, u))
            == NetBalance(log, ALL) - SumAmount(log, TransferType, ALL, false) - DirectTotal(log)
  {
    if log == [] {
      TotalZero(ids, (u: Id) => EarningsOf(log, u));
    } else {
      var head, t := log[..|log| - 1], log[|log| - 1];
      assert forall i :: 0 <= i < |head| ==> head[i] == log[i];
      EarningsTotal(ids, head);
      TotalRaised(ids, (u: Id) => EarningsOf(head, u), (u: Id) => EarningsOf(log, u), t.user, EarningsDelta(t));
    }
  }

  ghost function AllEarnings(users: map<Id, User>): int {
    Total(users.Keys, (u: Id) => if u in users then users[u].earnings else 0)
  }

  /**
   In every reachable state the unfiltered net balance is the sum of all users' earnings plus all
   earnings-to-wallet transfers plus all direct remittances.
   */
  lemma NetBalanceIsEarnings(db: Db)
    requires Replays(db)
    ensures NetBalance(db.txns, ALL)
            == AllEarnings(db.users) + SumAmount(db.txns, TransferType, ALL, false) + DirectTotal(db.txns)
  {
    EarningsTotal(db.users.Keys, db.txns);
    TotalAgrees(db.users.Keys, (u: Id) => EarningsOf(db.txns, u),
                (u: Id) => if u in db.users then db.users[u].earnings else 0);
  }

  lemma {:induction false} CompletedSums(log: seq<Txn>, k: TxnType, f: Dates)
    requires forall i :: 0 <= i < |log| ==> log[i].status == TxnCompleted
    ensures SumAmount(log, k, f, true) == SumAmount(log, k, f, false)
  {
    if log == [] {
    } else {
      var head := log[..|log| - 1];
      assert forall i :: 0 <= i < |head| ==> head[i] == log[i];
      CompletedSums(head, k, f);
    }
  }

  /** Every operation writes COMPLETED records, so the two net balances agree under any date filter. */
  lemma CompletedNetIsNet(db: Db, f: Dates)
    requires RecordsAgree(db)
    ensures CompletedNetBalance(db.txns, f) == NetBalance(db.txns, f)
  {
    assert forall i :: 0 <= i < |db.txns| ==> RecordAgrees(db, db.txns[i]);
    CompletedSums(db.txns, CreditType, f);
    CompletedSums(db.txns, PayoutType, f);
  }

  // ---------- The finance report ----------

  /** totalTransactions, totalAmountNgn, totalProcessingFees, totalNetAmount */
  datatype Report = Report(count: nat, ngn: int, fees: int, net: int)

  function FinanceReport(log: seq<Txn>, f: Dates): Report {
    if log == [] then Report(0, 0, 0, 0)
    else
      var r, t := FinanceReport(log[..|log| - 1], f), log[|log| - 1];
      if TypeOf(t) != PayoutType || !InRange(f, t) then r
      else if t.finance.None? then r.(count := r.count + 1)
      else Report(r.count + 1, r.ngn + t.finance.value.ngn, r.fees + t.finance.value.fee, r.net + t.finance.value.net)
  }

  function Together(r: Report, s: Report): Report {
    Report(r.count + s.count, r.ngn + s.ngn, r.fees + s.fees, r.net + s.net)
  }

  lemma {:induction false} AdjacentSums(log: seq<Txn>, k: TxnType, a: Option<int>, b: int, c: Option<int>,
                                        completed: bool)
    requires (a.Some? ==> a.value <= b + 1) && (c.Some? ==> b <= c.value)
    ensures SumAmount(log, k, Dates(a, Some(b)), completed) + SumAmount(log, k, Dates(Some(b + 1), c), completed)
            == SumAmount(log, k, Dates(a, c), completed)
  {
    if log == [] {
    } else {
      AdjacentSums(log[..|log| - 1], k, a, b, c, completed);
    }
  }

  /** What one record adds to the report. */
  function Share(t: Txn, f: Dates): Report {
    if TypeOf(t) != PayoutType || !InRange(f, t) then Report(0, 0, 0, 0)
    else if t.finance.None? then Report(1, 0, 0, 0)
    else Report(1, t.finance.value.ngn, t.finance.value.fee, t.finance.value.net)
  }

  lemma LastShare(log: seq<Txn>, f: Dates)
    requires log != []
    ensures FinanceReport(log, f) == Together(FinanceReport(log[..|log| - 1], f), Share(log[|log| - 1], f))
  {
  }

  lemma AdjacentShares(t: Txn, a: Option<int>, b: int, c: Option<int>)
    requires (a.Some? ==> a.value <= b + 1) && (c.Some? ==> b <= c.value)
    ensures Together(Share(t, Dates(a, Some(b))), Share(t, Dates(Some(b + 1), c))) == Share(t, Dates(a, c))
  {
    var whole := Share(t, Dates(a, c));
    if t.date <= b {
      assert Share(t, Dates(Some(b + 1), c)) == Report(0, 0, 0, 0) && Share(t, Dates(a, Some(b))) == whole;
    } else {
      assert Share(t, Dates(a, Some(b))) == Report(0, 0, 0, 0) && Share(t, Dates(Some(b + 1), c)) == whole;
    }
  }

  lemma {:induction false} AdjacentReports(log: seq<Txn>, a: Option<int>, b: int, c: Option<int>)
    requires (a.Some? ==> a.value <= b + 1) && (c.Some? ==> b <= c.value)
    ensures Together(FinanceReport(log, Dates(a, Some(b))), FinanceReport(log, Dates(Some(b + 1), c)))
            == FinanceReport(log, Dates(a, c))
  {
    if log == [] {
    } else {
      AdjacentReports(log[..|log| - 1], a, b, c);
      AdjacentShares(log[|log| - 1], a, b, c);
      LastShare(log, Dates(a, Some(b)));
      LastShare(log, Dates(Some(b + 1), c));
      LastShare(log, Dates(a, c));
    }
  }

  /**
   Periods that meet leave no record out and count none twice: up to b and from b + 1 on, to the
   millisecond, the report and both balances add up to those of the whole period.
   */
  lemma AdjacentPeriods(log: seq<Txn>, a: Option<int>, b: int, c: Option<int>)
    requires (a.Some? ==> a.value <= b + 1) && (c.Some? ==> b <= c.value)
    ensures var first, second, whole := Dates(a, Some(b)), Dates(Some(b + 1), c), Dates(a, c);
            && Together(FinanceReport(log, first), FinanceReport(log, second)) == FinanceReport(log, whole)
            && NetBalance(log, first) + NetBalance(log, second) == NetBalance(log, whole)
            && CompletedNetBalance(log, first) + CompletedNetBalance(log, second) == CompletedNetBalance(log, whole)
  {
    AdjacentReports(log, a, b, c);
    AdjacentSums(log, CreditType, a, b, c, false);
    AdjacentSums(log, PayoutType, a, b, c, false);
    AdjacentSums(log, CreditType, a, b, c, true);
    AdjacentSums(log, PayoutType, a, b, c, true);
  }

  /** The figures of a payout record are those of a quote. */
  predicate Quoted(t: Txn, s: Settings) {
    t.finance.Some? && var q := QuoteFor(s, t.amount);
      t.amount > 0 && t.finance.value == Finance(q.ngn, RecoveredRate(q), q.fee, q.net)
  }

  function QuotedUnder(db: Db, t: Txn): Settings
    requires t.source.PayoutSettled? && t.source.payout in db.payouts
  {
    db.payouts[t.source.payout].quotedUnder
  }

  lemma RecordsAreQuoted(db: Db, i: nat)
    requires RecordsAgree(db) && RowsSound(db) && i < |db.txns| && db.txns[i].source.PayoutSettled?
    ensures db.txns[i].source.payout in db.payouts && Quoted(db.txns[i], QuotedUnder(db, db.txns[i]))
    ensures ValidSettings(QuotedUnder(db, db.txns[i]))
  {
    var t := db.txns[i];
    assert RecordAgrees(db, t);
    var p := db.payouts[t.source.payout];
    assert PayoutSound(db, p);
    AcceptedIsPositive(p.quotedUnder, p.quote.amount);
  }

  lemma {:induction false} ReportAddsUpOn(db: Db, log: seq<Txn>, f: Dates)
    requires forall i :: 0 <= i < |log| && log[i].source.PayoutSettled? ==>
               log[i].source.payout in db.payouts && Quoted(log[i], QuotedUnder(db, log[i]))
    ensures var r := FinanceReport(log, f);
            && 0 - r.count <= r.ngn - r.fees - r.net <= r.count
            && ((forall i :: 0 <= i < |log| && log[i].source.PayoutSettled? && InRange(f, log[i]) ==>
                   QuotedUnder(db, log[i]).feeType == Fixed)
                ==> r.ngn == r.fees + r.net)
  {
    if log == [] {
    } else {
      var head, t := log[..|log| - 1], log[|log| - 1];
      assert forall i :: 0 <= i < |head| ==> head[i] == log[i];
      ReportAddsUpOn(db, head, f);
      if t.source.PayoutSettled? {
        QuoteAddsUp(QuotedUnder(db, t), t.amount);
      }
    }
  }

  /** Every payout in range was requested under a fixed fee. */
  ghost predicate AllFixed(db: Db, f: Dates) {
    forall i :: 0 <= i < |db.txns| && db.txns[i].source.PayoutSettled? && InRange(f, db.txns[i]) ==>
      db.txns[i].source.payout in db.payouts && QuotedUnder(db, db.txns[i]).feeType == Fixed
  }

  /**
   In every reachable state and for any date filter, converted amounts less fees less net amounts
   are within one kobo per transaction of 0, and 0 when every payout in range had a fixed fee.
   */
  lemma FinanceReportAddsUp(db: Db, f: Dates)
    requires RecordsAgree(db) && RowsSound(db)
    ensures var r := FinanceReport(db.txns, f);
            && 0 - r.count <= r.ngn - r.fees - r.net <= r.count
            && (AllFixed(db, f) ==> r.ngn == r.fees + r.net)
  {
    forall i | 0 <= i < |db.txns| && db.txns[i].source.PayoutSettled?
      ensures db.txns[i].source.payout in db.payouts && Quoted(db.txns[i], QuotedUnder(db, db.txns[i]))
    {
      RecordsAreQuoted(db, i);
    }
    ReportAddsUpOn(db, db.txns, f);
  }

  // ---------- The report and the payouts table ----------

  lemma {:induction false} TotalPicks(ids: set<Id>, f: Id -> int, x: Id)
    requires x in ids
    ensures Total(ids, f) == f(x) + Total(ids - {x}, f)
  {
    var u :| u in ids && Total(ids, f) == f(u) + Total(ids - {u}, f);
    if u != x {
      TotalPicks(ids - {u}, f, x);
      TotalPicks(ids - {x}, f, u);
      assert ids - {u} - {x} == ids - {x} - {u};
    }
  }

  datatype Column = NgnColumn | FeeColumn | NetColumn

  /** A column of the payouts table. */
  ghost function Figures(payouts: map<Id, Payout>, c: Column): Id -> int {
    (p: Id) =>
      if p !in payouts then 0
      else match c
           case NgnColumn => payouts[p].quote.ngn
           case FeeColumn => payouts[p].quote.fee
           case NetColumn => payouts[p].quote.net
  }

  /** The payouts with a record in range. */
  function SettledIn(log: seq<Txn>, f: Dates): set<Id> {
    set i | 0 <= i < |log| && log[i].source.PayoutSettled? && InRange(f, log[i]) :: log[i].source.payout
  }

  /** The report the payouts table gives for a set of its rows. */
  ghost function TotalsOf(payouts: map<Id, Payout>, ids: set<Id>): Report {
    Report(|ids|, Total(ids, Figures(payouts, NgnColumn)), Total(ids, Figures(payouts, FeeColumn)),
           Total(ids, Figures(payouts, NetColumn)))
  }

  function Added(r: Report, q: Quote): Report {
    Report(r.count + 1, r.ngn + q.ngn, r.fees + q.fee, r.net + q.net)
  }

  lemma OneMorePayout(payouts: map<Id, Payout>, ids: set<Id>, p: Id)
    requires p !in ids && p in payouts
    ensures TotalsOf(payouts, ids + {p}) == Added(TotalsOf(payouts, ids), payouts[p].quote)
  {
    TotalPicks(ids + {p}, Figures(payouts, NgnColumn), p);
    TotalPicks(ids + {p}, Figures(payouts, FeeColumn), p);
    TotalPicks(ids + {p}, Figures(payouts, NetColumn), p);
    assert ids + {p} - {p} == ids;
  }

  predicate Matches(q: Quote, f: Finance) {
    f.ngn == q.ngn && f.fee == q.fee && f.net == q.net
  }

  /** No two payout records are for the same payout, and each carries the figures of its row. */
  ghost predicate RecordsMatch(payouts: map<Id, Payout>, log: seq<Txn>) {
    && (forall i, j :: 0 <= i < j < |log| && log[i].source.PayoutSettled? ==> log[i].source != log[j].source)
    && (forall i :: 0 <= i < |log| && log[i].source.PayoutSettled? ==>
          && log[i].source.payout in payouts
          && log[i].finance.Some?
          && Matches(payouts[log[i].source.payout].quote, log[i].finance.value))
  }

  lemma SettledOneMore(head: seq<Txn>, t: Txn, f: Dates)
    ensures SettledIn(head + [t], f)
            == SettledIn(head, f) + if t.source.PayoutSettled? && InRange(f, t) then {t.source.payout} else {}
  {
    var log := head + [t];
    assert forall i :: 0 <= i < |head| ==> log[i] == head[i];
    assert log[|head|] == t;
  }

  lemma MatchingHead(payouts: map<Id, Payout>, head: seq<Txn>, t: Txn, f: Dates)
    requires RecordsMatch(payouts, head + [t])
    ensures RecordsMatch(payouts, head)
    ensures t.source.PayoutSettled? ==>
              && t.source.payout in payouts && t.source.payout !in SettledIn(head, f)
              && t.finance.Some? && Matches(payouts[t.source.payout].quote, t.finance.value)
  {
    var log := head + [t];
    assert forall i :: 0 <= i < |head| ==> log[i] == head[i];
    assert log[|head|] == t;
  }

  lemma ReportAppends(head: seq<Txn>, t: Txn, f: Dates, q: Quote)
    requires t.source.PayoutSettled? ==> t.finance.Some? && Matches(q, t.finance.value)
    ensures FinanceReport(head + [t], f)
            == if t.source.PayoutSettled? && InRange(f, t)
               then Added(FinanceReport(head, f), q) else FinanceReport(head, f)
  {
    assert (head + [t])[..|head|] == head;
  }

  lemma {:induction false} ReportOn(payouts: map<Id, Payout>, log: seq<Txn>, f: Dates)
    requires RecordsMatch(payouts, log)
    ensures FinanceReport(log, f) == TotalsOf(payouts, SettledIn(log, f))
  {
    if log == [] {
      assert SettledIn(log, f) == {};
    } else {
      var head, t := log[..|log| - 1], log[|log| - 1];
      assert log == head + [t];
      MatchingHead(payouts, head, t, f);
      ReportOn(payouts, head, f);
      SettledOneMore(head, t, f);
      if t.source.PayoutSettled? {
        ReportAppends(head, t, f, payouts[t.source.payout].quote);
        if InRange(f, t) {
          OneMorePayout(payouts, SettledIn(head, f), t.source.payout);
        }
      } else {
        ReportAppends(head, t, f, Quote(0, 0, 0, 0));
      }
    }
  }

  lemma RecordsMatchRows(db: Db)
    requires RecordedOnce(db) && RecordsAgree(db)
    ensures RecordsMatch(db.payouts, db.txns)
  {
    forall i, j | 0 <= i < j < |db.txns| && db.txns[i].source.PayoutSettled?
      ensures db.txns[i].source != db.txns[j].source
    {
      if db.txns[i].source == db.txns[j].source {
        OneRecord(db.txns, PayoutKey(db.txns[i].source.payout), i, j);
      }
    }
    assert forall i :: 0 <= i < |db.txns| ==> RecordAgrees(db, db.txns[i]);
  }

  /**
   The report, which only reads the log, counts each payout settled in range once and totals the
   columns of its row; without a date filter those are exactly the COMPLETED payouts.
   */
  lemma FinanceReportIsPayouts(db: Db, f: Dates)
    requires RecordedOnce(db) && RecordsAgree(db)
    ensures FinanceReport(db.txns, f) == TotalsOf(db.payouts, SettledIn(db.txns, f))
    ensures forall p :: p in SettledIn(db.txns, f) <==>
              exists t :: && t in db.txns && t.source == PayoutSettled(p)
                          && (f.from.Some? ==> f.from.value <= t.date) && (f.to.Some? ==> t.date <= f.to.value)
    ensures forall p :: p in SettledIn(db.txns, ALL) <==> p in db.payouts && db.payouts[p].status == Completed
  {
    RecordsMatchRows(db);
    ReportOn(db.payouts, db.txns, f);
    forall p: Id
      ensures p in SettledIn(db.txns, ALL) <==> Settled(db, PayoutKey(p))
    {
      ReferencedIff(db.txns, PayoutKey(p));
      assert Refs(db.txns, PayoutKey(p)) == One(Settled(db, PayoutKey(p)));
    }
  }

  // ---------- The stored exchange rate ----------

  predicate NearRate(quoted: int, cents: int, rate: int) {
    && -(cents + 10_000) <= 2 * cents * (rate - 100 * quoted) <= cents + 10_000
    && (quoted % 100 == 0 ==> rate == 100 * quoted)
  }

  /**
   The rate stored with a payout is the rate in force at request time to within 1/(2c) naira plus
   half of the fourth decimal, whatever settings changes happened between; and exactly, when that
   rate was a whole number of naira.
   */
  lemma StoredRateIsRequestRate(db: Db, i: nat)
    requires RecordsAgree(db) && RowsSound(db) && i < |db.txns| && db.txns[i].source.PayoutSettled?
    ensures var t := db.txns[i];
            && t.source.payout in db.payouts && t.finance.Some? && t.amount > 0
            && var s := QuotedUnder(db, t);
               && t.finance.value.rate.Some? && var rate := t.finance.value.rate.value;
               NearRate(s.rate, t.amount, rate)
  {
    RecordsAreQuoted(db, i);
    RateRecovered(QuotedUnder(db, db.txns[i]), db.txns[i].amount);
  }

  /** Every stored rate is within the rounding bounds of the rate its payout was requested under. */
  ghost predicate RatesNearRequest(db: Db) {
    forall i :: 0 <= i < |db.txns| && db.txns[i].source.PayoutSettled? ==>
      var t := db.txns[i];
      && t.source.payout in db.payouts && t.finance.Some? && t.finance.value.rate.Some? && t.amount > 0
      && NearRate(QuotedUnder(db, t).rate, t.amount, t.finance.value.rate.value)
  }

  /** All of the above, for every run from an empty database. */
  lemma ReportsOfAnyRun(clock: int, settings: Settings, es: seq<Event>, f: Dates)
    requires ValidSettings(settings) && AllowedRun(EmptyDb(clock, settings), es)
    ensures var db := Run(EmptyDb(clock, settings), es);
            var r := FinanceReport(db.txns, f);
            && NetBalance(db.txns, ALL)
               == AllEarnings(db.users) + SumAmount(db.txns, TransferType, ALL, false) + DirectTotal(db.txns)
            && CompletedNetBalance(db.txns, f) == NetBalance(db.txns, f)
            && 0 - r.count <= r.ngn - r.fees - r.net <= r.count
            && (AllFixed(db, f) ==> r.ngn == r.fees + r.net)
            && r == TotalsOf(db.payouts, SettledIn(db.txns, f))
            && RatesNearRequest(db)
  {
    var db := Run(EmptyDb(clock, settings), es);
    Safety.ReachableInv(clock, settings, es);
    NetBalanceIsEarnings(db);
    CompletedNetIsNet(db, f);
    FinanceReportAddsUp(db, f);
    FinanceReportIsPayouts(db, f);
    forall i | 0 <= i < |db.txns| && db.txns[i].source.PayoutSettled?
      ensures var t := db.txns[i];
              && t.source.payout in db.payouts && t.finance.Some? && t.finance.value.rate.Some? && t.amount > 0
              && NearRate(QuotedUnder(db, t).rate, t.amount, t.finance.value.rate.value)
    {
      StoredRateIsRequestRate(db, i);
    }
  }
}
