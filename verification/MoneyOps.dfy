/**
 The operations that move money.  Each reads and checks rows and then writes absolute values, in one
 database transaction, so each is split the same way here: `Read` computes the writes from the rows
 it reads, `Apply` performs them.  The module Interleaving says when the rows are read.
 */
module MoneyOps {
  import opened Wrappers
  import opened Money
  import opened Database

  datatype CreditMethod = Balance | Direct

  /** Paystack's answer to a verification: no answer, any status but success, or the kobo paid. */
  datatype PaystackAnswer = Unreachable | Declined | Paid(kobo: int)

  /** What the settlement through Sudo comes to. */
  datatype Settlement = NotConfigured | TransferFailed | Sent

  datatype MoneyOp =
    | ApproveCredit(credit: Id, override: Option<int>, how: CreditMethod)
    | RejectCredit(credit: Id)
    | ProcessPayout(payout: Id, settlement: Settlement)
    | CompleteManualPayout(payout: Id)
    | RejectPayout(payout: Id)
    | VerifyPayment(payment: Id, answer: PaystackAnswer)
    | TransferEarnings(user: Id, amount: int)
    | FundCard(card: Id, user: Id, amount: int, settlement: Settlement, sudoBalance: Option<int>)
    | WidgetDeposit(session: Id, user: Id, amount: int)

  /** The balance columns one operation overwrites; a save writes only the columns that changed. */
  datatype UserWrite = KeepUser | SetEarnings(user: Id, value: int) | SetWallet(user: Id, value: int)
                     | SetBoth(user: Id, earnings: int, wallet: int)

  /** The one other row it overwrites. */
  datatype RowWrite = KeepRow | CreditTo(credit: Id, status: RequestStatus)
                    | PayoutTo(payout: Id, status: RequestStatus)
                    | PaymentTo(payment: Id, outcome: PaymentStatus) | CardTo(card: Id, balance: int)

  /** The writes of one operation.  The date of the record is filled in when it is committed. */
  datatype Plan = Plan(user: UserWrite, row: RowWrite, txn: Option<Txn>, cardTxn: Option<CardTxn>, error: Option<Error>)

  function Refuse(e: Error): Plan {
    Plan(KeepUser, KeepRow, None, None, Some(e))
  }

  predicate Writes(p: Plan) {
    p.user != KeepUser || p.row != KeepRow || p.txn.Some? || p.cardTxn.Some?
  }

  // ---------- Reading and checking ----------

  /** The user has a verified primary bank account. */
  predicate HasPrimary(banks: map<Id, BankAccount>, u: Id) {
    exists b :: b in banks && banks[b].user == u && banks[b].verified && banks[b].primary
  }

  /** What approving writes, once everything is checked. */
  function Approval(db: Db, c: Id, amount: int, how: CreditMethod): Plan
    requires c in db.credits && db.credits[c].user in db.users
  {
    var u := db.credits[c].user;
    match how
    case Balance =>
      Plan(SetEarnings(u, db.users[u].earnings + amount), CreditTo(c, Completed),
           Some(Txn(u, BalanceCredit(c), amount, None, None, TxnCompleted, 0)), None, None)
    case Direct =>
      Plan(KeepUser, CreditTo(c, Completed),
           Some(Txn(u, DirectRemittance(c), amount, None, None, TxnCompleted, 0)), None, None)
  }

  function ReadApproveCredit(db: Db, c: Id, override: Option<int>, how: CreditMethod): Plan {
    if c !in db.credits then Refuse(NotFound)
    else if db.credits[c].status != Pending then Refuse(BadRequest)
    else if db.credits[c].user !in db.users then Refuse(NotFound)
    else
      var amount := if override.Some? && override.value != 0 then override.value else db.credits[c].amount;
      if how == Direct && !HasPrimary(db.banks, db.credits[c].user) then Refuse(BadRequest)
      else Approval(db, c, amount, how)
  }

  function ReadRejectCredit(db: Db, c: Id): Plan {
    if c !in db.credits then Refuse(NotFound)
    else if db.credits[c].status != Pending then Refuse(BadRequest)
    else if db.credits[c].user !in db.users then Refuse(NotFound)
    else Plan(KeepUser, CreditTo(c, Rejected), None, None, None)
  }

  /** The checks processPayout and completeManualPayout share. */
  function PayoutProblem(db: Db, p: Id): Option<Error> {
    if p !in db.payouts then Some(NotFound)
    else if db.payouts[p].status != Pending then Some(BadRequest)
    else if db.payouts[p].user !in db.users then Some(NotFound)
    else if db.users[db.payouts[p].user].earnings < db.payouts[p].quote.amount then Some(BadRequest)
    else None
  }

  /** applyPayoutCompletion */
  function Settle(db: Db, p: Id): Plan
    requires p in db.payouts && db.payouts[p].user in db.users
  {
    var u, q := db.payouts[p].user, db.payouts[p].quote;
    Plan(SetEarnings(u, db.users[u].earnings - q.amount), PayoutTo(p, Completed),
         Some(Txn(u, PayoutSettled(p), q.amount, Some(q.ngn),
                  Some(Finance(q.ngn, RecoveredRate(q), q.fee, q.net)), TxnCompleted, 0)), None, None)
  }

  function ReadManualPayout(db: Db, p: Id): Plan {
    var problem := PayoutProblem(db, p);
    if problem.Some? then Refuse(problem.value) else Settle(db, p)
  }

  function ReadProcessPayout(db: Db, p: Id, settlement: Settlement): Plan {
    var problem := PayoutProblem(db, p);
    if problem.Some? then Refuse(problem.value)
    else if db.payouts[p].bank.number == "" || db.payouts[p].bank.code == "" then Refuse(BadRequest)
    else if settlement != Sent then Refuse(BadRequest)
    else Settle(db, p)
  }

  function ReadRejectPayout(db: Db, p: Id): Plan {
    if p !in db.payouts then Refuse(NotFound)
    else if db.payouts[p].status != Pending then Refuse(BadRequest)
    else Plan(KeepUser, PayoutTo(p, Rejected), None, None, None)
  }

  function ReadVerifyPayment(db: Db, r: Id, answer: PaystackAnswer): Plan {
    if r !in db.payments then Refuse(NotFound)
    else if db.payments[r].status == Success then Plan(KeepUser, KeepRow, None, None, None)
    else
      match answer
      case Unreachable => Refuse(Unavailable)
      case Declined => Plan(KeepUser, PaymentTo(r, Failed), None, None, Some(BadRequest))
      case Paid(kobo) =>
        var u := db.payments[r].user;
        if u !in db.users then Refuse(NotFound)
        else Plan(SetWallet(u, db.users[u].wallet + kobo), PaymentTo(r, Success),
                  Some(Txn(u, WalletDeposit(r), kobo, Some(kobo), None, TxnCompleted, 0)), None, None)
  }

  /** The same number leaves a USD column and enters an NGN column: the source does not convert. */
  function ReadTransfer(db: Db, u: Id, amount: int): Plan {
    if u !in db.users then Refuse(NotFound)
    else if db.users[u].earnings < amount then Refuse(BadRequest)
    else Plan(SetBoth(u, db.users[u].earnings - amount, db.users[u].wallet + amount), KeepRow,
              Some(Txn(u, EarningsToWallet, amount, Some(amount), None, TxnCompleted, 0)), None, None)
  }

  function ReadFundCard(db: Db, c: Id, u: Id, amount: int, settlement: Settlement, sudoBalance: Option<int>): Plan {
    if c !in db.cards || db.cards[c].user != u then Refuse(NotFound)
    else if u !in db.users then Refuse(NotFound)
    else if db.users[u].wallet < amount then Refuse(BadRequest)
    else if settlement == NotConfigured then Refuse(BadRequest)
    else if settlement == TransferFailed then Refuse(Unavailable)
    else
      var balance := if sudoBalance.Some? then sudoBalance.value else db.cards[c].balance + amount;
      Plan(SetWallet(u, db.users[u].wallet - amount), CardTo(c, balance),
           Some(Txn(u, CardFunding(c), amount, if db.cards[c].naira then Some(amount) else None, None,
                    TxnCompleted, 0)),
           Some(CardTxn(c, u, amount)), None)
  }

  function ReadWidgetDeposit(db: Db, s: Id, u: Id, amount: int): Plan {
    if u !in db.users then Refuse(NotFound)
    else Plan(SetEarnings(u, db.users[u].earnings + amount), KeepRow,
              Some(Txn(u, WidgetCredit(s), amount, None, None, TxnCompleted, 0)), None, None)
  }

  function Read(db: Db, op: MoneyOp): Plan {
    match op
    case ApproveCredit(c, override, how) => ReadApproveCredit(db, c, override, how)
    case RejectCredit(c) => ReadRejectCredit(db, c)
    case ProcessPayout(p, settlement) => ReadProcessPayout(db, p, settlement)
    case CompleteManualPayout(p) => ReadManualPayout(db, p)
    case RejectPayout(p) => ReadRejectPayout(db, p)
    case VerifyPayment(r, answer) => ReadVerifyPayment(db, r, answer)
    case TransferEarnings(u, amount) => ReadTransfer(db, u, amount)
    case FundCard(c, u, amount, settlement, b) => ReadFundCard(db, c, u, amount, settlement, b)
    case WidgetDeposit(s, u, amount) => ReadWidgetDeposit(db, s, u, amount)
  }

  // ---------- Committing ----------

  function WriteUser(users: map<Id, User>, w: UserWrite): map<Id, User> {
    match w
    case KeepUser => users
    case SetEarnings(u, e) => if u in users then users[u := users[u].(earnings := e)] else users
    case SetWallet(u, w) => if u in users then users[u := users[u].(wallet := w)] else users
    case SetBoth(u, e, w) => if u in users then users[u := users[u].(earnings := e, wallet := w)] else users
  }

  function WriteCredit(credits: map<Id, CreditRequest>, w: RowWrite): map<Id, CreditRequest> {
    if w.CreditTo? && w.credit in credits
    then credits[w.credit := credits[w.credit].(status := w.status)] else credits
  }

  function WritePayout(payouts: map<Id, Payout>, w: RowWrite): map<Id, Payout> {
    if w.PayoutTo? && w.payout in payouts
    then payouts[w.payout := payouts[w.payout].(status := w.status)] else payouts
  }

  function WritePayment(payments: map<Id, Payment>, w: RowWrite): map<Id, Payment> {
    if w.PaymentTo? && w.payment in payments
    then payments[w.payment := payments[w.payment].(status := w.outcome)] else payments
  }

  function WriteCard(cards: map<Id, Card>, w: RowWrite): map<Id, Card> {
    if w.CardTo? && w.card in cards
    then cards[w.card := cards[w.card].(balance := w.balance)] else cards
  }

  /** The record as committed: its date is the time of the commit. */
  function Posted(db: Db, p: Plan): Txn
    requires p.txn.Some?
  {
    p.txn.value.(date := db.clock)
  }

  function Apply(db: Db, p: Plan): Db {
    db.(users := WriteUser(db.users, p.user),
        credits := WriteCredit(db.credits, p.row),
        payouts := WritePayout(db.payouts, p.row),
        payments := WritePayment(db.payments, p.row),
        cards := WriteCard(db.cards, p.row),
        txns := if p.txn.Some? then db.txns + [Posted(db, p)] else db.txns,
        cardTxns := if p.cardTxn.Some? then db.cardTxns + [p.cardTxn.value] else db.cardTxns)
  }

  /** One request run alone.  If the database fails anywhere in the transaction, nothing is written. */
  function Perform(db: Db, op: MoneyOp, dbOk: bool): (r: Reply)
    ensures r.db == db.(users := r.db.users, credits := r.db.credits, payouts := r.db.payouts,
                        payments := r.db.payments, cards := r.db.cards, txns := r.db.txns, cardTxns := r.db.cardTxns)
  {
    var plan := Read(db, op);
    if Writes(plan) && !dbOk then Refused(db, Unavailable) else Reply(Apply(db, plan), plan.error)
  }
}
