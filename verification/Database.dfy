/**
 The tables as one value.  Amounts are hundredths of the column's currency, times are milliseconds.
 Identifiers are UUIDs in the source; here they are numbers, and inserting a row under an
 identifier that is taken fails, as a primary key does.
 */
module Database {
  import opened Wrappers
  import opened Money

  type Id = nat

  /** tiktok and needsEmail are the two profile gates on onboarding requests. */
  datatype User = User(earnings: int, wallet: int, onboarded: bool, tiktok: bool, needsEmail: bool)

  datatype RequestStatus = Pending | Completed | Rejected

  /** A credit request; Completed is the source's APPROVED. */
  datatype CreditRequest = CreditRequest(user: Id, amount: int, status: RequestStatus)

  datatype BankDetails = BankDetails(number: string, code: string)

  /**
   A payout.  `quotedUnder` and `session` are tags of the model, not columns: the settings in force
   when the row was inserted and the widget session that inserted it, if one did.
   */
  datatype Payout = Payout(user: Id, quote: Quote, bank: BankDetails, status: RequestStatus,
                           quotedUnder: Settings, session: Option<Id>)

  datatype PaymentStatus = Awaiting | Success | Failed

  /** A Paystack payment, keyed by its unique reference. */
  datatype Payment = Payment(user: Id, amount: int, status: PaymentStatus)

  datatype OnboardingRequest = OnboardingRequest(user: Id, open: bool, submittedAt: int)

  datatype Otp = Otp(code: int, expires: int)

  datatype BankAccount = BankAccount(user: Id, details: BankDetails, verified: bool, primary: bool,
                                     otp: Option<Otp>, createdAt: int)

  /** A card.  The number is the masked one. */
  datatype Card = Card(user: Id, balance: int, naira: bool, number: string)

  datatype CardTxn = CardTxn(card: Id, user: Id, amount: int)

  /**
   What a row of the transactions table records.  It fixes the row's type and reference column; the
   three kinds of CREDIT differ only in the description text.
   */
  datatype Source =
    | BalanceCredit(credit: Id)
    | DirectRemittance(credit: Id)
    | WidgetCredit(session: Id)
    | PayoutSettled(payout: Id)
    | WalletDeposit(payment: Id)
    | EarningsToWallet
    | CardFunding(card: Id)

  datatype TxnStatus = TxnCompleted | TxnPending | TxnRejected

  /** The finance columns, set on payout transactions: NGN, rate (four decimals), fee, net. */
  datatype Finance = Finance(ngn: int, rate: Option<int>, fee: int, net: int)

  datatype Txn = Txn(user: Id, source: Source, amount: int, ngn: Option<int>, finance: Option<Finance>,
                     status: TxnStatus, date: int)

  datatype Trigger = ForOnboarding | ForWithdrawal | ForDeposit

  datatype WidgetStep =
    | RequestCredentials | WaitingForAdmin | TiktokSetupInstructions | ConfirmSetup | PendingVerification
    | CollectingAmount | CollectingProof | ConfirmingPaypal | PendingAdmin | Processing
    | EnterAuthCode | StepCompleted | StepError

  datatype SessionStatus = Active | Finished | Abandoned

  /** A widget session.  Of the data a step submits only its `amount` field is kept. */
  datatype Session = Session(user: Id, trigger: Trigger, step: WidgetStep, done: seq<WidgetStep>,
                             data: map<WidgetStep, Option<int>>, status: SessionStatus, lastActivity: int)

  datatype Db = Db(
    clock: int,
    settings: Settings,
    users: map<Id, User>,
    credits: map<Id, CreditRequest>,
    payouts: map<Id, Payout>,
    payments: map<Id, Payment>,
    onboardings: map<Id, OnboardingRequest>,
    banks: map<Id, BankAccount>,
    cards: map<Id, Card>,
    sessions: map<Id, Session>,
    txns: seq<Txn>,
    cardTxns: seq<CardTxn>)

  function EmptyDb(clock: int, settings: Settings): Db {
    Db(clock, settings, map[], map[], map[], map[], map[], map[], map[], map[], [], [])
  }

  datatype Error = NotFound | BadRequest | Forbidden | Conflict | Unavailable

  /** What a request leaves behind: the database and, if it threw, the error. */
  datatype Reply = Reply(db: Db, error: Option<Error>)

  function Refused(db: Db, e: Error): Reply {
    Reply(db, Some(e))
  }

  function Ok(db: Db): Reply {
    Reply(db, None)
  }
}
