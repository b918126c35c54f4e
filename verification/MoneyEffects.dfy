/**
 What each money operation does, said of the tables alone: when it succeeds, which rows it then leaves
 in which state and what it records; and that otherwise nothing changes.
 */
module MoneyEffects {
  import opened Wrappers
  import opened Money
  import opened Database
  import opened MoneyOps
  import opened Profiles
  import opened Cards

  /**
   approveCreditRequest.  BALANCE adds the amount to the earnings of the request's user; DIRECT leaves all
   users alone and needs a verified primary account.  The amount is the one given, if any and not 0.
   */
  lemma ApprovingCredit(db: Db, c: Id, override: Option<int>, how: CreditMethod, dbOk: bool)
    ensures var r := Perform(db, ApproveCredit(c, override, how), dbOk);
            var ok := && c in db.credits && db.credits[c].status == Pending && db.credits[c].user in db.users
                      && (how == Direct ==> exists b :: b in db.banks && db.banks[b].user == db.credits[c].user
                                                        && db.banks[b].verified && db.banks[b].primary)
                      && dbOk;
            && (r.error.None? <==> ok)
            && (!ok ==> r.db == db)
            && (ok ==>
                  var u := db.credits[c].user;
                  var amount := if override.Some? && override.value != 0 then override.value else db.credits[c].amount;
                  var row := db.credits[c].(status := Completed);
                  match how
                  case Balance =>
                    r.db == db.(credits := db.credits[c := row],
                                users := db.users[u := db.users[u].(earnings := db.users[u].earnings + amount)],
                                txns := db.txns
                                        + [Txn(u, BalanceCredit(c), amount, None, None, TxnCompleted, db.clock)])
                  case Direct =>
                    r.db == db.(credits := db.credits[c := row],
                                txns := db.txns
                                        + [Txn(u, DirectRemittance(c), amount, None, None, TxnCompleted, db.clock)]))
  {
  }

  /** rejectCreditRequest */
  lemma RejectingCredit(db: Db, c: Id, dbOk: bool)
    ensures var r := Perform(db, RejectCredit(c), dbOk);
            var ok := && c in db.credits && db.credits[c].status == Pending && db.credits[c].user in db.users && dbOk;
            && (r.error.None? <==> ok)
            && r.db == if ok then db.(credits := db.credits[c := db.credits[c].(status := Rejected)]) else db
  {
  }

  /** rejectPayout */
  lemma RejectingPayout(db: Db, p: Id, dbOk: bool)
    ensures var r := Perform(db, RejectPayout(p), dbOk);
            var ok := && p in db.payouts && db.payouts[p].status == Pending && dbOk;
            && (r.error.None? <==> ok)
            && r.db == if ok then db.(payouts := db.payouts[p := db.payouts[p].(status := Rejected)]) else db
  {
  }

  /** The payout is pending and its user is there and can pay for it. */
  predicate Payable(db: Db, p: Id) {
    && p in db.payouts && db.payouts[p].status == Pending && db.payouts[p].user in db.users
    && db.payouts[p].quote.amount <= db.users[db.payouts[p].user].earnings
  }

  /** The rate is the stored NGN over the stored USD, to the nearest fourth decimal. */
  predicate IsRate(q: Quote, rate: Option<int>) {
    q.amount > 0 ==>
      && rate.Some?
      && 20_000 * q.ngn - q.amount < 2 * q.amount * rate.value <= 20_000 * q.ngn + q.amount
  }

  /** The payout is completed, its amount is taken from the user's earnings, and its figures are recorded. */
  predicate PaidOut(db: Db, p: Id, after: Db)
    requires Payable(db, p)
  {
    var u, q := db.payouts[p].user, db.payouts[p].quote;
    && |after.txns| == |db.txns| + 1 && after.txns[|db.txns|].finance.Some?
    && var rate := after.txns[|db.txns|].finance.value.rate;
       && IsRate(q, rate)
       && after == db.(payouts := db.payouts[p := db.payouts[p].(status := Completed)],
                       users := db.users[u := db.users[u].(earnings := db.users[u].earnings - q.amount)],
                       txns := db.txns + [Txn(u, PayoutSettled(p), q.amount, Some(q.ngn),
                                              Some(Finance(q.ngn, rate, q.fee, q.net)), TxnCompleted, db.clock)])
  }

  lemma RateIsNearest(q: Quote)
    ensures IsRate(q, RecoveredRate(q))
  {
  }

  lemma SettlingPays(db: Db, p: Id, op: MoneyOp, dbOk: bool)
    requires Payable(db, p) && Read(db, op) == Settle(db, p)
    ensures var r := Perform(db, op, dbOk);
            && (r.error.None? <==> dbOk)
            && (if dbOk then PaidOut(db, p, r.db) else r.db == db)
  {
    RateIsNearest(db.payouts[p].quote);
  }

  lemma RefusingStays(db: Db, op: MoneyOp, dbOk: bool)
    requires Read(db, op).error.Some? && !Writes(Read(db, op))
    ensures Perform(db, op, dbOk).error.Some? && Perform(db, op, dbOk).db == db
  {
  }

  /** The bank details name an account. */
  predicate Payee(db: Db, p: Id)
    requires p in db.payouts
  {
    db.payouts[p].bank.number != "" && db.payouts[p].bank.code != ""
  }

  /** processPayout: only a transfer that was sent completes the payout. */
  lemma ProcessingPayout(db: Db, p: Id, settlement: Settlement, dbOk: bool)
    ensures var r := Perform(db, ProcessPayout(p, settlement), dbOk);
            var ok := Payable(db, p) && Payee(db, p) && settlement == Sent && dbOk;
            && (r.error.None? <==> ok)
            && (if ok then PaidOut(db, p, r.db) else r.db == db)
  {
    if Payable(db, p) && Payee(db, p) && settlement == Sent {
      SettlingPays(db, p, ProcessPayout(p, settlement), dbOk);
    } else {
      RefusingStays(db, ProcessPayout(p, settlement), dbOk);
    }
  }

  /** completeManualPayout */
  lemma CompletingPayout(db: Db, p: Id, dbOk: bool)
    ensures var r := Perform(db, CompleteManualPayout(p), dbOk);
            var ok := Payable(db, p) && dbOk;
            && (r.error.None? <==> ok)
            && (if ok then PaidOut(db, p, r.db) else r.db == db)
  {
    if Payable(db, p) {
      SettlingPays(db, p, CompleteManualPayout(p), dbOk);
    } else {
      RefusingStays(db, CompleteManualPayout(p), dbOk);
    }
  }

  /**
   verifyPayment.  A payment that is SUCCESS stays as it is; a declined one is marked FAILED; a paid one is
   marked SUCCESS and the user's wallet is credited with the kobo Paystack reports.
   */
  lemma VerifyingPayment(db: Db, r: Id, answer: PaystackAnswer, dbOk: bool)
    ensures var reply := Perform(db, VerifyPayment(r, answer), dbOk);
            var open := r in db.payments && db.payments[r].status != Success;
            var paid := open && answer.Paid? && db.payments[r].user in db.users && dbOk;
            && (reply.error.None? <==> paid || (r in db.payments && !open))
            && (paid ==>
                  var u := db.payments[r].user;
                  reply.db == db.(payments := db.payments[r := db.payments[r].(status := Success)],
                                  users := db.users[u := db.users[u].(wallet := db.users[u].wallet + answer.kobo)],
                                  txns := db.txns + [Txn(u, WalletDeposit(r), answer.kobo, Some(answer.kobo), None,
                                                         TxnCompleted, db.clock)]))
            && (!paid ==>
                  reply.db == if open && answer == Declined && dbOk
                              then db.(payments := db.payments[r := db.payments[r].(status := Failed)]) else db)
  {
  }

  /** transferEarningsToWallet: what leaves the earnings enters the wallet. */
  lemma TransferringEarnings(db: Db, u: Id, amount: int, dbOk: bool)
    ensures var r := Perform(db, TransferEarnings(u, amount), dbOk);
            var ok := u in db.users && amount <= db.users[u].earnings && dbOk;
            && (r.error.None? <==> ok)
            && (!ok ==> r.db == db)
            && (ok ==>
                  var row := db.users[u].(earnings := db.users[u].earnings - amount,
                                          wallet := db.users[u].wallet + amount);
                  r.db == db.(users := db.users[u := row],
                              txns := db.txns
                                      + [Txn(u, EarningsToWallet, amount, Some(amount), None, TxnCompleted, db.clock)]))
  {
  }

  /** The card with the balance and number Sudo reports, where it reports them. */
  function Reported(card: Card, sudo: Option<SudoCard>): Card {
    Card(card.user,
         if sudo.Some? && sudo.value.balance.Some? then sudo.value.balance.value else card.balance,
         card.naira,
         if sudo.Some? && sudo.value.number != "" then sudo.value.number else card.number)
  }

  lemma SyncIsReported(db: Db, f: Funding)
    ensures ReadySync(db, f)
            == if f.card in db.cards && db.cards[f.card].user == f.user
               then db.(cards := db.cards[f.card := Reported(db.cards[f.card], f.sudo)]) else db
  {
    if f.card in db.cards && f.sudo.None? {
      assert db.cards[f.card := db.cards[f.card]] == db.cards;
    }
  }

  /**
   fundCardFromWallet: the wallet pays, and the card has the balance Sudo reports after the transfer, or
   else the amount more than it had.
   */
  lemma FundingCard(db: Db, f: Funding)
    ensures var r := Fund(db, f);
            var own := f.card in db.cards && db.cards[f.card].user == f.user;
            var ok := && own && f.user in db.users && f.amount <= db.users[f.user].wallet
                      && f.settlement == Sent && f.dbOk;
            && (r.error.None? <==> ok)
            && (!ok ==>
                  r.db == if own && f.saved
                          then db.(cards := db.cards[f.card := Reported(db.cards[f.card], f.sudo)]) else db)
            && (ok ==>
                  var card := Reported(db.cards[f.card], f.sudo);
                  var balance := if f.sudoBalance.Some? then f.sudoBalance.value else card.balance + f.amount;
                  var user := db.users[f.user].(wallet := db.users[f.user].wallet - f.amount);
                  var ngn := if card.naira then Some(f.amount) else None;
                  r.db == db.(users := db.users[f.user := user],
                              cards := db.cards[f.card := card.(balance := balance)],
                              txns := db.txns + [Txn(f.user, CardFunding(f.card), f.amount, ngn, None,
                                                     TxnCompleted, db.clock)],
                              cardTxns := db.cardTxns + [CardTxn(f.card, f.user, f.amount)]))
  {
    SyncIsReported(db, f);
  }

  /** completeDeposit's transaction */
  lemma DepositingFromWidget(db: Db, s: Id, u: Id, amount: int, dbOk: bool)
    ensures var r := Perform(db, WidgetDeposit(s, u, amount), dbOk);
            var ok := u in db.users && dbOk;
            && (r.error.None? <==> ok)
            && (!ok ==> r.db == db)
            && (ok ==>
                  r.db == db.(users := db.users[u := db.users[u].(earnings := db.users[u].earnings + amount)],
                              txns := db.txns + [Txn(u, WidgetCredit(s), amount, None, None, TxnCompleted, db.clock)]))
  {
  }

  /** What the requests on users, settings and cards write. */
  lemma EditingProfiles(db: Db, op: ProfileOp)
    requires AllowedProfile(op)
    ensures var r := HandleProfile(db, op);
            match op
            case Signup(u) =>
              && (r.error.None? <==> u !in db.users)
              && (r.error.None? ==> r.db == db.(users := db.users[u := User(0, 0, false, false, false)]))
            case EditProfile(u, tiktok, needsEmail) =>
              && (r.error.None? <==> u in db.users)
              && (r.error.None? ==>
                    var was := db.users[u];
                    var row := User(was.earnings, was.wallet, was.onboarded, tiktok, needsEmail);
                    r.db == db.(users := db.users[u := row]))
            case UpdateFinancialSettings(s) => r == Ok(db.(settings := s))
            case CreateCard(c, u, naira, number) =>
              && (r.error.None? <==> c !in db.cards && u in db.users)
              && (r.error.None? ==> r.db == db.(cards := db.cards[c := Card(u, 0, naira, number)]))
            case SyncCard(c, reported) =>
              && (r.error.None? <==> c in db.cards)
              && (r.error.None? ==> r.db == db.(cards := db.cards[c := Reported(db.cards[c], Some(reported))]))
  {
  }
}
