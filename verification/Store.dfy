/** The database the services share: one mutable field per table. */
module Store {
  import opened Money
  import opened Database

  class Store {
    var clock: int
    var settings: Settings
    var users: map<Id, User>
    var credits: map<Id, CreditRequest>
    var payouts: map<Id, Payout>
    var payments: map<Id, Payment>
    var onboardings: map<Id, OnboardingRequest>
    var banks: map<Id, BankAccount>
    var cards: map<Id, Card>
    var sessions: map<Id, Session>
    var txns: seq<Txn>
    var cardTxns: seq<CardTxn>

    /** The tables as a value. */
    function View(): Db
      reads this
    {
      Db(clock, settings, users, credits, payouts, payments, onboardings, banks, cards, sessions, txns, cardTxns)
    }

    constructor (clock: int, settings: Settings)
      ensures View() == EmptyDb(clock, settings)
    {
      this.clock, this.settings := clock, settings;
      users, credits, payouts, payments, onboardings := map[], map[], map[], map[], map[];
      banks, cards, sessions := map[], map[], map[];
      txns, cardTxns := [], [];
    }

    /** Rolling a database transaction back: no transaction of the services writes settings or sessions. */
    method Rollback(before: Db)
      modifies `users, `credits, `payouts, `payments, `onboardings, `banks, `cards, `txns, `cardTxns
      ensures View() == before.(clock := clock, settings := settings, sessions := sessions)
    {
      users, credits, payouts, payments := before.users, before.credits, before.payouts, before.payments;
      onboardings, banks, cards := before.onboardings, before.banks, before.cards;
      txns, cardTxns := before.txns, before.cardTxns;
    }
  }
}
