/** src/cards: funding a card from the wallet. */
module CardsService {
  import opened Wrappers
  import opened Database
  import opened MoneyOps
  import opened Profiles
  import opened Cards
  import Store

  /** What funding leaves behind, from the card as it is held in memory. */
  ghost function Funded(db: Db, c: Id, u: Id, held: Card, amount: int, sudoBalance: Option<int>): Db
    requires u in db.users
  {
    var balance := if sudoBalance.Some? then sudoBalance.value else held.balance + amount;
    var t := Txn(u, CardFunding(c), amount, if held.naira then Some(amount) else None, None, TxnCompleted, db.clock);
    db.(users := db.users[u := db.users[u].(wallet := db.users[u].wallet - amount)],
        cards := db.cards[c := held.(balance := balance)],
        txns := db.txns + [t], cardTxns := db.cardTxns + [CardTxn(c, u, amount)])
  }

  /** That is the specified step from the synced card, whether or not the sync was saved. */
  lemma FundingIsSpecified(db: Db, c: Id, u: Id, saved: bool, sudo: Option<SudoCard>, amount: int,
                           sudoBalance: Option<int>)
    requires c in db.cards && db.cards[c].user == u && u in db.users && amount <= db.users[u].wallet
    ensures var synced := SyncedDb(db, c, u, sudo);
            Funded(if saved then synced else db, c, u, synced.cards[c], amount, sudoBalance)
            == Apply(synced, ReadFundCard(synced, c, u, amount, Sent, sudoBalance))
  {
    var synced := SyncedDb(db, c, u, sudo);
    var plan := ReadFundCard(synced, c, u, amount, Sent, sudoBalance);
    assert WriteCard(synced.cards, plan.row) == db.cards[c := synced.cards[c].(balance := plan.row.balance)];
  }

  /** The outcome of the specified step, by what it meets. */
  lemma FundingCases(db: Db, c: Id, u: Id, amount: int, settlement: Settlement, sudoBalance: Option<int>, dbOk: bool)
    ensures Perform(db, FundCard(c, u, amount, settlement, sudoBalance), dbOk)
            == if c !in db.cards || db.cards[c].user != u || u !in db.users then Refused(db, NotFound)
               else if db.users[u].wallet < amount || settlement == NotConfigured then Refused(db, BadRequest)
               else if settlement == TransferFailed || !dbOk then Refused(db, Unavailable)
               else Ok(Apply(db, ReadFundCard(db, c, u, amount, Sent, sudoBalance)))
  {
  }

  class CardsService {
    const db: Store.Store

    constructor (db: Store.Store)
      ensures this.db == db
    {
      this.db := db;
    }

    /**
     getCardById: finds the user's card and syncs it with what Sudo reports, if it answers.  The card
     returned is synced even when saving it fails.
     */
    method GetCardById(c: Id, u: Id, sudo: Option<SudoCard>, saved: bool) returns (card: Option<Card>)
      modifies db
      ensures card.Some? <==> c in old(db.cards) && old(db.cards)[c].user == u
      ensures card.Some? ==> card.value == if sudo.Some? then Synced(old(db.cards)[c], sudo.value) else old(db.cards)[c]
      ensures db.View() == if saved then SyncedDb(old(db.View()), c, u, sudo) else old(db.View())
    {
      if c !in db.cards || db.cards[c].user != u {
        return None;
      }
      var held := db.cards[c];
      if sudo.Some? {
        if sudo.value.balance.Some? {
          held := held.(balance := sudo.value.balance.value);
        }
        if sudo.value.number != "" && sudo.value.number != held.number {
          held := held.(number := sudo.value.number);
        }
        if saved {
          db.cards := db.cards[c := held];
        }
      }
      return Some(held);
    }

    /**
     The work inside the transaction: the wallet is debited, the external transfer made, the card, the
     record and the card record written; `fault` counts the local writes.
     */
    method TryFunding(c: Id, u: Id, held: Card, amount: int, settlement: Settlement, sudoBalance: Option<int>,
                      fault: nat)
      returns (ok: bool)
      requires u in db.users
      modifies db`users, db`cards, db`txns, db`cardTxns
      ensures ok <==> fault == 0 && settlement == Sent
      ensures ok ==> db.View() == Funded(old(db.View()), c, u, held, amount, sudoBalance)
    {
      if fault == 1 {
        return false;
      }
      db.users := db.users[u := db.users[u].(wallet := db.users[u].wallet - amount)];
      if settlement != Sent || fault == 2 {
        return false;
      }
      var balance := held.balance + amount;
      if sudoBalance.Some? {
        balance := sudoBalance.value;
      }
      db.cards := db.cards[c := held.(balance := balance)];
      if fault == 3 {
        return false;
      }
      var ngn := if held.naira then Some(amount) else None;
      db.txns := db.txns + [Txn(u, CardFunding(c), amount, ngn, None, TxnCompleted, db.clock)];
      if fault == 4 {
        return false;
      }
      db.cardTxns := db.cardTxns + [CardTxn(c, u, amount)];
      return fault == 0;
    }

    /** The transaction, rolled back when anything in it fails. */
    method MoveToCard(c: Id, u: Id, held: Card, amount: int, settlement: Settlement, sudoBalance: Option<int>,
                      fault: nat)
      returns (error: Option<Error>)
      requires u in db.users
      modifies db
      ensures if fault == 0 && settlement == Sent
              then error == None && db.View() == Funded(old(db.View()), c, u, held, amount, sudoBalance)
              else error == Some(Unavailable) && db.View() == old(db.View())
    {
      var before := db.View();
      var ok := TryFunding(c, u, held, amount, settlement, sudoBalance, fault);
      if ok {
        return None;
      }
      db.Rollback(before);
      return Some(Unavailable);
    }

    /** Success is the specified step from the synced card; whatever fails, only a saved sync remains. */
    method FundCardFromWallet(c: Id, u: Id, amount: int, sudo: Option<SudoCard>, saved: bool, settlement: Settlement,
                              sudoBalance: Option<int>, fault: nat)
      returns (error: Option<Error>)
      modifies db
      ensures var f := Funding(c, u, amount, sudo, saved, settlement, sudoBalance, fault == 0);
              Reply(db.View(), error) == Fund(old(db.View()), f)
    {
      var held := GetCardById(c, u, sudo, saved);
      FundingCases(SyncedDb(old(db.View()), c, u, sudo), c, u, amount, settlement, sudoBalance, fault == 0);
      if held.None? || u !in db.users {
        return Some(NotFound);
      }
      if db.users[u].wallet < amount || settlement == NotConfigured {
        return Some(BadRequest);
      }
      FundingIsSpecified(old(db.View()), c, u, saved, sudo, amount, sudoBalance);
      error := MoveToCard(c, u, held.value, amount, settlement, sudoBalance, fault);
    }
  }
}
