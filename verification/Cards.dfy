/** Funding a card as a request: getCardById syncs the row with Sudo, and then the money is moved. */
module Cards {
  import opened Wrappers
  import opened Database
  import opened MoneyOps
  import opened Profiles

  /** The database with the user's card synced with what Sudo reports of it. */
  function SyncedDb(db: Db, c: Id, u: Id, sudo: Option<SudoCard>): (r: Db)
    ensures r == db.(cards := r.cards)
    ensures c in db.cards && db.cards[c].user == u && sudo.Some? ==>
              r == HandleProfile(db, SyncCard(c, sudo.value)).db
  {
    if c in db.cards && db.cards[c].user == u && sudo.Some?
    then db.(cards := db.cards[c := Synced(db.cards[c], sudo.value)]) else db
  }

  /** A funding request: what Sudo reports of the card, whether saving that succeeds, and how the transfer goes. */
  datatype Funding = Funding(card: Id, user: Id, amount: int, sudo: Option<SudoCard>, saved: bool,
                             settlement: Settlement, sudoBalance: Option<int>, dbOk: bool)

  function ReadySync(db: Db, f: Funding): Db {
    SyncedDb(db, f.card, f.user, f.sudo)
  }

  /** Funding from the synced card, saved or not. */
  function Transfer(db: Db, f: Funding): Reply {
    Perform(ReadySync(db, f), FundCard(f.card, f.user, f.amount, f.settlement, f.sudoBalance), f.dbOk)
  }

  /** fundCardFromWallet: if anything fails, the sync remains if it was saved. */
  function Fund(db: Db, f: Funding): (r: Reply)
    ensures r.db == db.(users := r.db.users, cards := r.db.cards, txns := r.db.txns, cardTxns := r.db.cardTxns)
    ensures r.error.Some? ==> r.db == if f.saved then ReadySync(db, f) else db
  {
    var r := Transfer(db, f);
    if r.error.None? then r else Reply(if f.saved then ReadySync(db, f) else db, r.error)
  }
}
