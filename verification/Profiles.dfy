/** Users, their profile gates, the financial settings, and cards: what the money operations read. */
module Profiles {
  import opened Wrappers
  import opened Money
  import opened Database

  /** What Sudo reports of a card; a missing card number is "". */
  datatype SudoCard = SudoCard(balance: Option<int>, number: string)

  /** The card row with what Sudo reports of it. */
  function Synced(card: Card, reported: SudoCard): Card {
    card.(balance := if reported.balance.Some? then reported.balance.value else card.balance,
          number := if reported.number != "" then reported.number else card.number)
  }

  datatype ProfileOp =
    | Signup(user: Id)
    | EditProfile(user: Id, tiktok: bool, needsEmail: bool)
    | UpdateFinancialSettings(settings: Settings)
    | CreateCard(card: Id, user: Id, naira: bool, number: string)
    | SyncCard(card: Id, reported: SudoCard)

  ghost predicate AllowedProfile(op: ProfileOp) {
    op.UpdateFinancialSettings? ==> ValidSettings(op.settings)
  }

  /** A new user has both balances at 0; the sync of getCardById may set any card balance and number. */
  function HandleProfile(db: Db, op: ProfileOp): (r: Reply)
    requires AllowedProfile(op)
    ensures r.db == db.(users := r.db.users, settings := r.db.settings, cards := r.db.cards)
    ensures r.error.Some? ==> r.db == db
  {
    match op
    case Signup(u) =>
      if u in db.users then Refused(db, Conflict)
      else Ok(db.(users := db.users[u := User(0, 0, false, false, false)]))
    case EditProfile(u, tiktok, needsEmail) =>
      if u !in db.users then Refused(db, NotFound)
      else Ok(db.(users := db.users[u := db.users[u].(tiktok := tiktok, needsEmail := needsEmail)]))
    case UpdateFinancialSettings(s) => Ok(db.(settings := s))
    case CreateCard(c, u, naira, number) =>
      if c in db.cards || u !in db.users then Refused(db, Unavailable)
      else Ok(db.(cards := db.cards[c := Card(u, 0, naira, number)]))
    case SyncCard(c, reported) =>
      if c !in db.cards then Refused(db, NotFound)
      else Ok(db.(cards := db.cards[c := Synced(db.cards[c], reported)]))
  }
}
