/** Bank accounts: adding, verifying, choosing the primary one, deleting, and choosing one for a payout. */
module Accounts {
  import opened Wrappers
  import opened Database

  predicate OwnedBy(banks: map<Id, BankAccount>, u: Id, b: Id) {
    b in banks && banks[b].user == u
  }

  predicate VerifiedOf(banks: map<Id, BankAccount>, u: Id, b: Id) {
    OwnedBy(banks, u, b) && banks[b].verified
  }

  predicate PrimaryOf(banks: map<Id, BankAccount>, u: Id, b: Id) {
    VerifiedOf(banks, u, b) && banks[b].primary
  }

  /** What the lookup by (user, number, bank code) may return. */
  ghost predicate IsLookup(banks: map<Id, BankAccount>, u: Id, d: BankDetails, found: Option<Id>) {
    match found
    case Some(b) => OwnedBy(banks, u, b) && banks[b].details == d
    case None => forall b :: OwnedBy(banks, u, b) ==> banks[b].details != d
  }

  function Reissue(banks: map<Id, BankAccount>, b: Id, otp: Otp): map<Id, BankAccount>
    requires b in banks
  {
    banks[b := banks[b].(verified := false, otp := Some(otp))]
  }

  /** The answer after the row is written: an error if what follows the write fails. */
  function Written(db: Db, ok: bool): Reply {
    if ok then Ok(db) else Refused(db, Unavailable)
  }

  /** addBankAccount: the code is mailed after the row is written, and nothing undoes the write. */
  function AddBank(db: Db, u: Id, d: BankDetails, found: Option<Id>, id: Id, otp: Otp, mailOk: bool): (r: Reply)
    requires IsLookup(db.banks, u, d, found)
    ensures r.db == db.(banks := r.db.banks)
    ensures r.error.Some? && mailOk ==> r.db == db
  {
    if u !in db.users then Refused(db, NotFound)
    else if found.Some? && db.banks[found.value].verified then Refused(db, BadRequest)
    else if found.Some? then Written(db.(banks := Reissue(db.banks, found.value, otp)), mailOk)
    else if id in db.banks then Refused(db, Unavailable)
    else Written(db.(banks := db.banks[id := BankAccount(u, d, false, false, Some(otp), db.clock)]), mailOk)
  }

  function VerifiedSet(banks: map<Id, BankAccount>, u: Id): set<Id> {
    set b | b in banks && VerifiedOf(banks, u, b)
  }

  function VerifiedCount(banks: map<Id, BankAccount>, u: Id): nat {
    |VerifiedSet(banks, u)|
  }

  function MarkVerified(banks: map<Id, BankAccount>, b: Id): map<Id, BankAccount>
    requires b in banks
  {
    banks[b := banks[b].(verified := true, otp := None)]
  }

  /** verifyBankAccount: the row is reloaded after the commit, and a failure there is an error too. */
  function VerifyBank(db: Db, u: Id, b: Id, code: int, dbOk: bool, reloadOk: bool): (r: Reply)
    ensures r.db == db.(banks := r.db.banks)
    ensures r.error.Some? && reloadOk ==> r.db == db
  {
    if !OwnedBy(db.banks, u, b) then Refused(db, NotFound)
    else if db.banks[b].verified then Refused(db, BadRequest)
    else if db.banks[b].otp.None? || db.banks[b].otp.value.code != code then Refused(db, BadRequest)
    else if db.clock > db.banks[b].otp.value.expires then Refused(db, BadRequest)
    else if !dbOk then Refused(db, Unavailable)
    else
      var banks := MarkVerified(db.banks, b);
      var counted := if VerifiedCount(banks, u) == 0 then banks[b := banks[b].(primary := true)] else banks;
      Written(db.(banks := counted), reloadOk)
  }

  /** The first UPDATE of setPrimaryBankAccount. */
  function ClearPrimary(banks: map<Id, BankAccount>, u: Id): map<Id, BankAccount> {
    map b | b in banks :: if banks[b].user == u then banks[b].(primary := false) else banks[b]
  }

  function SetPrimary(db: Db, u: Id, b: Id, dbOk: bool): (r: Reply)
    ensures r.db == db.(banks := r.db.banks)
    ensures r.error.Some? ==> r.db == db
  {
    if !OwnedBy(db.banks, u, b) then Refused(db, NotFound)
    else if !db.banks[b].verified then Refused(db, BadRequest)
    else if !dbOk then Refused(db, Unavailable)
    else
      var banks := ClearPrimary(db.banks, u);
      Ok(db.(banks := banks[b := banks[b].(primary := true)]))
  }

  function DeleteBank(db: Db, u: Id, b: Id): (r: Reply)
    ensures r.db == db.(banks := r.db.banks)
    ensures r.error.Some? ==> r.db == db
  {
    if !OwnedBy(db.banks, u, b) then Refused(db, NotFound)
    else if db.banks[b].primary then Refused(db, BadRequest)
    else Ok(db.(banks := db.banks - {b}))
  }

  /** What the payout's bank-account query may return: the one asked for, else a primary, else the newest. */
  ghost predicate IsChoice(banks: map<Id, BankAccount>, u: Id, asked: Option<Id>, choice: Option<Id>) {
    if asked.Some? then choice == if VerifiedOf(banks, u, asked.value) then asked else None
    else match choice
         case Some(b) =>
           && VerifiedOf(banks, u, b)
           && (PrimaryOf(banks, u, b) ||
               forall c :: VerifiedOf(banks, u, c) ==> !banks[c].primary && banks[c].createdAt <= banks[b].createdAt)
         case None => forall b :: b in banks ==> !VerifiedOf(banks, u, b)
  }

  // ---------- As one handler ----------

  datatype BankOp =
    | AddBankAccount(user: Id, details: BankDetails, found: Option<Id>, id: Id, otp: Otp, mailOk: bool)
    | VerifyBankAccount(user: Id, bank: Id, code: int, dbOk: bool, reloadOk: bool)
    | SetPrimaryBankAccount(user: Id, bank: Id, dbOk: bool)
    | DeleteBankAccount(user: Id, bank: Id)

  /** What the surroundings guarantee of the operation. */
  ghost predicate AllowedBank(db: Db, op: BankOp) {
    op.AddBankAccount? ==> IsLookup(db.banks, op.user, op.details, op.found)
  }

  function HandleBank(db: Db, op: BankOp): (r: Reply)
    requires AllowedBank(db, op)
    ensures r.db == db.(banks := r.db.banks)
  {
    match op
    case AddBankAccount(u, d, found, id, otp, mailOk) => AddBank(db, u, d, found, id, otp, mailOk)
    case VerifyBankAccount(u, b, code, dbOk, reloadOk) => VerifyBank(db, u, b, code, dbOk, reloadOk)
    case SetPrimaryBankAccount(u, b, dbOk) => SetPrimary(db, u, b, dbOk)
    case DeleteBankAccount(u, b) => DeleteBank(db, u, b)
  }
}
