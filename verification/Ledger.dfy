/** Replaying the transactions table: what the log says the balance columns must be. */
module Ledger {
  import opened Wrappers
  import opened Database

  /** What one record does to its user's earnings.  A direct remittance bypasses the balance. */
  function EarningsDelta(t: Txn): int {
    match t.source
    case BalanceCredit(_) => t.amount
    case WidgetCredit(_) => t.amount
    case PayoutSettled(_) => -t.amount
    case EarningsToWallet => -t.amount
    case _ => 0
  }

  function WalletDelta(t: Txn): int {
    match t.source
    case WalletDeposit(_) => t.amount
    case EarningsToWallet => t.amount
    case CardFunding(_) => -t.amount
    case _ => 0
  }

  function EarningsOf(log: seq<Txn>, u: Id): int {
    if log == [] then 0
    else
      var t := log[|log| - 1];
      EarningsOf(log[..|log| - 1], u) + if t.user == u then EarningsDelta(t) else 0
  }

  function WalletOf(log: seq<Txn>, u: Id): int {
    if log == [] then 0
    else
      var t := log[|log| - 1];
      WalletOf(log[..|log| - 1], u) + if t.user == u then WalletDelta(t) else 0
  }

  /** The row a record stands for. */
  datatype Key = CreditKey(Id) | PayoutKey(Id) | PaymentKey(Id) | SessionKey(Id)

  function KeyOf(t: Txn): Option<Key> {
    match t.source
    case BalanceCredit(c) => Some(CreditKey(c))
    case DirectRemittance(c) => Some(CreditKey(c))
    case WidgetCredit(s) => Some(SessionKey(s))
    case PayoutSettled(p) => Some(PayoutKey(p))
    case WalletDeposit(r) => Some(PaymentKey(r))
    case _ => None
  }

  /** How many records reference a row. */
  function Refs(log: seq<Txn>, k: Key): nat {
    if log == [] then 0
    else Refs(log[..|log| - 1], k) + if KeyOf(log[|log| - 1]) == Some(k) then 1 else 0
  }

  lemma ReplayAppend(log: seq<Txn>, t: Txn)
    ensures forall u :: EarningsOf(log + [t], u) == EarningsOf(log, u) + if t.user == u then EarningsDelta(t) else 0
    ensures forall u :: WalletOf(log + [t], u) == WalletOf(log, u) + if t.user == u then WalletDelta(t) else 0
    ensures forall k :: Refs(log + [t], k) == Refs(log, k) + if KeyOf(t) == Some(k) then 1 else 0
  {
    assert (log + [t])[..|log|] == log;
  }

  /** A user with no record has replayed balances of 0. */
  lemma {:induction false} NothingRecorded(log: seq<Txn>, u: Id)
    requires forall i :: 0 <= i < |log| ==> log[i].user != u
    ensures EarningsOf(log, u) == 0 && WalletOf(log, u) == 0
  {
    if log == [] {
    } else {
      NothingRecorded(log[..|log| - 1], u);
    }
  }

  /** A row is referenced exactly when some record carries its key. */
  lemma {:induction false} ReferencedIff(log: seq<Txn>, k: Key)
    ensures Refs(log, k) > 0 <==> exists i :: 0 <= i < |log| && KeyOf(log[i]) == Some(k)
  {
    if log == [] {
    } else {
      var head := log[..|log| - 1];
      ReferencedIff(head, k);
      assert forall i :: 0 <= i < |head| ==> head[i] == log[i];
      if Refs(head, k) > 0 {
        var i :| 0 <= i < |head| && KeyOf(head[i]) == Some(k);
        assert KeyOf(log[i]) == Some(k);
      }
    }
  }

  /** At most one reference means at most one record carries the key. */
  lemma {:induction false} OneRecord(log: seq<Txn>, k: Key, i: nat, j: nat)
    requires i < |log| && j < |log| && KeyOf(log[i]) == Some(k) && KeyOf(log[j]) == Some(k)
    requires Refs(log, k) <= 1
    ensures i == j
  {
    var head, n := log[..|log| - 1], |log| - 1;
    ReferencedIff(head, k);
    assert forall x :: 0 <= x < n ==> head[x] == log[x];
    if i < n && j < n {
      OneRecord(head, k, i, j);
    }
  }
}
