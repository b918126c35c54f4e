/**
 The recent activities of the dashboard: the newest five credit requests, five payouts and ten
 transactions, merged, sorted and cut to ten.  Rows come in any order; both the queries and the
 merge sort newest first and keep the given order among equal dates, so any order the database
 gives to equal dates is covered by some order of the rows.
 */
module Dashboard {

  datatype Kind = CreditRequestActivity | PayoutActivity | TransactionActivity

  datatype Activity = Activity(kind: Kind, id: nat, date: int)

  function Min(a: int, b: int): int {
    if a <= b then a else b
  }

  function Insert(x: Activity, s: seq<Activity>): seq<Activity> {
    if s == [] || x.date >= s[0].date then [x] + s else [s[0]] + Insert(x, s[1..])
  }

  function Sort(s: seq<Activity>): seq<Activity> {
    if s == [] then [] else Insert(s[0], Sort(s[1..]))
  }

  function Take(s: seq<Activity>, k: nat): seq<Activity> {
    if |s| <= k then s else s[..k]
  }

  /** ORDER BY date DESC LIMIT k */
  function Newest(s: seq<Activity>, k: nat): seq<Activity> {
    Take(Sort(s), k)
  }

  function Fetched(credits: seq<Activity>, payouts: seq<Activity>, txns: seq<Activity>): seq<Activity> {
    Newest(credits, 5) + Newest(payouts, 5) + Newest(txns, 10)
  }

  function Shown(credits: seq<Activity>, payouts: seq<Activity>, txns: seq<Activity>): seq<Activity> {
    Newest(Fetched(credits, payouts, txns), 10)
  }

  // ---------- Counting ----------

  /** How many entries of the given kinds are dated d or later. */
  function Since(s: seq<Activity>, kinds: set<Kind>, d: int): nat {
    if s == [] then 0
    else (if s[0].kind in kinds && s[0].date >= d then 1 else 0) + Since(s[1..], kinds, d)
  }

  const ANY := {CreditRequestActivity, PayoutActivity, TransactionActivity}

  lemma AnyKind(kind: Kind)
    ensures kind in ANY
  {
    match kind
    case CreditRequestActivity =>
    case PayoutActivity =>
    case TransactionActivity =>
  }

  predicate Sorted(s: seq<Activity>) {
    forall i, j :: 0 <= i < j < |s| ==> s[i].date >= s[j].date
  }

  lemma {:induction false} InsertCounts(x: Activity, s: seq<Activity>, kinds: set<Kind>, d: int)
    ensures Since(Insert(x, s), kinds, d) == Since(s, kinds, d) + if x.kind in kinds && x.date >= d then 1 else 0
    ensures |Insert(x, s)| == |s| + 1 && multiset(Insert(x, s)) == multiset(s) + multiset{x}
  {
    if s == [] || x.date >= s[0].date {
      assert ([x] + s)[1..] == s;
    } else {
      InsertCounts(x, s[1..], kinds, d);
      assert s == [s[0]] + s[1..];
      assert ([s[0]] + Insert(x, s[1..]))[1..] == Insert(x, s[1..]);
    }
  }

  lemma {:induction false} InsertSorts(x: Activity, s: seq<Activity>)
    requires Sorted(s)
    ensures Sorted(Insert(x, s))
  {
    if s == [] || x.date >= s[0].date {
    } else {
      InsertSorts(x, s[1..]);
      InsertCounts(x, s[1..], ANY, 0);
      forall y | y in Insert(x, s[1..])
        ensures y.date <= s[0].date
      {
        assert y in multiset(s[1..]) + multiset{x};
      }
    }
  }

  lemma {:induction false} SortCounts(s: seq<Activity>, kinds: set<Kind>, d: int)
    ensures Since(Sort(s), kinds, d) == Since(s, kinds, d)
    ensures |Sort(s)| == |s| && multiset(Sort(s)) == multiset(s) && Sorted(Sort(s))
  {
    if s == [] {
    } else {
      SortCounts(s[1..], kinds, d);
      InsertCounts(s[0], Sort(s[1..]), kinds, d);
      InsertSorts(s[0], Sort(s[1..]));
      assert s == [s[0]] + s[1..];
    }
  }

  lemma {:induction false} SinceAppend(s: seq<Activity>, t: seq<Activity>, kinds: set<Kind>, d: int)
    ensures Since(s + t, kinds, d) == Since(s, kinds, d) + Since(t, kinds, d)
  {
    if s == [] {
      assert s + t == t;
    } else {
      assert (s + t)[1..] == s[1..] + t;
      SinceAppend(s[1..], t, kinds, d);
    }
  }

  /** In a sorted list the entries since d come first. */
  lemma {:induction false} SinceSorted(s: seq<Activity>, d: int)
    requires Sorted(s)
    ensures Since(s, ANY, d) <= |s|
    ensures forall i :: 0 <= i < |s| ==> (s[i].date >= d <==> i < Since(s, ANY, d))
  {
    if s == [] {
    } else {
      SinceSorted(s[1..], d);
      assert s[0].kind in ANY by { AnyKind(s[0].kind); }
      assert forall i :: 1 <= i < |s| ==> s[i] == s[1..][i - 1] && s[i].date <= s[0].date;
      assert s[0].date < d ==> Since(s[1..], ANY, d) == 0;
    }
  }

  lemma TakeSorted(s: seq<Activity>, k: nat, d: int)
    requires Sorted(s)
    ensures Sorted(Take(s, k)) && Since(Take(s, k), ANY, d) == Min(k, Since(s, ANY, d))
  {
    var t := Take(s, k);
    SinceSorted(s, d);
    SinceSorted(t, d);
    assert forall i :: 0 <= i < |t| ==> t[i] == s[i];
    var n, m := Since(t, ANY, d), Since(s, ANY, d);
    if n < |t| {
      assert t[n] == s[n];
    }
    if m < |t| {
      assert t[m] == s[m];
    }
  }

  /** A query for the newest k holds min(k, n) of the n rows dated d or later. */
  lemma NewestCounts(s: seq<Activity>, k: nat, d: int)
    ensures Sorted(Newest(s, k)) && |Newest(s, k)| == Min(k, |s|)
    ensures Since(Newest(s, k), ANY, d) == Min(k, Since(s, ANY, d))
  {
    SortCounts(s, ANY, d);
    TakeSorted(Sort(s), k, d);
  }

  /** A row dated d is fetched if no more than k rows are dated d or later. */
  lemma NewestHolds(s: seq<Activity>, k: nat, x: Activity)
    requires x in s && Since(s, ANY, x.date) <= k
    ensures x in Newest(s, k)
  {
    SortCounts(s, ANY, x.date);
    SinceSorted(Sort(s), x.date);
    assert x in multiset(Sort(s));
    var i :| 0 <= i < |Sort(s)| && Sort(s)[i] == x;
    assert Newest(s, k)[i] == x;
  }

  lemma {:induction false} SinceIsBounded(s: seq<Activity>, kinds: set<Kind>, d: int)
    ensures Since(s, kinds, d) <= Since(s, ANY, d) <= |s|
  {
    if s == [] {
    } else {
      AnyKind(s[0].kind);
      SinceIsBounded(s[1..], kinds, d);
    }
  }

  lemma FetchedCounts(credits: seq<Activity>, payouts: seq<Activity>, txns: seq<Activity>, d: int)
    ensures Since(Fetched(credits, payouts, txns), ANY, d)
            == Min(5, Since(credits, ANY, d)) + Min(5, Since(payouts, ANY, d)) + Min(10, Since(txns, ANY, d))
  {
    NewestCounts(credits, 5, d);
    NewestCounts(payouts, 5, d);
    NewestCounts(txns, 10, d);
    SinceAppend(Newest(credits, 5) + Newest(payouts, 5), Newest(txns, 10), ANY, d);
    SinceAppend(Newest(credits, 5), Newest(payouts, 5), ANY, d);
  }

  // ---------- What the dashboard shows ----------

  /** At most ten activities, newest first, and every one is a row of one of the three tables. */
  lemma ShownIsSorted(credits: seq<Activity>, payouts: seq<Activity>, txns: seq<Activity>)
    ensures var shown := Shown(credits, payouts, txns);
            && Sorted(shown)
            && |shown| == Min(10, Min(5, |credits|) + Min(5, |payouts|) + Min(10, |txns|))
            && forall x :: x in shown ==> x in credits || x in payouts || x in txns
  {
    var fetched := Fetched(credits, payouts, txns);
    NewestCounts(fetched, 10, 0);
    NewestCounts(credits, 5, 0);
    NewestCounts(payouts, 5, 0);
    NewestCounts(txns, 10, 0);
    forall x | x in Shown(credits, payouts, txns)
      ensures x in credits || x in payouts || x in txns
    {
      NewestIsFrom(fetched, 10, x);
      if x in Newest(credits, 5) {
        NewestIsFrom(credits, 5, x);
      } else if x in Newest(payouts, 5) {
        NewestIsFrom(payouts, 5, x);
      } else {
        NewestIsFrom(txns, 10, x);
      }
    }
  }

  lemma NewestIsFrom(s: seq<Activity>, k: nat, x: Activity)
    requires x in Newest(s, k)
    ensures x in s
  {
    SortCounts(s, ANY, 0);
    assert x in multiset(Sort(s));
  }

  /** No transaction that is left out is newer than any entry shown. */
  lemma NoNewerTransactionLeftOut(credits: seq<Activity>, payouts: seq<Activity>, txns: seq<Activity>, t: Activity,
                                  e: Activity)
    requires t in txns && e in Shown(credits, payouts, txns) && t !in Shown(credits, payouts, txns)
    ensures t.date <= e.date
  {
    if t.date > e.date {
      var shown, fetched := Shown(credits, payouts, txns), Fetched(credits, payouts, txns);
      NewestCounts(fetched, 10, t.date);
      SinceSorted(shown, t.date);
      FetchedCounts(credits, payouts, txns, t.date);
      NewestHolds(txns, 10, t);
      NewestHolds(fetched, 10, t);
    }
  }

  /** Two sorted lists with as many entries since every date have the same dates. */
  lemma SameDates(s: seq<Activity>, t: seq<Activity>)
    requires Sorted(s) && Sorted(t) && |s| <= |t|
    requires forall d :: Since(s, ANY, d) == Since(t, ANY, d)
    ensures |s| == |t| && forall i :: 0 <= i < |s| ==> s[i].date == t[i].date
  {
    if |s| < |t| {
      var d := t[|s|].date;
      SinceSorted(t, d);
      SinceSorted(s, d);
    }
    forall i | 0 <= i < |s|
      ensures s[i].date == t[i].date
    {
      SinceSorted(s, s[i].date);
      SinceSorted(t, s[i].date);
      SinceSorted(s, t[i].date);
      SinceSorted(t, t[i].date);
    }
  }

  lemma {:induction false} SinceByKind(s: seq<Activity>, d: int)
    ensures Since(s, ANY, d)
            == Since(s, {CreditRequestActivity}, d) + Since(s, {PayoutActivity}, d) + Since(s, {TransactionActivity}, d)
  {
    if s == [] {
    } else {
      AnyKind(s[0].kind);
      SinceByKind(s[1..], d);
    }
  }

  predicate AllOf(s: seq<Activity>, kind: Kind) {
    forall x :: x in s ==> x.kind == kind
  }

  lemma {:induction false} SinceOfKind(s: seq<Activity>, kind: Kind, other: Kind, d: int)
    requires AllOf(s, kind)
    ensures Since(s, {other}, d) == if other == kind then Since(s, ANY, d) else 0
  {
    if s == [] {
    } else {
      assert s[0] in s && forall x :: x in s[1..] ==> x in s;
      SinceOfKind(s[1..], kind, other, d);
    }
  }

  /** Taking out one entry takes out what it counts for. */
  lemma SinceWithout(t: seq<Activity>, i: nat, kinds: set<Kind>, d: int)
    requires i < |t|
    ensures Since(t, kinds, d) == Since([t[i]], kinds, d) + Since(t[..i] + t[i + 1..], kinds, d)
    ensures multiset(t[..i] + t[i + 1..]) == multiset(t) - multiset{t[i]}
  {
    assert t == t[..i] + ([t[i]] + t[i + 1..]);
    SinceAppend(t[..i], t[i + 1..], kinds, d);
    SinceAppend([t[i]], t[i + 1..], kinds, d);
    SinceAppend(t[..i], [t[i]] + t[i + 1..], kinds, d);
  }

  lemma {:induction false} SinceMultiset(s: seq<Activity>, t: seq<Activity>, kinds: set<Kind>, d: int)
    requires multiset(s) == multiset(t)
    ensures Since(s, kinds, d) == Since(t, kinds, d)
  {
    if s == [] {
      assert |multiset(t)| == 0;
    } else {
      assert s == [s[0]] + s[1..];
      assert s[0] in multiset(t);
      var i :| 0 <= i < |t| && t[i] == s[0];
      SinceWithout(t, i, kinds, d);
      assert multiset(s[1..]) == multiset(s) - multiset{s[0]};
      SinceMultiset(s[1..], t[..i] + t[i + 1..], kinds, d);
    }
  }

  lemma SincePrefix(s: seq<Activity>, k: nat, kinds: set<Kind>, d: int)
    ensures Since(Newest(s, k), kinds, d) <= Since(s, kinds, d)
  {
    SortCounts(s, kinds, d);
    if |Sort(s)| > k {
      assert Sort(s) == Sort(s)[..k] + Sort(s)[k..];
      SinceAppend(Sort(s)[..k], Sort(s)[k..], kinds, d);
    }
  }

  /** At most n entries of the kind. */
  ghost predicate AtMost(s: seq<Activity>, kind: Kind, n: nat) {
    forall d :: Since(s, {kind}, d) <= n
  }

  /** The rows of the three tables. */
  predicate Tables(credits: seq<Activity>, payouts: seq<Activity>, txns: seq<Activity>) {
    AllOf(credits, CreditRequestActivity) && AllOf(payouts, PayoutActivity) && AllOf(txns, TransactionActivity)
  }

  lemma KindSince(credits: seq<Activity>, payouts: seq<Activity>, txns: seq<Activity>, all: seq<Activity>, d: int)
    requires Tables(credits, payouts, txns) && multiset(all) == multiset(credits + payouts + txns)
    ensures Since(all, {CreditRequestActivity}, d) == Since(credits, ANY, d)
    ensures Since(all, {PayoutActivity}, d) == Since(payouts, ANY, d)
    ensures Since(all, {TransactionActivity}, d) == Since(txns, ANY, d)
    ensures Since(all, ANY, d) == Since(credits, ANY, d) + Since(payouts, ANY, d) + Since(txns, ANY, d)
  {
    SinceByKind(all, d);
    KindSinceOf(credits, payouts, txns, all, CreditRequestActivity, d);
    KindSinceOf(credits, payouts, txns, all, PayoutActivity, d);
    KindSinceOf(credits, payouts, txns, all, TransactionActivity, d);
  }

  lemma KindSinceOf(credits: seq<Activity>, payouts: seq<Activity>, txns: seq<Activity>, all: seq<Activity>,
                    kind: Kind, d: int)
    requires Tables(credits, payouts, txns) && multiset(all) == multiset(credits + payouts + txns)
    ensures Since(all, {kind}, d) == match kind
                                     case CreditRequestActivity => Since(credits, ANY, d)
                                     case PayoutActivity => Since(payouts, ANY, d)
                                     case TransactionActivity => Since(txns, ANY, d)
  {
    SinceMultiset(all, credits + payouts + txns, {kind}, d);
    SinceAppend(credits + payouts, txns, {kind}, d);
    SinceAppend(credits, payouts, {kind}, d);
    SinceOfKind(credits, CreditRequestActivity, kind, d);
    SinceOfKind(payouts, PayoutActivity, kind, d);
    SinceOfKind(txns, TransactionActivity, kind, d);
  }

  lemma SameCounts(credits: seq<Activity>, payouts: seq<Activity>, txns: seq<Activity>, all: seq<Activity>, d: int)
    requires Tables(credits, payouts, txns) && multiset(all) == multiset(credits + payouts + txns)
    requires AtMost(Newest(all, 10), CreditRequestActivity, 5) && AtMost(Newest(all, 10), PayoutActivity, 5)
    ensures Since(Shown(credits, payouts, txns), ANY, d) == Since(Newest(all, 10), ANY, d)
  {
    var best := Newest(all, 10);
    NewestCounts(Fetched(credits, payouts, txns), 10, d);
    FetchedCounts(credits, payouts, txns, d);
    NewestCounts(all, 10, d);
    KindSince(credits, payouts, txns, all, d);
    SinceByKind(best, d);
    SincePrefix(all, 10, {CreditRequestActivity}, d);
    SincePrefix(all, 10, {PayoutActivity}, d);
    SincePrefix(all, 10, {TransactionActivity}, d);
    SinceIsBounded(best, {TransactionActivity}, d);
  }

  /**
   If the newest ten of all rows, in some order of equal dates, hold at most five credit requests
   and at most five payouts, the dashboard shows exactly their dates, despite the truncated queries.
   */
  lemma TruncationIsHarmless(credits: seq<Activity>, payouts: seq<Activity>, txns: seq<Activity>, all: seq<Activity>)
    requires Tables(credits, payouts, txns) && multiset(all) == multiset(credits + payouts + txns)
    requires AtMost(Newest(all, 10), CreditRequestActivity, 5) && AtMost(Newest(all, 10), PayoutActivity, 5)
    ensures var shown, best := Shown(credits, payouts, txns), Newest(all, 10);
            |shown| == |best| && forall i :: 0 <= i < |shown| ==> shown[i].date == best[i].date
  {
    var shown, best := Shown(credits, payouts, txns), Newest(all, 10);
    forall d
      ensures Since(shown, ANY, d) == Since(best, ANY, d)
    {
      SameCounts(credits, payouts, txns, all, d);
    }
    ShownIsSorted(credits, payouts, txns);
    NewestCounts(all, 10, 0);
    assert |credits + payouts + txns| == |all| by {
      assert |multiset(all)| == |multiset(credits + payouts + txns)|;
    }
    SameDates(shown, best);
  }

  /** The dashboard never shows more than five of either kind. */
  lemma ShownHoldsFive(credits: seq<Activity>, payouts: seq<Activity>, txns: seq<Activity>)
    requires Tables(credits, payouts, txns)
    ensures AtMost(Shown(credits, payouts, txns), CreditRequestActivity, 5)
    ensures AtMost(Shown(credits, payouts, txns), PayoutActivity, 5)
  {
    forall d, kind | kind == CreditRequestActivity || kind == PayoutActivity
      ensures Since(Shown(credits, payouts, txns), {kind}, d) <= 5
    {
      var c, p, t := Newest(credits, 5), Newest(payouts, 5), Newest(txns, 10);
      SincePrefix(Fetched(credits, payouts, txns), 10, {kind}, d);
      SinceAppend(c + p, t, {kind}, d);
      SinceAppend(c, p, {kind}, d);
      NewestOfKind(credits, 5, CreditRequestActivity);
      NewestOfKind(payouts, 5, PayoutActivity);
      NewestOfKind(txns, 10, TransactionActivity);
      SinceOfKind(c, CreditRequestActivity, kind, d);
      SinceOfKind(p, PayoutActivity, kind, d);
      SinceOfKind(t, TransactionActivity, kind, d);
      NewestCounts(credits, 5, d);
      NewestCounts(payouts, 5, d);
    }
  }

  lemma NewestOfKind(s: seq<Activity>, k: nat, kind: Kind)
    requires AllOf(s, kind)
    ensures AllOf(Newest(s, k), kind)
  {
    forall x | x in Newest(s, k)
      ensures x.kind == kind
    {
      NewestIsFrom(s, k, x);
    }
  }

  /** The condition is exact: with all dates different, the true newest ten are shown only under it. */
  lemma HarmlessOnlyThen(credits: seq<Activity>, payouts: seq<Activity>, txns: seq<Activity>, all: seq<Activity>)
    requires Tables(credits, payouts, txns) && multiset(all) == multiset(credits + payouts + txns)
    requires forall x, y :: x in all && y in all && x.date == y.date ==> x == y
    ensures var shown, best := Shown(credits, payouts, txns), Newest(all, 10);
            (|shown| == |best| && forall i :: 0 <= i < |shown| ==> shown[i].date == best[i].date)
            <==> AtMost(best, CreditRequestActivity, 5) && AtMost(best, PayoutActivity, 5)
  {
    var shown, best := Shown(credits, payouts, txns), Newest(all, 10);
    if AtMost(best, CreditRequestActivity, 5) && AtMost(best, PayoutActivity, 5) {
      TruncationIsHarmless(credits, payouts, txns, all);
    }
    if |shown| == |best| && forall i :: 0 <= i < |shown| ==> shown[i].date == best[i].date {
      forall i | 0 <= i < |shown|
        ensures shown[i] == best[i]
      {
        ShownIsSorted(credits, payouts, txns);
        assert shown[i] in shown;
        assert shown[i] in multiset(credits + payouts + txns);
        NewestIsFrom(all, 10, best[i]);
      }
      assert shown == best;
      ShownHoldsFive(credits, payouts, txns);
    }
  }

  // ---------- Exactly when the truncation shows ----------

  lemma {:induction false} SameDatesCount(s: seq<Activity>, t: seq<Activity>, d: int)
    requires |s| == |t| && forall i :: 0 <= i < |s| ==> s[i].date == t[i].date
    ensures Since(s, ANY, d) == Since(t, ANY, d)
  {
    if s == [] {
      assert t == [];
    } else {
      AnyKind(s[0].kind);
      AnyKind(t[0].kind);
      assert forall i :: 0 <= i < |s| - 1 ==> s[1..][i] == s[i + 1] && t[1..][i] == t[i + 1];
      SameDatesCount(s[1..], t[1..], d);
    }
  }

  /**
   Among the rows dated d or later there are at most five credit requests and at most five payouts, or
   the three queries still return ten of them.
   */
  predicate NothingMissed(credits: seq<Activity>, payouts: seq<Activity>, txns: seq<Activity>, d: int) {
    var c, p, t := Since(credits, ANY, d), Since(payouts, ANY, d), Since(txns, ANY, d);
    (c <= 5 && p <= 5) || Min(5, c) + Min(5, p) + t >= 10
  }

  lemma MissingCounts(credits: seq<Activity>, payouts: seq<Activity>, txns: seq<Activity>, all: seq<Activity>, d: int)
    requires Tables(credits, payouts, txns) && multiset(all) == multiset(credits + payouts + txns)
    ensures NothingMissed(credits, payouts, txns, d)
            <==> Since(Shown(credits, payouts, txns), ANY, d) == Since(Newest(all, 10), ANY, d)
  {
    NewestCounts(Fetched(credits, payouts, txns), 10, d);
    FetchedCounts(credits, payouts, txns, d);
    NewestCounts(all, 10, d);
    KindSince(credits, payouts, txns, all, d);
  }

  /** Whatever dates coincide: the true newest ten dates are shown exactly if nothing is missed since any date. */
  lemma HarmlessExactly(credits: seq<Activity>, payouts: seq<Activity>, txns: seq<Activity>, all: seq<Activity>)
    requires Tables(credits, payouts, txns) && multiset(all) == multiset(credits + payouts + txns)
    ensures var shown, best := Shown(credits, payouts, txns), Newest(all, 10);
            (|shown| == |best| && forall i :: 0 <= i < |shown| ==> shown[i].date == best[i].date)
            <==> forall d :: NothingMissed(credits, payouts, txns, d)
  {
    var shown, best := Shown(credits, payouts, txns), Newest(all, 10);
    ShownIsSorted(credits, payouts, txns);
    NewestCounts(all, 10, 0);
    forall d
      ensures NothingMissed(credits, payouts, txns, d) <==> Since(shown, ANY, d) == Since(best, ANY, d)
    {
      MissingCounts(credits, payouts, txns, all, d);
    }
    if forall d :: NothingMissed(credits, payouts, txns, d) {
      assert |credits + payouts + txns| == |all| by {
        assert |multiset(all)| == |multiset(credits + payouts + txns)|;
      }
      SameDates(shown, best);
    } else if |shown| == |best| && forall i :: 0 <= i < |shown| ==> shown[i].date == best[i].date {
      forall d {
        SameDatesCount(shown, best, d);
      }
    }
  }
}
