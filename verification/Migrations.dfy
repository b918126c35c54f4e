/** scripts/run-migrations.js: the order of the migrations and the resumable apply-and-record loop. */
module Migrations {

  const KNOWN_ORDER: seq<string> := [
    "create-users-and-admins-tables.sql",
    "create-platform-settings-table.sql",
    "create-remaining-core-tables.sql",
    "add-credit-request-admin-proof-url.sql",
    "create-notifications-table.sql",
    "add-admin-password-otp-fields.sql",
    "add-settings-columns.sql",
    "add-support-system-tables.sql",
    "add-widget-system-tables.sql",
    "add-widget-settings-to-platform-settings.sql",
    "add-sudo-cards-tables.sql",
    "add-sudo-onboarding-data-to-users.sql",
    "add-wallet-and-earnings-balance.sql",
    "add-transaction-finance-fields.sql",
    "add-last-activity-to-widget-sessions.sql",
    "add-bvn-nin-onboarding-requirements.sql",
    "fix-support-timestamps-timezone.sql",
    "add-notifications-related-user-id.sql",
    "add-tiktok-fields-to-users.sql",
    "add-auth-type-to-users.sql"
  ]

  predicate IsSql(f: string) {
    |f| >= 4 && f[|f| - 4..] == ".sql"
  }

  ghost predicate Distinct(s: seq<string>) {
    forall i, j :: 0 <= i < j < |s| ==> s[i] != s[j]
  }

  // ---------- The order ----------

  /** Lexicographic order on names. */
  predicate AtMost(a: string, b: string) {
    a == "" || (b != "" && (a[0] < b[0] || (a[0] == b[0] && AtMost(a[1..], b[1..]))))
  }

  function Keep(s: seq<string>, p: string -> bool): seq<string> {
    if s == [] then []
    else (if p(s[0]) then [s[0]] else []) + Keep(s[1..], p)
  }

  function Insert(f: string, s: seq<string>): seq<string> {
    if s == [] || AtMost(f, s[0]) then [f] + s else [s[0]] + Insert(f, s[1..])
  }

  function Sort(s: seq<string>): seq<string> {
    if s == [] then [] else Insert(s[0], Sort(s[1..]))
  }

  /** `getOrderedMigrations` on a directory listing: the known ones that are there, then the rest sorted. */
  function GetOrderedMigrations(known: seq<string>, listing: seq<string>): seq<string> {
    var files := Keep(listing, IsSql);
    Keep(known, f => f in files) + Sort(Keep(files, f => f !in known))
  }

  /** Where a name stands in the known order; names not in it stand after all of it. */
  function Rank(known: seq<string>, f: string): (r: nat)
    ensures r <= |known| && (r < |known| <==> f in known) && (r < |known| ==> known[r] == f)
  {
    if known == [] || known[0] == f then 0 else 1 + Rank(known[1..], f)
  }

  /** The order the script promises: known names by their place, the others after them by name. */
  predicate Precedes(known: seq<string>, f: string, g: string) {
    var r, s := Rank(known, f), Rank(known, g);
    r < s || (r == s == |known| && f != g && AtMost(f, g))
  }

  ghost predicate InOrder(known: seq<string>, s: seq<string>) {
    forall i, j :: 0 <= i < j < |s| ==> Precedes(known, s[i], s[j])
  }

  // ---------- One migration ----------

  /** How the database answers a statement: well, with an "already exists" error, or with another error. */
  datatype Reply = Done | Exists | Fails

  /**
   What one name meets in one run: whether its file and its row could be read, the answers to its SQL
   and to the insert of its name, and whether the insert after an "already exists" error succeeds.
   */
  datatype Attempt = Attempt(read: bool, sql: Reply, insert: Reply, again: bool)

  datatype Verdict = Ran | Noted | Swallowed | Failed

  function Judge(a: Attempt): Verdict {
    var answer := if a.sql.Done? then a.insert else a.sql;
    match answer
    case Done => Ran
    case Exists => if a.again then Noted else Swallowed
    case Fails => Failed
  }

  // ---------- A run ----------

  /** What a run leaves behind: the recorded names, the migrations whose SQL it sent, and its counters. */
  datatype Progress = Progress(applied: seq<string>, executed: seq<string>, ran: nat, skipped: nat, finished: bool)

  function Start(applied: seq<string>): Progress {
    Progress(applied, [], 0, 0, false)
  }

  function Go(list: seq<string>, answers: seq<Attempt>, p: Progress): Progress
    requires |answers| == |list|
    decreases |list|
  {
    if list == [] then p.(finished := true)
    else
      var name, a := list[0], answers[0];
      if !a.read then p
      else if name in p.applied then Go(list[1..], answers[1..], p.(skipped := p.skipped + 1))
      else
        var sent := p.executed + [name];
        match Judge(a)
        case Ran => Go(list[1..], answers[1..], p.(applied := p.applied + [name], executed := sent, ran := p.ran + 1))
        case Noted =>
          Go(list[1..], answers[1..], p.(applied := p.applied + [name], executed := sent, skipped := p.skipped + 1))
        case Swallowed => Go(list[1..], answers[1..], p.(executed := sent, skipped := p.skipped + 1))
        case Failed => p.(executed := sent)
  }

  class Runner {
    /** The rows of schema_migrations, oldest first. */
    var applied: seq<string>

    constructor ()
      ensures applied == []
    {
      applied := [];
    }

    method Migrate(known: seq<string>, listing: seq<string>, answers: seq<Attempt>)
      returns (ran: nat, skipped: nat, executed: seq<string>, finished: bool)
      requires |answers| == |GetOrderedMigrations(known, listing)|
      modifies this
      ensures Progress(applied, executed, ran, skipped, finished)
              == Go(GetOrderedMigrations(known, listing), answers, Start(old(applied)))
    {
      var ordered := GetOrderedMigrations(known, listing);
      ran, skipped, executed, finished := 0, 0, [], false;
      var i := 0;
      while i < |ordered|
        invariant 0 <= i <= |ordered| && !finished
        invariant Go(ordered, answers, Start(old(applied)))
                  == Go(ordered[i..], answers[i..], Progress(applied, executed, ran, skipped, false))
      {
        var name, a := ordered[i], answers[i];
        assert ordered[i..][1..] == ordered[i + 1..] && answers[i..][1..] == answers[i + 1..];
        i := i + 1;
        if !a.read {
          return;
        }
        if name in applied {
          skipped := skipped + 1;
          continue;
        }
        executed := executed + [name];
        if a.sql.Done? && a.insert.Done? {
          applied := applied + [name];
          ran := ran + 1;
        } else if (if a.sql.Done? then a.insert else a.sql).Exists? {
          if a.again {
            applied := applied + [name];
          }
          skipped := skipped + 1;
        } else {
          return;
        }
      }
      finished := true;
    }
  }

  // ---------- The order is the promised one ----------

  lemma {:induction false} AtMostIsTotal(a: string, b: string)
    ensures AtMost(a, b) || AtMost(b, a)
    ensures AtMost(a, b) && AtMost(b, a) ==> a == b
    ensures AtMost(a, a)
  {
    if a == "" {
    } else {
      AtMostIsTotal(a[1..], if b == "" then "" else b[1..]);
      if b != "" && AtMost(a, b) && AtMost(b, a) {
        assert a == [a[0]] + a[1..] && b == [b[0]] + b[1..];
      }
    }
  }

  lemma {:induction false} AtMostIsTransitive(a: string, b: string, c: string)
    requires AtMost(a, b) && AtMost(b, c)
    ensures AtMost(a, c)
  {
    if a == "" || b == "" || c == "" || a[0] != b[0] || b[0] != c[0] {
    } else {
      AtMostIsTransitive(a[1..], b[1..], c[1..]);
    }
  }

  lemma {:induction false} KeepKeeps(s: seq<string>, p: string -> bool)
    ensures forall f :: f in Keep(s, p) <==> f in s && p(f)
    ensures Distinct(s) ==> Distinct(Keep(s, p))
  {
    if s == [] {
    } else {
      KeepKeeps(s[1..], p);
      assert s == [s[0]] + s[1..];
    }
  }

  lemma FirstPrecedes(known: seq<string>, s: seq<string>)
    requires InOrder(known, s) && s != []
    ensures forall f :: f in s[1..] <==> f in s && f != s[0]
    ensures forall f :: f in s[1..] ==> Precedes(known, s[0], f)
  {
    InOrderIsDistinct(known, s);
    assert s == [s[0]] + s[1..];
    forall f | f in s[1..]
      ensures Precedes(known, s[0], f)
    {
      var i :| 0 <= i < |s| - 1 && s[1..][i] == f;
      assert s[i + 1] == f;
    }
  }

  lemma {:induction false} RankedKeep(known: seq<string>, s: seq<string>, p: string -> bool)
    requires InOrder(known, s)
    ensures InOrder(known, Keep(s, p))
  {
    if s == [] {
    } else {
      RankedKeep(known, s[1..], p);
      KeepKeeps(s[1..], p);
      FirstPrecedes(known, s);
    }
  }

  lemma {:induction false} RankIsPlace(known: seq<string>, i: nat)
    requires Distinct(known) && i < |known|
    ensures Rank(known, known[i]) == i
  {
    if i == 0 {
    } else {
      assert known[0] != known[i];
      RankIsPlace(known[1..], i - 1);
    }
  }

  lemma {:induction false} InsertKeepsOrder(known: seq<string>, f: string, s: seq<string>)
    requires InOrder(known, s) && f !in s && f !in known
    requires forall g :: g in s ==> g !in known
    ensures InOrder(known, Insert(f, s))
    ensures forall g :: g in Insert(f, s) <==> g == f || g in s
  {
    if s == [] {
    } else if AtMost(f, s[0]) {
      forall g | g in s
        ensures Precedes(known, f, g)
      {
        if g != s[0] {
          AtMostIsTransitive(f, s[0], g);
        }
      }
    } else {
      AtMostIsTotal(f, s[0]);
      assert s == [s[0]] + s[1..];
      InsertKeepsOrder(known, f, s[1..]);
      FirstPrecedes(known, s);
      assert Precedes(known, s[0], f);
    }
  }

  lemma {:induction false} SortSorts(known: seq<string>, s: seq<string>)
    requires Distinct(s) && forall g :: g in s ==> g !in known
    ensures InOrder(known, Sort(s))
    ensures forall g :: g in Sort(s) <==> g in s
  {
    if s == [] {
    } else {
      assert s == [s[0]] + s[1..];
      SortSorts(known, s[1..]);
      InsertKeepsOrder(known, s[0], Sort(s[1..]));
    }
  }

  lemma InOrderIsDistinct(known: seq<string>, s: seq<string>)
    requires InOrder(known, s)
    ensures Distinct(s)
  {
    forall i, j | 0 <= i < j < |s|
      ensures s[i] != s[j]
    {
      assert Precedes(known, s[i], s[j]);
    }
  }

  // Most known names differ in length.

  lemma EarlyNamesDiffer()
    ensures forall i, j :: 0 <= i < 6 && i < j < 20 ==> KNOWN_ORDER[i] != KNOWN_ORDER[j]
  {
    assert seq(20, i requires 0 <= i < 20 => |KNOWN_ORDER[i]|)
           == [34, 34, 32, 38, 30, 33, 24, 29, 28, 44, 25, 37, 35, 34, 40, 39, 35, 37, 30, 26];
  }

  lemma LateNamesDiffer()
    ensures forall i, j :: 6 <= i < 20 && i < j < 20 ==> KNOWN_ORDER[i] != KNOWN_ORDER[j]
  {
    assert seq(20, i requires 0 <= i < 20 => |KNOWN_ORDER[i]|)
           == [34, 34, 32, 38, 30, 33, 24, 29, 28, 44, 25, 37, 35, 34, 40, 39, 35, 37, 30, 26];
  }

  lemma KnownNamesAreDistinct()
    ensures Distinct(KNOWN_ORDER)
  {
    EarlyNamesDiffer();
    LateNamesDiffer();
  }

  /** The list is a duplicate-free permutation of the .sql files of the directory, in the promised order. */
  lemma OrderedMigrations(known: seq<string>, listing: seq<string>)
    requires Distinct(known) && Distinct(listing)
    ensures var list := GetOrderedMigrations(known, listing);
            && Distinct(list) && InOrder(known, list)
            && (forall f :: f in list <==> f in listing && IsSql(f))
  {
    var files := Keep(listing, IsSql);
    KeepKeeps(listing, IsSql);
    var first := Keep(known, f => f in files);
    KeepKeeps(known, f => f in files);
    forall i, j | 0 <= i < j < |known|
      ensures Precedes(known, known[i], known[j])
    {
      RankIsPlace(known, i);
      RankIsPlace(known, j);
    }
    RankedKeep(known, known, f => f in files);
    var rest := Keep(files, f => f !in known);
    KeepKeeps(files, f => f !in known);
    SortSorts(known, rest);
    InOrderIsDistinct(known, first + Sort(rest));
  }

  /** No other list is: the contents of the directory fix the order, however the listing came. */
  lemma {:induction false} OrderIsDetermined(known: seq<string>, s: seq<string>, t: seq<string>)
    requires InOrder(known, s) && InOrder(known, t)
    requires forall f :: f in s <==> f in t
    ensures s == t
  {
    if s == [] {
      assert forall i :: 0 <= i < |t| ==> t[i] in t;
    } else {
      assert s[0] in t && t[0] in s;
      FirstIsUnique(known, s, t);
      FirstPrecedes(known, s);
      FirstPrecedes(known, t);
      assert s == [s[0]] + s[1..] && t == [t[0]] + t[1..];
      OrderIsDetermined(known, s[1..], t[1..]);
    }
  }

  lemma FirstIsUnique(known: seq<string>, s: seq<string>, t: seq<string>)
    requires InOrder(known, s) && InOrder(known, t)
    requires s != [] && t != [] && s[0] in t && t[0] in s
    ensures s[0] == t[0]
  {
    if s[0] != t[0] {
      assert Precedes(known, s[0], t[0]) && Precedes(known, t[0], s[0]);
      AtMostIsTotal(s[0], t[0]);
    }
  }

  // ---------- Resuming ----------

  /** The answers with which a name's row is written, is lost although the run goes on, or the run ends. */
  predicate Records(a: Attempt) { a.read && (Judge(a).Ran? || Judge(a).Noted?) }
  predicate Loses(a: Attempt) { a.read && Judge(a).Swallowed? }
  predicate Ends(a: Attempt) { !a.read || Judge(a).Failed? }

  predicate RecordsLater(answers: seq<Attempt>) {
    answers != [] && !Ends(answers[0]) && (Records(answers[0]) || RecordsLater(answers[1..]))
  }

  /** A name's row is lost and the run goes on to record a later name. */
  predicate Gap(answers: seq<Attempt>) {
    answers != [] && !Ends(answers[0]) && if Loses(answers[0]) then RecordsLater(answers[1..]) else Gap(answers[1..])
  }

  /** The names a run records out of names not recorded before. */
  function Recorded(list: seq<string>, answers: seq<Attempt>): (r: seq<string>)
    requires |answers| == |list|
    ensures forall f :: f in r ==> f in list
  {
    if list == [] || Ends(answers[0]) then []
    else (if Records(answers[0]) then [list[0]] else []) + Recorded(list[1..], answers[1..])
  }

  lemma {:induction false} FreshNames(list: seq<string>, answers: seq<Attempt>, p: Progress)
    requires |answers| == |list| && Distinct(list)
    requires forall f :: f in list ==> f !in p.applied
    ensures Go(list, answers, p).applied == p.applied + Recorded(list, answers)
  {
    if list == [] || Ends(answers[0]) {
    } else {
      var sent := p.executed + [list[0]];
      var noted := p.applied + [list[0]];
      match Judge(answers[0])
      case Ran => FreshNames(list[1..], answers[1..], p.(applied := noted, executed := sent, ran := p.ran + 1));
      case Noted =>
        FreshNames(list[1..], answers[1..], p.(applied := noted, executed := sent, skipped := p.skipped + 1));
      case Swallowed => FreshNames(list[1..], answers[1..], p.(executed := sent, skipped := p.skipped + 1));
    }
  }

  lemma {:induction false} RecordsLaterRecords(list: seq<string>, answers: seq<Attempt>)
    requires |answers| == |list|
    ensures RecordsLater(answers) <==> Recorded(list, answers) != []
  {
    if list == [] {
    } else {
      RecordsLaterRecords(list[1..], answers[1..]);
    }
  }

  lemma {:induction false} RecordedIsPrefix(list: seq<string>, answers: seq<Attempt>)
    requires |answers| == |list| && Distinct(list)
    ensures Recorded(list, answers) <= list <==> !Gap(answers)
  {
    if list == [] || Ends(answers[0]) {
    } else {
      var later := Recorded(list[1..], answers[1..]);
      assert list == [list[0]] + list[1..];
      if Records(answers[0]) {
        RecordedIsPrefix(list[1..], answers[1..]);
        assert ([list[0]] + later)[1..] == later;
      } else {
        RecordsLaterRecords(list[1..], answers[1..]);
        assert later != [] ==> later[0] in list[1..];
      }
    }
  }

  /** Names already recorded are passed over without a statement, as long as they can be read. */
  lemma {:induction false} PassesOver(list: seq<string>, answers: seq<Attempt>, k: nat, p: Progress)
    requires |answers| == |list| && k <= |list|
    requires forall i :: 0 <= i < k ==> list[i] in p.applied
    ensures if forall i :: 0 <= i < k ==> answers[i].read
            then Go(list, answers, p) == Go(list[k..], answers[k..], p.(skipped := p.skipped + k))
            else var q := Go(list, answers, p);
                 !q.finished == !p.finished && q.applied == p.applied && q.executed == p.executed
  {
    if k == 0 || !answers[0].read {
    } else {
      PassesOver(list[1..], answers[1..], k - 1, p.(skipped := p.skipped + 1));
      assert list[1..][k - 1..] == list[k..] && answers[1..][k - 1..] == answers[k..];
      assert forall i :: 0 <= i < k - 1 ==> answers[1..][i] == answers[i + 1];
      assert forall i :: 1 <= i < k ==> answers[i] == answers[1..][i - 1];
    }
  }

  /** Whether a run that finds the first k names recorded leaves a gap. */
  predicate LeavesGap(answers: seq<Attempt>, k: nat)
    requires k <= |answers|
  {
    (forall i :: 0 <= i < k ==> answers[i].read) && Gap(answers[k..])
  }

  /**
   Resuming: a run that starts from a prefix of the list ends with a longer or equal prefix exactly
   when it leaves no gap.
   */
  lemma RunKeepsPrefix(list: seq<string>, answers: seq<Attempt>, k: nat)
    requires |answers| == |list| && Distinct(list) && k <= |list|
    ensures list[..k] <= Go(list, answers, Start(list[..k])).applied
    ensures Go(list, answers, Start(list[..k])).applied <= list <==> !LeavesGap(answers, k)
  {
    var p := Start(list[..k]);
    PassesOver(list, answers, k, p);
    if forall i :: 0 <= i < k ==> answers[i].read {
      FreshNames(list[k..], answers[k..], p.(skipped := k));
      RecordedIsPrefix(list[k..], answers[k..]);
      PrefixOfRest(list, k, Recorded(list[k..], answers[k..]));
    }
  }

  lemma PrefixOfRest(list: seq<string>, k: nat, more: seq<string>)
    requires k <= |list|
    ensures list[..k] + more <= list <==> more <= list[k..]
  {
    var s := list[..k] + more;
    if s <= list {
      assert more == s[k..] == list[..|s|][k..];
    }
    if more <= list[k..] {
      assert s == list[..k + |more|];
    }
  }

  /** The recorded names after a sequence of runs over the same directory, from an empty table. */
  function AfterRuns(list: seq<string>, runs: seq<seq<Attempt>>): seq<string>
    requires forall r :: r in runs ==> |r| == |list|
  {
    if runs == [] then []
    else Go(list, runs[|runs| - 1], Start(AfterRuns(list, runs[..|runs| - 1]))).applied
  }

  /** No run of the sequence leaves a gap, given what the runs before it recorded. */
  ghost predicate NoGaps(list: seq<string>, runs: seq<seq<Attempt>>)
    requires forall r :: r in runs ==> |r| == |list|
  {
    runs != [] ==>
      var before := AfterRuns(list, runs[..|runs| - 1]);
      NoGaps(list, runs[..|runs| - 1]) && |before| <= |list| && !LeavesGap(runs[|runs| - 1], |before|)
  }

  ghost predicate AlwaysPrefix(list: seq<string>, runs: seq<seq<Attempt>>)
    requires forall r :: r in runs ==> |r| == |list|
  {
    AfterRuns(list, runs) <= list && (runs != [] ==> AlwaysPrefix(list, runs[..|runs| - 1]))
  }

  /**
   Over any sequence of runs, each stopping wherever it stops, the recorded names are a prefix of the
   list after every one of them exactly when no run leaves a gap.
   */
  lemma {:induction false} RunsRecordAPrefix(list: seq<string>, runs: seq<seq<Attempt>>)
    requires Distinct(list) && forall r :: r in runs ==> |r| == |list|
    ensures AlwaysPrefix(list, runs) <==> NoGaps(list, runs)
  {
    if runs == [] {
    } else {
      var earlier := runs[..|runs| - 1];
      RunsRecordAPrefix(list, earlier);
      if AlwaysPrefix(list, earlier) {
        var k := |AfterRuns(list, earlier)|;
        assert AfterRuns(list, earlier) == list[..k];
        RunKeepsPrefix(list, runs[|runs| - 1], k);
      }
    }
  }

  /** A run that swallows nothing leaves no gap. */
  lemma {:induction false} NothingLostNoGap(answers: seq<Attempt>)
    requires forall a :: a in answers ==> !Loses(a)
    ensures !Gap(answers)
  {
    if answers == [] {
    } else {
      NothingLostNoGap(answers[1..]);
    }
  }

  // ---------- Every run ----------

  /**
   In every run, gaps or not: rows are only added, no name twice; nothing recorded is sent again; and
   the run finished exactly when the two counters add up to the list.
   */
  lemma {:induction false} EveryRun(list: seq<string>, answers: seq<Attempt>, p: Progress)
    requires |answers| == |list| && Distinct(list) && Distinct(p.applied) && !p.finished
    ensures var q := Go(list, answers, p);
            && p.applied <= q.applied && Distinct(q.applied)
            && (forall f :: f in q.applied ==> f in p.applied || f in list)
            && p.executed <= q.executed
            && (forall i :: |p.executed| <= i < |q.executed| ==> q.executed[i] in list && q.executed[i] !in p.applied)
            && p.ran + p.skipped <= q.ran + q.skipped <= p.ran + p.skipped + |list|
            && (q.finished <==> q.ran + q.skipped == p.ran + p.skipped + |list|)
  {
    if list == [] || !answers[0].read {
    } else {
      var name := list[0];
      var sent, noted := p.executed + [name], p.applied + [name];
      if name in p.applied {
        EveryRun(list[1..], answers[1..], p.(skipped := p.skipped + 1));
      } else {
        match Judge(answers[0])
        case Ran => EveryRun(list[1..], answers[1..], p.(applied := noted, executed := sent, ran := p.ran + 1));
        case Noted =>
          EveryRun(list[1..], answers[1..], p.(applied := noted, executed := sent, skipped := p.skipped + 1));
        case Swallowed => EveryRun(list[1..], answers[1..], p.(executed := sent, skipped := p.skipped + 1));
        case Failed =>
      }
    }
  }

  /** The SQL went through, or the statement that failed said that it had before. */
  predicate Passes(a: Attempt) {
    a.sql == Exists || (a.sql == Done && a.insert != Fails)
  }

  /** And the name is recorded, by the first insert or by the one after an "already exists" error. */
  predicate Notes(a: Attempt) {
    (a.sql == Done && a.insert == Done) || (Passes(a) && a.again)
  }

  function NotRecorded(list: seq<string>, applied: seq<string>): seq<string> {
    if list == [] then [] else (if list[0] in applied then [] else [list[0]]) + NotRecorded(list[1..], applied)
  }

  /** How many of those went through at the first try. */
  function NewlyRun(list: seq<string>, answers: seq<Attempt>, applied: seq<string>): nat
    requires |answers| == |list|
  {
    if list == [] then 0
    else (if list[0] !in applied && answers[0].sql == answers[0].insert == Done then 1 else 0)
         + NewlyRun(list[1..], answers[1..], applied)
  }

  lemma {:induction false} OtherNames(list: seq<string>, answers: seq<Attempt>, applied: seq<string>, f: string)
    requires |answers| == |list| && f !in list
    ensures NotRecorded(list, applied + [f]) == NotRecorded(list, applied)
    ensures NewlyRun(list, answers, applied + [f]) == NewlyRun(list, answers, applied)
  {
    if list == [] {
    } else {
      OtherNames(list[1..], answers[1..], applied, f);
    }
  }

  /** Where the run is after a name that does not end it. */
  function AfterName(name: string, a: Attempt, p: Progress): Progress {
    if name in p.applied then p.(skipped := p.skipped + 1)
    else
      var sent := p.(executed := p.executed + [name]);
      var noted := if Notes(a) then sent.(applied := p.applied + [name]) else sent;
      if a.sql == a.insert == Done then noted.(ran := p.ran + 1) else noted.(skipped := p.skipped + 1)
  }

  lemma GoesOn(list: seq<string>, answers: seq<Attempt>, p: Progress)
    requires |answers| == |list| > 0 && answers[0].read && (list[0] in p.applied || Passes(answers[0]))
    ensures Go(list, answers, p) == Go(list[1..], answers[1..], AfterName(list[0], answers[0], p))
  {
  }

  /** A run finishes exactly when every answer can be read and every name not yet recorded passes. */
  lemma {:induction false} FinishesIff(list: seq<string>, answers: seq<Attempt>, p: Progress)
    requires |answers| == |list| && Distinct(list) && !p.finished
    ensures Go(list, answers, p).finished
            <==> forall i :: 0 <= i < |list| ==> answers[i].read && (list[i] in p.applied || Passes(answers[i]))
  {
    if list == [] || !answers[0].read || (list[0] !in p.applied && !Passes(answers[0])) {
    } else {
      GoesOn(list, answers, p);
      FinishesIff(list[1..], answers[1..], AfterName(list[0], answers[0], p));
      assert forall i :: 1 <= i < |list| ==> list[i] == list[1..][i - 1] && answers[i] == answers[1..][i - 1];
    }
  }

  /**
   A finished run has sent the names that were not recorded, in order; `ran` counts the ones that went
   through at the first try.
   */
  lemma {:induction false} FinishedHasSent(list: seq<string>, answers: seq<Attempt>, p: Progress)
    requires |answers| == |list| && Distinct(list) && !p.finished && Go(list, answers, p).finished
    ensures Go(list, answers, p).executed == p.executed + NotRecorded(list, p.applied)
    ensures Go(list, answers, p).ran == p.ran + NewlyRun(list, answers, p.applied)
  {
    if list == [] {
    } else {
      GoesOn(list, answers, p);
      OtherNames(list[1..], answers[1..], p.applied, list[0]);
      FinishedHasSent(list[1..], answers[1..], AfterName(list[0], answers[0], p));
    }
  }

  /** And it has recorded, besides what was recorded before, the names whose inserts went through. */
  lemma {:induction false} FinishedHasNoted(list: seq<string>, answers: seq<Attempt>, p: Progress)
    requires |answers| == |list| && Distinct(list) && !p.finished && Go(list, answers, p).finished
    ensures var q := Go(list, answers, p);
            && (forall i :: 0 <= i < |list| ==> (list[i] in q.applied <==> list[i] in p.applied || Notes(answers[i])))
            && (forall f :: f !in list ==> (f in q.applied <==> f in p.applied))
  {
    if list == [] {
    } else {
      var q := AfterName(list[0], answers[0], p);
      GoesOn(list, answers, p);
      FinishedHasNoted(list[1..], answers[1..], q);
      assert forall i :: 1 <= i < |list| ==> list[i] == list[1..][i - 1] && answers[i] == answers[1..][i - 1];
      assert list[0] in q.applied <==> list[0] in p.applied || Notes(answers[0]);
    }
  }

  /** A run that finishes without losing a row leaves every name recorded. */
  lemma {:induction false} FinishedRecordsAll(list: seq<string>, answers: seq<Attempt>, p: Progress)
    requires |answers| == |list| && !p.finished
    requires forall a :: a in answers ==> !Loses(a)
    requires Go(list, answers, p).finished
    ensures forall f :: f in list ==> f in Go(list, answers, p).applied
    ensures forall f :: f in p.applied ==> f in Go(list, answers, p).applied
  {
    if list == [] {
    } else {
      var name := list[0];
      var sent, noted := p.executed + [name], p.applied + [name];
      if name in p.applied {
        FinishedRecordsAll(list[1..], answers[1..], p.(skipped := p.skipped + 1));
      } else {
        assert answers[0] in answers;
        match Judge(answers[0])
        case Ran =>
          FinishedRecordsAll(list[1..], answers[1..], p.(applied := noted, executed := sent, ran := p.ran + 1));
        case Noted =>
          FinishedRecordsAll(list[1..], answers[1..], p.(applied := noted, executed := sent, skipped := p.skipped + 1));
      }
    }
  }

  /** After a full success the next run sends nothing, records nothing and skips the whole list. */
  lemma NextRunIsIdle(list: seq<string>, first: seq<Attempt>, second: seq<Attempt>, applied: seq<string>)
    requires |first| == |second| == |list|
    requires forall a :: a in first ==> !Loses(a)
    requires forall a :: a in second ==> a.read
    requires Go(list, first, Start(applied)).finished
    ensures var recorded := Go(list, first, Start(applied)).applied;
            Go(list, second, Start(recorded)) == Progress(recorded, [], 0, |list|, true)
  {
    FinishedRecordsAll(list, first, Start(applied));
    var recorded := Go(list, first, Start(applied)).applied;
    PassesOver(list, second, |list|, Start(recorded));
  }
}
