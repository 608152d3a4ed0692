/** The persistent claim table that deduplicates ingress events (trace_store.go). */
module Ingress {
  import opened Common

  const CLEANUP_INTERVAL_MS: int := 3_600_000
  const MAX_EVENT_ID: int := 1024
  const RETENTION_MS: int := 2_592_000_000  // thirty days, the retention of every store

  type Key = (string, string)

  /** What the database does during one claim. */
  datatype Fault = Healthy | PruneFailed | PruneInterrupted | ClaimFailed

  datatype Outcome = Failed | Claimed | Duplicate

  datatype Ledger = Ledger(expiry: map<Key, int>, nextCleanupAt: int)

  predicate LabelChar(c: char) {
    'a' <= c <= 'z' || '0' <= c <= '9' || c == '-' || c == '_' || c == '.'
  }

  predicate ValidLabel(s: string) {
    0 < |s| <= 64 && forall i :: 0 <= i < |s| ==> LabelChar(s[i])
  }

  predicate ValidClaim(source: string, eventID: string) {
    ValidLabel(source) && 0 < |eventID| <= MAX_EVENT_ID
  }

  /** A claim is refused exactly for an empty or long source or one with other characters, or an empty or long event id. */
  lemma ClaimsRefusedExactly(source: string, eventID: string)
    ensures !ValidClaim(source, eventID) <==>
      || source == "" || |source| > 64 || eventID == "" || |eventID| > 1024
      || exists i :: 0 <= i < |source| && !('a' <= source[i] <= 'z' || '0' <= source[i] <= '9' || source[i] in {'-', '_', '.'})
  {
  }

  function Unexpired(expiry: map<Key, int>, at: int): map<Key, int> {
    map k | k in expiry && at < expiry[k] :: expiry[k]
  }

  /** Expired rows go at most once per cleanup interval. */
  function PruneIfDue(l: Ledger, at: int, fault: Fault): (Ledger, bool) {
    if at < l.nextCleanupAt then (l, true)
    else if fault == PruneFailed then (l, false)
    else if fault == PruneInterrupted then (l.(expiry := Unexpired(l.expiry, at)), false)
    else (Ledger(Unexpired(l.expiry, at), at + CLEANUP_INTERVAL_MS), true)
  }

  /** The transaction of a claim, which runs after its pruning and may be kept from it by other uses. */
  function Transact(l: Ledger, retention: nat, key: Key, at: int): (Ledger, Outcome) {
    if key in l.expiry && at < l.expiry[key] then (l, Duplicate) else (l.(expiry := l.expiry[key := at + retention]), Claimed)
  }

  function Claim(l: Ledger, retention: nat, source: string, eventID: string, at: int, fault: Fault): (Ledger, Outcome) {
    if !ValidClaim(source, eventID) then (l, Failed) else
      var (pruned, ok) := PruneIfDue(l, at, fault);
      if !ok || fault == ClaimFailed then (pruned, Failed)
      else Transact(pruned, retention, (source, eventID), at)
  }

  /** A claim is granted exactly when it gets to its row and finds none that outlives it; the row then lasts a retention. */
  lemma ClaimExactly(l: Ledger, retention: nat, source: string, eventID: string, at: int, fault: Fault)
    ensures var (l', o) := Claim(l, retention, source, eventID, at, fault);
      var key, due := (source, eventID), l.nextCleanupAt <= at;
      var reaches := ValidClaim(source, eventID) && fault != ClaimFailed && (due ==> fault == Healthy);
      var stands := key in l.expiry && at < l.expiry[key];
      && (o == Failed <==> !reaches) && (o == Duplicate <==> reaches && stands) && (o == Claimed <==> reaches && !stands)
      && (o == Claimed ==> key in l'.expiry && l'.expiry[key] == at + retention)
      && (forall k :: k in l'.expiry && !(k == key && o == Claimed) ==> k in l.expiry && l'.expiry[k] == l.expiry[k])
      && (forall k :: k in l.expiry && k !in l'.expiry ==> due && l.expiry[k] <= at)
      && (o != Failed && due ==> l'.nextCleanupAt == at + CLEANUP_INTERVAL_MS && forall k :: k in l'.expiry && k != key ==> at < l'.expiry[k])
  {
  }

  /** The claims granted so far, with their times, oldest first. */
  type Grants = seq<(Key, int)>

  /** No two grants of one key lie within one retention period. */
  ghost predicate Spaced(retention: nat, grants: Grants) {
    forall i, j :: 0 <= i < j < |grants| && grants[i].0 == grants[j].0 ==> grants[i].1 + retention <= grants[j].1
  }

  function Granted(grants: Grants, source: string, eventID: string, at: int, outcome: Outcome): Grants {
    if outcome == Claimed then grants + [((source, eventID), at)] else grants
  }

  // ---- Uses of the table at times in any order ----

  /** One use of the table: a claim, or a pruning alone, as the store makes it for feedback. */
  datatype Access = Access(at: int, fault: Fault, claims: bool)

  function Accessed(l: Ledger, retention: nat, key: Key, a: Access): (Ledger, Outcome) {
    if a.claims then Claim(l, retention, key.0, key.1, a.at, a.fault) else (PruneIfDue(l, a.at, a.fault).0, Failed)
  }

  /** What one use does by its time alone: it deletes what has expired by `at`, it gets as far as a row. */
  datatype Mark = Mark(at: int, deletes: bool, grants: bool)

  function MarkAt(next: int, a: Access): Mark {
    Mark(a.at, next <= a.at && a.fault != PruneFailed,
         a.claims && a.fault != ClaimFailed && (next <= a.at ==> a.fault == Healthy))
  }

  /** A malformed claim does not reach the table. */
  function MarkOf(l: Ledger, key: Key, a: Access): Mark {
    if a.claims && !ValidClaim(key.0, key.1) then Mark(a.at, false, false) else MarkAt(l.nextCleanupAt, a)
  }

  /** A claim that returns: it and an earlier one get to their rows, with a pruning past the retention between them. */
  ghost predicate ComesBack(marks: seq<Mark>, retention: nat, i: nat, j: nat, k: nat) {
    i < j < k < |marks| && marks[i].grants && marks[j].deletes && marks[k].grants
    && marks[k].at < marks[i].at + retention <= marks[j].at
  }

  /** No claim returns to within the retention of an earlier one from which a pruning has moved away. */
  ghost predicate NoneComesBack(marks: seq<Mark>, retention: nat) {
    forall i: nat, j: nat, k: nat :: !ComesBack(marks, retention, i, j, k)
  }

  /** The grant was made by one of the claims, and its row stands or that claim's retention has been pruned past. */
  ghost predicate Kept(l: Ledger, retention: nat, g: (Key, int), marks: seq<Mark>) {
    exists i :: 0 <= i < |marks| && marks[i].grants && marks[i].at == g.1 && (Stands(l, retention, g) || PrunedPast(marks, retention, i))
  }

  ghost predicate Stands(l: Ledger, retention: nat, g: (Key, int)) {
    g.0 in l.expiry && g.1 + retention <= l.expiry[g.0]
  }

  ghost predicate PrunedPast(marks: seq<Mark>, retention: nat, i: nat)
    requires i < |marks|
  {
    exists j :: i < j < |marks| && marks[j].deletes && marks[i].at + retention <= marks[j].at
  }

  ghost predicate AllKept(l: Ledger, retention: nat, grants: Grants, marks: seq<Mark>) {
    forall i :: 0 <= i < |grants| ==> Kept(l, retention, grants[i], marks)
  }

  lemma AccessKeepsGrant(l: Ledger, retention: nat, g: (Key, int), marks: seq<Mark>, key: Key, a: Access)
    requires Kept(l, retention, g, marks)
    ensures Kept(Accessed(l, retention, key, a).0, retention, g, marks + [MarkOf(l, key, a)])
  {
    var l', m := Accessed(l, retention, key, a).0, MarkOf(l, key, a);
    var more := marks + [m];
    var i :| 0 <= i < |marks| && marks[i].grants && marks[i].at == g.1 && (Stands(l, retention, g) || PrunedPast(marks, retention, i));
    assert more[i] == marks[i] && more[|marks|] == m;
    if PrunedPast(marks, retention, i) {
      var j :| i < j < |marks| && marks[j].deletes && marks[i].at + retention <= marks[j].at;
      assert more[j] == marks[j];
      assert PrunedPast(more, retention, i);
    } else if !Stands(l', retention, g) {
      assert m.deletes && l.expiry[g.0] <= a.at;
      assert PrunedPast(more, retention, i);
    }
  }

  lemma NewGrantIsSpaced(l: Ledger, retention: nat, g: (Key, int), marks: seq<Mark>, a: Access)
    requires Kept(l, retention, g, marks) && Accessed(l, retention, g.0, a).1 == Claimed
    requires NoneComesBack(marks + [MarkOf(l, g.0, a)], retention)
    ensures g.1 + retention <= a.at
  {
    var m := MarkOf(l, g.0, a);
    var more := marks + [m];
    var i :| 0 <= i < |marks| && marks[i].grants && marks[i].at == g.1 && (Stands(l, retention, g) || PrunedPast(marks, retention, i));
    assert more[i] == marks[i] && more[|marks|] == m && m.grants;
    if PrunedPast(marks, retention, i) {
      var j :| i < j < |marks| && marks[j].deletes && marks[i].at + retention <= marks[j].at;
      assert !ComesBack(more, retention, i, j, |marks|);
    }
  }

  /** While no claim returns, a use of the table at any time keeps the grants spaced, whatever fails. */
  lemma ClaimKeepsSpacing(l: Ledger, retention: nat, grants: Grants, marks: seq<Mark>, key: Key, a: Access)
    requires AllKept(l, retention, grants, marks) && Spaced(retention, grants)
    requires NoneComesBack(marks + [MarkOf(l, key, a)], retention)
    ensures var (l', o) := Accessed(l, retention, key, a);
      AllKept(l', retention, Granted(grants, key.0, key.1, a.at, o), marks + [MarkOf(l, key, a)])
      && Spaced(retention, Granted(grants, key.0, key.1, a.at, o))
  {
    var (l', o) := Accessed(l, retention, key, a);
    var more := marks + [MarkOf(l, key, a)];
    forall i | 0 <= i < |grants| ensures Kept(l', retention, grants[i], more) {
      AccessKeepsGrant(l, retention, grants[i], marks, key, a);
    }
    if o == Claimed {
      assert more[|marks|].grants && Stands(l', retention, (key, a.at));
      forall i | 0 <= i < |grants| && grants[i].0 == key ensures grants[i].1 + retention <= a.at {
        NewGrantIsSpaced(l, retention, grants[i], marks, a);
      }
    }
  }

  /** Prefixes of uses in which none returns have none either. */
  lemma NoneComesBackPrefix(marks: seq<Mark>, m: Mark, retention: nat)
    requires NoneComesBack(marks + [m], retention)
    ensures NoneComesBack(marks, retention)
  {
    forall i: nat, j: nat, k: nat ensures !ComesBack(marks, retention, i, j, k) {
      assert !ComesBack(marks + [m], retention, i, j, k);
    }
  }

  /** The table and the grants after the first `n` uses, the claims among them with the given keys. */
  ghost function After(l: Ledger, retention: nat, uses: seq<Access>, keys: seq<Key>, n: nat): (Ledger, Grants)
    requires n <= |uses| == |keys|
  {
    if n == 0 then (l, []) else
      var (before, grants) := After(l, retention, uses, keys, n - 1);
      var (l', o) := Accessed(before, retention, keys[n - 1], uses[n - 1]);
      (l', Granted(grants, keys[n - 1].0, keys[n - 1].1, uses[n - 1].at, o))
  }

  /** When the table is due for pruning after the first `n` uses; their times and failures alone decide. */
  ghost function DueAfter(next: int, uses: seq<Access>, n: nat): int
    requires n <= |uses|
  {
    if n == 0 then next else NextDue(DueAfter(next, uses, n - 1), uses[n - 1])
  }

  function NextDue(next: int, a: Access): int {
    if next <= a.at && a.fault != PruneFailed && a.fault != PruneInterrupted then a.at + CLEANUP_INTERVAL_MS else next
  }

  ghost function Marks(next: int, uses: seq<Access>): (marks: seq<Mark>)
    ensures |marks| == |uses|
  {
    seq(|uses|, i requires 0 <= i < |uses| => MarkAt(DueAfter(next, uses, i), uses[i]))
  }

  ghost predicate ValidKeys(keys: seq<Key>) { forall i :: 0 <= i < |keys| ==> ValidKey(keys[i]) }

  predicate ValidKey(key: Key) { ValidClaim(key.0, key.1) }

  lemma {:induction false} DueFits(l: Ledger, retention: nat, uses: seq<Access>, keys: seq<Key>, n: nat)
    requires n <= |uses| == |keys| && ValidKeys(keys)
    ensures After(l, retention, uses, keys, n).0.nextCleanupAt == DueAfter(l.nextCleanupAt, uses, n)
  {
    if n > 0 {
      DueFits(l, retention, uses, keys, n - 1);
      assert ValidKey(keys[n - 1]);
    }
  }

  lemma MarkFits(l: Ledger, retention: nat, uses: seq<Access>, keys: seq<Key>, n: nat)
    requires n < |uses| == |keys| && ValidKeys(keys)
    ensures MarkOf(After(l, retention, uses, keys, n).0, keys[n], uses[n]) == Marks(l.nextCleanupAt, uses)[n]
  {
    DueFits(l, retention, uses, keys, n);
    assert ValidKey(keys[n]);
  }

  ghost predicate SpacedAfter(l: Ledger, retention: nat, uses: seq<Access>, keys: seq<Key>, n: nat)
    requires n <= |uses| == |keys|
  {
    var (l', grants) := After(l, retention, uses, keys, n);
    AllKept(l', retention, grants, Marks(l.nextCleanupAt, uses)[..n]) && Spaced(retention, grants)
  }

  lemma UseIsSpaced(l: Ledger, retention: nat, uses: seq<Access>, keys: seq<Key>, n: nat)
    requires n < |uses| == |keys| && ValidKeys(keys) && NoneComesBack(Marks(l.nextCleanupAt, uses)[..n + 1], retention)
    requires SpacedAfter(l, retention, uses, keys, n)
    ensures SpacedAfter(l, retention, uses, keys, n + 1)
  {
    var marks := Marks(l.nextCleanupAt, uses);
    var (before, grants) := After(l, retention, uses, keys, n);
    MarkFits(l, retention, uses, keys, n);
    assert marks[..n + 1] == marks[..n] + [marks[n]];
    ClaimKeepsSpacing(before, retention, grants, marks[..n], keys[n], uses[n]);
  }

  lemma FewerUses(marks: seq<Mark>, retention: nat, n: nat)
    requires 0 < n <= |marks| && NoneComesBack(marks[..n], retention)
    ensures NoneComesBack(marks[..n - 1], retention)
  {
    assert marks[..n] == marks[..n - 1] + [marks[n - 1]];
    NoneComesBackPrefix(marks[..n - 1], marks[n - 1], retention);
  }

  lemma {:induction false} UsesAreSpaced(l: Ledger, retention: nat, uses: seq<Access>, keys: seq<Key>, n: nat)
    requires n <= |uses| == |keys| && ValidKeys(keys) && NoneComesBack(Marks(l.nextCleanupAt, uses)[..n], retention)
    ensures SpacedAfter(l, retention, uses, keys, n)
  {
    if n > 0 {
      FewerUses(Marks(l.nextCleanupAt, uses), retention, n);
      UsesAreSpaced(l, retention, uses, keys, n - 1);
      UseIsSpaced(l, retention, uses, keys, n - 1);
    }
  }

  /** The keys of a run in which only the uses `i` and `k` are of `key`. */
  ghost function TwiceAt(key: Key, other: Key, n: nat, i: nat, k: nat): (keys: seq<Key>)
    ensures |keys| == n
  {
    seq(n, x requires 0 <= x < n => if x == i || x == k then key else other)
  }

  /** A use for another event leaves the row, or deletes it when its retention has been passed. */
  lemma OtherUse(l: Ledger, retention: nat, key: Key, other: Key, a: Access)
    requires other != key && key in Accessed(l, retention, other, a).0.expiry
    ensures key in l.expiry && Accessed(l, retention, other, a).0.expiry[key] == l.expiry[key]
    ensures ValidKey(other) && MarkOf(l, other, a).deletes ==> a.at < l.expiry[key]
  {
  }

  /** A claim that gets as far as its row and finds none is granted. */
  lemma FreshClaim(l: Ledger, retention: nat, key: Key, a: Access)
    requires key !in l.expiry && ValidKey(key) && MarkOf(l, key, a).grants
    ensures Accessed(l, retention, key, a).1 == Claimed
    ensures key in Accessed(l, retention, key, a).0.expiry && Accessed(l, retention, key, a).0.expiry[key] == a.at + retention
  {
  }

  /** Before the claim `i` its event has no row, and none is left once `j` has pruned. */
  lemma {:induction false} RowIsDeleted(
      l: Ledger, retention: nat, uses: seq<Access>, key: Key, other: Key, i: nat, j: nat, k: nat, n: nat)
    requires key != other && key !in l.expiry && ValidKey(key) && ValidKey(other) && n <= k
    requires ComesBack(Marks(l.nextCleanupAt, uses), retention, i, j, k)
    ensures var row := After(l, retention, uses, TwiceAt(key, other, |uses|, i, k), n).0.expiry;
      key in row ==> i < n <= j && row[key] == uses[i].at + retention
  {
    if n > 0 {
      var keys := TwiceAt(key, other, |uses|, i, k);
      RowIsDeleted(l, retention, uses, key, other, i, j, k, n - 1);
      DueFits(l, retention, uses, keys, n - 1);
      var before := After(l, retention, uses, keys, n - 1).0;
      if n - 1 == i {
        FreshClaim(before, retention, key, uses[i]);
      } else if key in After(l, retention, uses, keys, n).0.expiry {
        OtherUse(before, retention, key, other, uses[n - 1]);
      }
    }
  }

  lemma {:induction false} GrantsExtend(l: Ledger, retention: nat, uses: seq<Access>, keys: seq<Key>, m: nat, n: nat)
    requires m <= n <= |uses| == |keys|
    ensures After(l, retention, uses, keys, m).1 <= After(l, retention, uses, keys, n).1
    decreases n
  {
    if m < n { GrantsExtend(l, retention, uses, keys, m, n - 1); }
  }

  /** The claim `n` of `TwiceAt` for `key` is granted when the event has no row. */
  lemma GrantedAt(l: Ledger, retention: nat, uses: seq<Access>, keys: seq<Key>, n: nat)
    requires n < |uses| == |keys| && ValidKeys(keys) && Marks(l.nextCleanupAt, uses)[n].grants
    requires keys[n] !in After(l, retention, uses, keys, n).0.expiry
    ensures |After(l, retention, uses, keys, n).1| < |After(l, retention, uses, keys, |uses|).1|
    ensures After(l, retention, uses, keys, |uses|).1[|After(l, retention, uses, keys, n).1|] == (keys[n], uses[n].at)
  {
    DueFits(l, retention, uses, keys, n);
    assert ValidKey(keys[n]);
    FreshClaim(After(l, retention, uses, keys, n).0, retention, keys[n], uses[n]);
    GrantsExtend(l, retention, uses, keys, n + 1, |uses|);
  }

  /** A claim that returns is granted again: the uses besides it need only be for another event. */
  lemma ReturningBreaksSpacing(l: Ledger, retention: nat, uses: seq<Access>, key: Key, other: Key, i: nat, j: nat, k: nat)
    requires key != other && key !in l.expiry && ValidKey(key) && ValidKey(other)
    requires ComesBack(Marks(l.nextCleanupAt, uses), retention, i, j, k)
    ensures ValidKeys(TwiceAt(key, other, |uses|, i, k))
    ensures !Spaced(retention, After(l, retention, uses, TwiceAt(key, other, |uses|, i, k), |uses|).1)
  {
    var keys := TwiceAt(key, other, |uses|, i, k);
    RowIsDeleted(l, retention, uses, key, other, i, j, k, i);
    RowIsDeleted(l, retention, uses, key, other, i, j, k, k);
    GrantedAt(l, retention, uses, keys, i);
    GrantedAt(l, retention, uses, keys, k);
    GrantedBefore(l, retention, uses, keys, i, k);
    TooClose(After(l, retention, uses, keys, |uses|).1, retention, |After(l, retention, uses, keys, i).1|,
             |After(l, retention, uses, keys, k).1|);
  }

  lemma GrantedBefore(l: Ledger, retention: nat, uses: seq<Access>, keys: seq<Key>, i: nat, k: nat)
    requires i < k < |uses| == |keys| && ValidKeys(keys) && Marks(l.nextCleanupAt, uses)[i].grants
    requires keys[i] !in After(l, retention, uses, keys, i).0.expiry
    ensures |After(l, retention, uses, keys, i).1| < |After(l, retention, uses, keys, k).1|
  {
    GrantsExtend(l, retention, uses, keys, i + 1, k);
    DueFits(l, retention, uses, keys, i);
    assert ValidKey(keys[i]);
    FreshClaim(After(l, retention, uses, keys, i).0, retention, keys[i], uses[i]);
  }

  lemma TooClose(grants: Grants, retention: nat, p: nat, q: nat)
    requires p < q < |grants| && grants[p].0 == grants[q].0 && grants[q].1 < grants[p].1 + retention
    ensures !Spaced(retention, grants)
  {
  }

  /** Any events claimed at these times, with these failures, are granted once a retention exactly when no claim returns. */
  lemma AnyEventsAreSpacedExactly(l: Ledger, retention: nat, uses: seq<Access>, key: Key, other: Key)
    requires key != other && key !in l.expiry && ValidKey(key) && ValidKey(other)
    ensures NoneComesBack(Marks(l.nextCleanupAt, uses), retention) <==>
      forall keys: seq<Key> | |keys| == |uses| && ValidKeys(keys) :: Spaced(retention, After(l, retention, uses, keys, |uses|).1)
  {
    var marks := Marks(l.nextCleanupAt, uses);
    assert marks[..|uses|] == marks;
    if NoneComesBack(marks, retention) {
      forall keys: seq<Key> | |keys| == |uses| && ValidKeys(keys)
        ensures Spaced(retention, After(l, retention, uses, keys, |uses|).1)
      {
        UsesAreSpaced(l, retention, uses, keys, |uses|);
      }
    } else {
      var i: nat, j: nat, k: nat :| ComesBack(marks, retention, i, j, k);
      ReturningBreaksSpacing(l, retention, uses, key, other, i, j, k);
    }
  }

  /** Times that never return into a retention that was left have no claim that comes back; so have times in order. */
  lemma TimesDoNotComeBack(marks: seq<Mark>, retention: nat)
    ensures var times := seq(|marks|, i requires 0 <= i < |marks| => marks[i].at);
      && (NeverReturns(times, retention) ==> NoneComesBack(marks, retention))
      && ((forall i, j :: 0 <= i < j < |marks| ==> times[i] <= times[j]) ==> NoneComesBack(marks, retention))
  {
    var times := seq(|marks|, i requires 0 <= i < |marks| => marks[i].at);
    forall i: nat, j: nat, k: nat | ComesBack(marks, retention, i, j, k) ensures Returns(times, retention, i, j, k) {
    }
  }

  // ---- Pruning and the transaction ----

  /** A pruning that succeeded is not repeated by its own claim, whatever uses come between: one step serves for both. */
  lemma {:induction false} UsesMayComeBetween(
      l: Ledger, retention: nat, uses: seq<Access>, keys: seq<Key>, n: nat, key: Key, at: int, fault: Fault)
    requires n <= |uses| == |keys| && ValidKey(key)
    requires PruneIfDue(l, at, fault).1
    ensures var between := After(PruneIfDue(l, at, fault).0, retention, uses, keys, n).0;
      at < between.nextCleanupAt && Claim(between, retention, key.0, key.1, at, Healthy) == Transact(between, retention, key, at)
  {
    if n > 0 { UsesMayComeBetween(l, retention, uses, keys, n - 1, key, at, fault); }
  }

  /** A grant that a claim at `at` cannot repeat: it has lapsed by then, or its key's row still stands. */
  predicate Guarded(l: Ledger, retention: nat, g: (Key, int), at: int) {
    g.1 + retention <= at || (g.0 in l.expiry && at < l.expiry[g.0])
  }

  /** The claim is well formed and the database gets as far as looking for its row. */
  predicate Proceeds(l: Ledger, source: string, eventID: string, at: int, fault: Fault) {
    ValidClaim(source, eventID) && PruneIfDue(l, at, fault).1 && fault != ClaimFailed
  }

  /** One claim, at any time, keeps the spacing exactly when it fails or all earlier grants of its key are guarded. */
  lemma ClaimKeepsSpacingExactly(
      l: Ledger, retention: nat, grants: Grants, source: string, eventID: string, at: int, fault: Fault)
    requires Spaced(retention, grants)
    ensures Spaced(retention, Granted(grants, source, eventID, at, Claim(l, retention, source, eventID, at, fault).1)) <==>
      (Proceeds(l, source, eventID, at, fault) ==>
        forall i :: 0 <= i < |grants| && grants[i].0 == (source, eventID) ==> Guarded(l, retention, grants[i], at))
  {
    var more := grants + [((source, eventID), at)];
    assert more[|grants|] == ((source, eventID), at);
    if i :| 0 <= i < |grants| && grants[i].0 == (source, eventID) && !Guarded(l, retention, grants[i], at) {
      assert more[i] == grants[i];
    }
  }

  /** At a given time no claim whatever can break the spacing exactly when all grants are guarded. */
  lemma ClaimsAreSafeExactly(l: Ledger, retention: nat, grants: Grants, at: int)
    requires Spaced(retention, grants) && forall i :: 0 <= i < |grants| ==> ValidClaim(grants[i].0.0, grants[i].0.1)
    ensures (forall source, eventID, fault ::
              Spaced(retention, Granted(grants, source, eventID, at, Claim(l, retention, source, eventID, at, fault).1)))
      <==> (forall i :: 0 <= i < |grants| ==> Guarded(l, retention, grants[i], at))
  {
    forall source, eventID, fault
      ensures Spaced(retention, Granted(grants, source, eventID, at, Claim(l, retention, source, eventID, at, fault).1)) <==>
        (Proceeds(l, source, eventID, at, fault) ==>
          forall i :: 0 <= i < |grants| && grants[i].0 == (source, eventID) ==> Guarded(l, retention, grants[i], at))
    {
      ClaimKeepsSpacingExactly(l, retention, grants, source, eventID, at, fault);
    }
    if i :| 0 <= i < |grants| && !Guarded(l, retention, grants[i], at) {
      assert Proceeds(l, grants[i].0.0, grants[i].0.1, at, Healthy);
      assert grants[i].0 == (grants[i].0.0, grants[i].0.1);
    }
  }

  /**
   * Two claims a millisecond apart that reach the table in the other order, as they may because the time is read before
   * the lock is taken: the later one prunes the row that the earlier one needs, and one event is granted twice.
   */
  lemma BackwardClockBreaksSpacing()
    ensures var key, other, r := ("im", "1"), ("im", "2"), RETENTION_MS;
      var (l1, o1) := Claim(Ledger(map[], 0), r, key.0, key.1, 0, Healthy);
      var (l2, o2) := Claim(l1, r, other.0, other.1, r, Healthy);
      var (l3, o3) := Claim(l2, r, key.0, key.1, r - 1, Healthy);
      o1 == o2 == o3 == Claimed && !Spaced(r, [(key, 0), (other, r), (key, r - 1)])
  {
    var key, other, r := ("im", "1"), ("im", "2"), RETENTION_MS;
    var (l1, o1) := Claim(Ledger(map[], 0), r, key.0, key.1, 0, Healthy);
    assert ValidLabel(key.0);
    var (l2, o2) := Claim(l1, r, other.0, other.1, r, Healthy);
    assert other != key by { assert other.1[0] != key.1[0]; }
    assert key !in l2.expiry;
    var gs := [(key, 0), (other, r), (key, r - 1)];
    assert gs[0].0 == gs[2].0 && gs[0].1 + r > gs[2].1;
  }

  /** The SQLite store, seen as its rows and its next cleanup time. */
  class TraceStore {
    var expiry: map<Key, int>
    var nextCleanupAt: int
    const retention: nat

    constructor (retention: nat)
      ensures View() == Ledger(map[], 0) && this.retention == retention
    {
      this.retention := retention;
      expiry := map[];
      nextCleanupAt := 0;
    }

    function View(): Ledger reads this { Ledger(expiry, nextCleanupAt) }

    method DeleteExpired(at: int)
      modifies this`expiry
      ensures expiry == Unexpired(old(expiry), at)
    {
      expiry := map k | k in expiry && at < expiry[k] :: expiry[k];
    }

    method RunPruneIfDue(now: int, fault: Fault) returns (ok: bool)
      modifies this`expiry, this`nextCleanupAt
      ensures (View(), ok) == PruneIfDue(old(View()), now, fault)
    {
      if now < nextCleanupAt { return true; }
      if fault == PruneFailed { return false; }
      DeleteExpired(now);
      if fault == PruneInterrupted { return false; }
      nextCleanupAt := now + CLEANUP_INTERVAL_MS;
      ok := true;
    }

    method ClaimIngress(source: string, eventID: string, at: int, fault: Fault) returns (outcome: Outcome)
      modifies this`expiry, this`nextCleanupAt
      ensures (View(), outcome) == Claim(old(View()), retention, source, eventID, at, fault)
    {
      if !ValidClaim(source, eventID) { return Failed; }
      var ok := RunPruneIfDue(at, fault);
      if !ok || fault == ClaimFailed { return Failed; }
      var k := (source, eventID);
      if k in expiry && expiry[k] <= at { expiry := expiry - {k}; }
      if k in expiry { return Duplicate; }
      assert expiry[k := at + retention] == old(expiry)[k := at + retention]
          || expiry[k := at + retention] == Unexpired(old(expiry), at)[k := at + retention];
      expiry := expiry[k := at + retention];
      outcome := Claimed;
    }
  }
}
