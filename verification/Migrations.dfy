/**
 The migration runner: any number of runners, each with the manifest of its own build, compete for one
 advisory lock, may crash at any point, and apply what their manifest has beyond the ledger.
 */
module Migrations {
  import opened Options
  import opened Sets

  /** The checksum stands for the body: SHA-256 is taken to be injective. */
  datatype Asset = Asset(version: int, name: string, checksum: string)

  type Ledger = map<int, Asset>

  predicate Sorted(m: seq<Asset>) {
    (forall i :: 0 <= i < |m| ==> m[i].version > 0) && (forall i, j :: 0 <= i < j < |m| ==> m[i].version < m[j].version)
  }

  /** The ledger after exactly these assets. */
  function LedgerOf(m: seq<Asset>): Ledger {
    if m == [] then map[] else LedgerOf(m[..|m| - 1])[m[|m| - 1].version := m[|m| - 1]]
  }

  ghost predicate IsPrefix(m: seq<Asset>, ledger: Ledger) {
    exists k :: 0 <= k <= |m| && ledger == LedgerOf(m[..k])
  }

  lemma {:induction false} LedgerHolds(m: seq<Asset>)
    requires Sorted(m)
    ensures forall i :: 0 <= i < |m| ==> m[i].version in LedgerOf(m) && LedgerOf(m)[m[i].version] == m[i]
    ensures forall v :: v in LedgerOf(m) ==> exists i :: 0 <= i < |m| && m[i].version == v
  {
    if m != [] {
      LedgerHolds(m[..|m| - 1]);
      forall v | v in LedgerOf(m) ensures exists i :: 0 <= i < |m| && m[i].version == v {
        if v == m[|m| - 1].version {
          assert m[|m| - 1].version == v;
        } else {
          assert v in LedgerOf(m[..|m| - 1]);
          var i :| 0 <= i < |m| - 1 && m[..|m| - 1][i].version == v;
          assert m[i].version == v;
        }
      }
    }
  }

  lemma {:induction false} InPrefixIff(m: seq<Asset>, k: nat, i: nat)
    requires Sorted(m) && k <= |m| && i < |m|
    ensures m[i].version in LedgerOf(m[..k]) <==> i < k
    ensures i < k ==> LedgerOf(m[..k])[m[i].version] == m[i]
  {
    LedgerHolds(m[..k]);
    if m[i].version in LedgerOf(m[..k]) {
      var j :| 0 <= j < k && m[..k][j].version == m[i].version;
      assert m[j].version == m[i].version;
    }
    if i < k { assert m[..k][i] == m[i]; }
  }

  // ---------- validation ----------

  /** Every row is an asset of the manifest, as the manifest has it. */
  predicate RowKnown(m: seq<Asset>, ledger: Ledger, v: int)
    requires v in ledger
  {
    exists i :: 0 <= i < |m| && m[i].version == v && ledger[v] == m[i]
  }

  ghost predicate RowsKnown(m: seq<Asset>, ledger: Ledger) {
    forall v :: v in ledger ==> RowKnown(m, ledger, v)
  }

  /** No asset below an applied one is missing. */
  ghost predicate NoGap(m: seq<Asset>, ledger: Ledger) {
    forall i, j :: 0 <= i < j < |m| && m[j].version in ledger ==> m[i].version in ledger
  }

  lemma {:induction false} PrefixHasNoGap(m: seq<Asset>, k: nat)
    requires Sorted(m) && k <= |m|
    ensures RowsKnown(m, LedgerOf(m[..k])) && NoGap(m, LedgerOf(m[..k]))
  {
    var ledger := LedgerOf(m[..k]);
    LedgerHolds(m[..k]);
    forall v | v in ledger ensures RowKnown(m, ledger, v) {
      var i :| 0 <= i < k && m[..k][i].version == v;
      assert m[i] == m[..k][i];
    }
    forall i, j | 0 <= i < j < |m| && m[j].version in ledger ensures m[i].version in ledger {
      InPrefixIff(m, k, j);
      InPrefixIff(m, k, i);
    }
  }

  lemma {:induction false} CutIsPrefix(m: seq<Asset>, ledger: Ledger, k: nat)
    requires Sorted(m) && RowsKnown(m, ledger) && k <= |m|
    requires forall i :: 0 <= i < |m| ==> (m[i].version in ledger <==> i < k)
    ensures ledger == LedgerOf(m[..k])
  {
    var prefix := LedgerOf(m[..k]);
    LedgerHolds(m[..k]);
    forall v | v in ledger ensures v in prefix && prefix[v] == ledger[v] {
      assert RowKnown(m, ledger, v);
      var i :| 0 <= i < |m| && m[i].version == v && ledger[v] == m[i];
      InPrefixIff(m, k, i);
    }
    forall v | v in prefix ensures v in ledger {
      var i :| 0 <= i < k && m[..k][i].version == v;
      assert m[i].version == v;
    }
    assert ledger.Keys == prefix.Keys;
  }

  /** How many assets, from the first on, the ledger has before one is missing. */
  lemma {:induction false} NoGapIsPrefix(m: seq<Asset>, ledger: Ledger) returns (k: nat)
    requires Sorted(m) && RowsKnown(m, ledger) && NoGap(m, ledger)
    ensures k <= |m| && ledger == LedgerOf(m[..k])
  {
    k := 0;
    while k < |m| && m[k].version in ledger
      invariant k <= |m| && forall i :: 0 <= i < k ==> m[i].version in ledger
    {
      k := k + 1;
    }
    CutIsPrefix(m, ledger, k);
  }

  lemma {:induction false} PrefixIff(m: seq<Asset>, ledger: Ledger)
    requires Sorted(m)
    ensures IsPrefix(m, ledger) <==> RowsKnown(m, ledger) && NoGap(m, ledger)
  {
    if IsPrefix(m, ledger) {
      var k :| 0 <= k <= |m| && ledger == LedgerOf(m[..k]);
      PrefixHasNoGap(m, k);
    }
    if RowsKnown(m, ledger) && NoGap(m, ledger) {
      var k := NoGapIsPrefix(m, ledger);
    }
  }

  lemma {:induction false} RowKnownIff(m: seq<Asset>, ledger: Ledger, v: int)
    requires Sorted(m) && v in ledger
    ensures RowKnown(m, ledger, v) <==> v in LedgerOf(m) && ledger[v] == LedgerOf(m)[v]
  {
    LedgerHolds(m);
  }

  /** Accepts exactly the ledgers of the first k assets, for some k. */
  method ValidateLedger(m: seq<Asset>, ledger: Ledger) returns (ok: bool)
    requires Sorted(m)
    ensures ok <==> IsPrefix(m, ledger)
  {
    PrefixIff(m, ledger);
    var byVersion: map<int, Asset> := map[];
    for i := 0 to |m|
      invariant byVersion == LedgerOf(m[..i])
    {
      assert m[..i + 1][..i] == m[..i];
      byVersion := byVersion[m[i].version := m[i]];
    }
    assert m[..|m|] == m;
    var highest: int;
    ok, highest := RowsMatch(m, byVersion, ledger);
    if ok {
      ok := NothingMissing(m, ledger, highest);
    }
  }

  /** The first loop of validateLedger, over the rows in any order. */
  method RowsMatch(ghost m: seq<Asset>, byVersion: map<int, Asset>, ledger: Ledger) returns (ok: bool, highest: int)
    requires Sorted(m) && byVersion == LedgerOf(m)
    ensures ok <==> RowsKnown(m, ledger)
    ensures ok ==> (forall v :: v in ledger ==> v <= highest) && (highest == 0 || highest in ledger)
  {
    highest := 0;
    var rest := ledger.Keys;
    while rest != {}
      invariant rest <= ledger.Keys
      invariant forall v :: v in ledger && v !in rest ==> RowKnown(m, ledger, v)
      invariant forall v :: v in ledger && v !in rest ==> v <= highest
      invariant highest == 0 || highest in ledger
      decreases |rest|
    {
      HasMember(rest);
      var v :| v in rest;
      RowKnownIff(m, ledger, v);
      if v !in byVersion || ledger[v] != byVersion[v] {
        return false, highest;
      }
      if v > highest {
        highest := v;
      }
      rest := rest - {v};
    }
    ok := true;
  }

  /** The second loop of validateLedger. */
  method NothingMissing(m: seq<Asset>, ledger: Ledger, highest: int) returns (ok: bool)
    requires Sorted(m) && RowsKnown(m, ledger)
    requires (forall v :: v in ledger ==> v <= highest) && (highest == 0 || highest in ledger)
    ensures ok <==> NoGap(m, ledger)
  {
    for i := 0 to |m|
      invariant forall j :: 0 <= j < i && m[j].version <= highest ==> m[j].version in ledger
    {
      if m[i].version <= highest && m[i].version !in ledger {
        assert RowKnown(m, ledger, highest);
        ghost var j :| 0 <= j < |m| && m[j].version == highest && ledger[highest] == m[j];
        assert i < j && m[j].version in ledger;
        return false;
      }
    }
    ok := true;
  }

  method ValidateAllApplied(m: seq<Asset>, ledger: Ledger) returns (ok: bool)
    requires Sorted(m)
    ensures ok <==> ledger == LedgerOf(m)
  {
    assert m[..|m|] == m;
    ok := ValidateLedger(m, ledger);
    if !ok {
      return;
    }
    ghost var k :| 0 <= k <= |m| && ledger == LedgerOf(m[..k]);
    for i := 0 to |m|
      invariant i <= k
    {
      InPrefixIff(m, k, i);
      if m[i].version !in ledger {
        LedgerHolds(m);
        return false;
      }
    }
  }

  // ---------- loading ----------

  datatype Entry = Entry(name: string, isDir: bool, body: string)

  predicate IsDigit(c: char) { '0' <= c <= '9' }

  predicate IsWordChar(c: char) { IsDigit(c) || 'a' <= c <= 'z' }

  const SUFFIX := ".up.sql"

  predicate HasSuffix(name: string) {
    |name| >= |SUFFIX| && name[|name| - |SUFFIX|..] == SUFFIX
  }

  /** Six digits, an underscore, and lower-case letters, digits, underscores and hyphens before the suffix. */
  predicate ValidName(name: string) {
    && HasSuffix(name) && |name| >= |SUFFIX| + 8
    && (forall i :: 0 <= i < 6 ==> IsDigit(name[i])) && name[6] == '_' && IsWordChar(name[7])
    && (forall i :: 8 <= i < |name| - |SUFFIX| ==> IsWordChar(name[i]) || name[i] == '_' || name[i] == '-')
  }

  function DigitValue(c: char): nat
    requires IsDigit(c)
  {
    (c - '0') as nat
  }

  function ParseDigits(digits: string): nat
    requires forall i :: 0 <= i < |digits| ==> IsDigit(digits[i])
  {
    if digits == [] then 0 else 10 * ParseDigits(digits[..|digits| - 1]) + DigitValue(digits[|digits| - 1])
  }

  /** The entries that loadManifestFromFS does not skip. */
  predicate Candidate(e: Entry) {
    !e.isDir && HasSuffix(e.name)
  }

  function VersionOf(e: Entry): nat
    requires ValidName(e.name)
  {
    ParseDigits(e.name[..6])
  }

  function AssetOf(e: Entry): Asset
    requires ValidName(e.name)
  {
    Asset(VersionOf(e), e.name, e.body)
  }

  predicate Acceptable(e: Entry) {
    ValidName(e.name) && VersionOf(e) > 0
  }

  predicate Clash(e: Entry, f: Entry) {
    Candidate(e) && Candidate(f) && Acceptable(e) && Acceptable(f) && VersionOf(e) == VersionOf(f)
  }

  ghost predicate Comes(entries: seq<Entry>, a: Asset) {
    exists i :: 0 <= i < |entries| && Candidate(entries[i]) && Acceptable(entries[i]) && AssetOf(entries[i]) == a
  }

  /** Every candidate is well named, and no two have one version. */
  ghost predicate Loadable(entries: seq<Entry>) {
    && (forall i :: 0 <= i < |entries| && Candidate(entries[i]) ==> Acceptable(entries[i]))
    && (forall i, j :: 0 <= i < j < |entries| ==> !Clash(entries[i], entries[j]))
  }

  predicate DistinctVersions(m: seq<Asset>) {
    && (forall i :: 0 <= i < |m| ==> m[i].version > 0)
    && (forall i, j :: 0 <= i < j < |m| ==> m[i].version != m[j].version)
  }

  /** The manifest is sorted, and holds exactly the assets of the candidates; it loads unless one of them
      is ill named or two have the same version. */
  method LoadManifest(entries: seq<Entry>) returns (r: Option<seq<Asset>>)
    ensures r.Some? <==> Loadable(entries)
    ensures r.Some? ==> Sorted(r.value) && forall a :: a in r.value <==> Comes(entries, a)
  {
    var manifest: seq<Asset> := [];
    var versions: set<int> := {};
    for k := 0 to |entries|
      invariant Loadable(entries[..k])
      invariant DistinctVersions(manifest)
      invariant forall a :: a in manifest <==> Comes(entries[..k], a)
      invariant versions == VersionsOf(manifest)
    {
      var e := entries[k];
      if Candidate(e) {
        if !ValidName(e.name) || VersionOf(e) == 0 {
          assert !Acceptable(entries[k]);
          return None;
        }
        if VersionOf(e) in versions {
          ghost var i :| 0 <= i < |manifest| && manifest[i].version == VersionOf(e);
          assert Comes(entries[..k], manifest[i]);
          ghost var j :| 0 <= j < k && Candidate(entries[..k][j]) && Acceptable(entries[..k][j])
                         && AssetOf(entries[..k][j]) == manifest[i];
          assert Clash(entries[j], entries[k]);
          return None;
        }
        AddedCandidate(entries, k, manifest);
        OneMoreVersion(manifest, AssetOf(e));
        versions := versions + {VersionOf(e)};
        manifest := manifest + [AssetOf(e)];
      } else {
        SkippedEntry(entries, k);
      }
    }
    assert entries[..|entries|] == entries;
    var sorted := SortByVersion(manifest);
    r := Some(sorted);
  }

  ghost function VersionsOf(m: seq<Asset>): set<int> {
    set i | 0 <= i < |m| :: m[i].version
  }

  lemma OneMoreVersion(m: seq<Asset>, a: Asset)
    ensures VersionsOf(m + [a]) == VersionsOf(m) + {a.version}
  {
    var longer := m + [a];
    assert longer[|m|] == a;
    forall v | v in VersionsOf(m) ensures v in VersionsOf(longer) {
      var i :| 0 <= i < |m| && m[i].version == v;
      assert longer[i].version == v;
    }
  }

  lemma SkippedEntry(entries: seq<Entry>, k: nat)
    requires k < |entries| && !Candidate(entries[k]) && Loadable(entries[..k])
    ensures Loadable(entries[..k + 1]) && forall a :: Comes(entries[..k + 1], a) <==> Comes(entries[..k], a)
  {
    assert entries[..k + 1] == entries[..k] + [entries[k]];
  }

  lemma AddedCandidate(entries: seq<Entry>, k: nat, manifest: seq<Asset>)
    requires k < |entries| && Candidate(entries[k]) && Acceptable(entries[k]) && Loadable(entries[..k])
    requires forall a :: a in manifest <==> Comes(entries[..k], a)
    requires forall i :: 0 <= i < |manifest| ==> manifest[i].version != VersionOf(entries[k])
    ensures Loadable(entries[..k + 1])
    ensures forall a :: Comes(entries[..k + 1], a) <==> Comes(entries[..k], a) || a == AssetOf(entries[k])
  {
    var longer := entries[..k + 1];
    assert longer == entries[..k] + [entries[k]];
    forall i | 0 <= i < k ensures !Clash(longer[i], entries[k]) {
      assert entries[..k][i] == longer[i];
      if Candidate(longer[i]) && Acceptable(longer[i]) { assert Comes(entries[..k], AssetOf(longer[i])); }
    }
    assert longer[k] == entries[k];
    assert Comes(longer, AssetOf(entries[k]));
    forall a | Comes(entries[..k], a) ensures Comes(longer, a) {
      var i :| 0 <= i < k && Candidate(entries[..k][i]) && Acceptable(entries[..k][i]) && AssetOf(entries[..k][i]) == a;
      assert longer[i] == entries[..k][i];
    }
  }

  method SortByVersion(m: seq<Asset>) returns (sorted: seq<Asset>)
    requires DistinctVersions(m)
    ensures Sorted(sorted) && |sorted| == |m| && forall a :: a in sorted <==> a in m
  {
    sorted := [];
    for k := 0 to |m|
      invariant Sorted(sorted) && |sorted| == k && forall a :: a in sorted <==> a in m[..k]
    {
      var i := k;
      while i > 0 && sorted[i - 1].version > m[k].version
        invariant 0 <= i <= k && forall j :: i <= j < k ==> m[k].version < sorted[j].version
      {
        i := i - 1;
      }
      if i > 0 {
        assert sorted[i - 1] in m[..k];
        ghost var j :| 0 <= j < k && m[..k][j] == sorted[i - 1];
        assert m[j].version != m[k].version;
      }
      assert m[..k + 1] == m[..k] + [m[k]];
      InsertedAt(sorted, i, m[k]);
      InsertedHolds(sorted, i, m[k]);
      sorted := sorted[..i] + [m[k]] + sorted[i..];
    }
    assert m[..|m|] == m;
  }

  lemma InsertedAt(sorted: seq<Asset>, i: nat, a: Asset)
    requires Sorted(sorted) && i <= |sorted| && a.version > 0
    requires i > 0 ==> sorted[i - 1].version < a.version
    requires i < |sorted| ==> a.version < sorted[i].version
    ensures Sorted(sorted[..i] + [a] + sorted[i..])
  {
    var r := sorted[..i] + [a] + sorted[i..];
    forall p, q | 0 <= p < q < |r| ensures r[p].version < r[q].version && r[p].version > 0 {
      assert p < i ==> r[p] == sorted[p] && sorted[p].version <= sorted[i - 1].version;
      assert q > i ==> r[q] == sorted[q - 1] && sorted[i].version <= sorted[q - 1].version;
    }
  }

  lemma InsertedHolds(sorted: seq<Asset>, i: nat, a: Asset)
    requires i <= |sorted|
    ensures forall b :: b in sorted[..i] + [a] + sorted[i..] <==> b in sorted || b == a
  {
    assert sorted == sorted[..i] + sorted[i..];
  }

  // ---------- competing runs ----------

  /** Applying(next, seen): at the asset numbered next, with the ledger as read at the start. */
  datatype PC = Waiting | Locked | Applying(next: nat, seen: Ledger) | Finished | Gone

  datatype Runner = Runner(manifest: seq<Asset>, pc: PC)

  /** executed is the history of the bodies that committed. */
  datatype State = State(ledger: Option<Ledger>, lock: Option<int>, runners: map<int, Runner>, executed: seq<Asset>)

  datatype Event =
    | Start(runner: int, manifest: seq<Asset>)
    | Acquire(runner: int)
    | Prepare(runner: int)
    | Apply(runner: int, fails: bool)
    | Crash(runner: int)

  const START := State(None, None, map[], [])

  function Move(s: State, r: int, pc: PC): State
    requires r in s.runners
  {
    s.(runners := s.runners[r := s.runners[r].(pc := pc)])
  }

  /** Ending a session, in whatever way, releases its lock. */
  function Leave(s: State, r: int, pc: PC): State
    requires r in s.runners
  {
    Move(s, r, pc).(lock := if s.lock == Some(r) then None else s.lock)
  }

  /** prepareMigrationLedger: create the ledger, or read it and validate it. */
  ghost function PrepareLedger(s: State, r: int): State
    requires r in s.runners
  {
    match s.ledger
    case None => Move(s, r, Applying(0, map[])).(ledger := Some(map[]))
    case Some(ledger) =>
      if IsPrefix(s.runners[r].manifest, ledger) then Move(s, r, Applying(0, ledger)) else Leave(s, r, Gone)
  }

  /** The body and the row of the next asset are committed. */
  function ExecuteNext(s: State, r: int): State
    requires r in s.runners && s.runners[r].pc.Applying? && s.ledger.Some?
    requires s.runners[r].pc.next < |s.runners[r].manifest|
  {
    var a := s.runners[r].manifest[s.runners[r].pc.next];
    Move(s, r, Applying(s.runners[r].pc.next + 1, s.runners[r].pc.seen)).(
      ledger := Some(s.ledger.value[a.version := a]), executed := s.executed + [a])
  }

  /** One round of applyPendingMigrations, or its return. The body and the ledger row commit together. */
  function ApplyNext(s: State, r: int, fails: bool): State
    requires r in s.runners && s.runners[r].pc.Applying?
  {
    var m, next, seen := s.runners[r].manifest, s.runners[r].pc.next, s.runners[r].pc.seen;
    if next >= |m| then Leave(s, r, Finished)
    else if m[next].version in seen then Move(s, r, Applying(next + 1, seen))
    else if fails || s.ledger.None? || m[next].version in s.ledger.value then Leave(s, r, Gone)
    else ExecuteNext(s, r)
  }

  ghost function Step(s: State, e: Event): State {
    var r := e.runner;
    match e
    case Start(_, manifest) =>
      if r in s.runners || !Sorted(manifest) then s else s.(runners := s.runners[r := Runner(manifest, Waiting)])
    case Acquire(_) =>
      if r in s.runners && s.runners[r].pc.Waiting? && s.lock.None? then Move(s, r, Locked).(lock := Some(r)) else s
    case Prepare(_) => if r in s.runners && s.runners[r].pc.Locked? then PrepareLedger(s, r) else s
    case Apply(_, fails) => if r in s.runners && s.runners[r].pc.Applying? then ApplyNext(s, r, fails) else s
    case Crash(_) => if r in s.runners && !s.runners[r].pc.Finished? then Leave(s, r, Gone) else s
  }

  ghost function Follow(s: State, events: seq<Event>): State {
    if events == [] then s else Step(Follow(s, events[..|events| - 1]), events[|events| - 1])
  }

  // ---------- the invariant ----------

  predicate Working(pc: PC) {
    pc.Locked? || pc.Applying?
  }

  /** The runner read the first k assets in the ledger, and has executed those from k to next. */
  ghost predicate ExecutedSince(m: seq<Asset>, seen: Ledger, next: nat, executed: nat) {
    exists k :: 0 <= k <= executed <= |m| && seen == LedgerOf(m[..k]) && executed == (if next < k then k else next)
  }

  lemma ExecutedOneMore(m: seq<Asset>, seen: Ledger, next: nat)
    requires ExecutedSince(m, seen, next, next) && next < |m|
    ensures ExecutedSince(m, seen, next + 1, next + 1)
  {
  }

  /** A working runner's manifest starts with what has been executed. */
  ghost predicate GoodRunner(s: State, r: Runner) {
    && Sorted(r.manifest)
    && (r.pc.Applying? ==>
          && s.ledger.Some? && r.pc.next <= |r.manifest|
          && |s.executed| <= |r.manifest| && s.executed == r.manifest[..|s.executed|]
          && ExecutedSince(r.manifest, r.pc.seen, r.pc.next, |s.executed|))
  }

  ghost predicate Good(s: State) {
    && Sorted(s.executed)
    && (s.ledger.Some? ==> s.ledger.value == LedgerOf(s.executed))
    && (s.ledger.None? ==> s.executed == [])
    && (forall r :: r in s.runners ==> GoodRunner(s, s.runners[r]) && (Working(s.runners[r].pc) <==> s.lock == Some(r)))
    && (s.lock.Some? ==> s.lock.value in s.runners)
    && (s.executed == [] || exists r :: r in s.runners && s.executed <= s.runners[r].manifest)
  }

  lemma PreparedIsGood(s: State, r: int)
    requires Good(s) && r in s.runners && s.runners[r].pc.Locked?
    ensures Good(PrepareLedger(s, r))
  {
    var m := s.runners[r].manifest;
    var t := PrepareLedger(s, r);
    assert GoodRunner(s, s.runners[r]);
    if s.ledger.None? {
      assert m[..0] == [];
      assert GoodRunner(t, t.runners[r]);
    } else if IsPrefix(m, s.ledger.value) {
      var k :| 0 <= k <= |m| && s.ledger.value == LedgerOf(m[..k]);
      SameLedgerSameAssets(s.executed, m[..k]);
      assert GoodRunner(t, t.runners[r]);
    }
  }

  lemma {:induction false} LedgerIsEmpty(m: seq<Asset>)
    ensures m == [] <==> LedgerOf(m) == map[]
  {
    if m != [] { assert m[|m| - 1].version in LedgerOf(m); }
  }

  lemma {:induction false} LastIsHighest(m: seq<Asset>)
    requires Sorted(m) && m != []
    ensures var v := m[|m| - 1].version;
            && v in LedgerOf(m) && LedgerOf(m)[v] == m[|m| - 1]
            && (forall w :: w in LedgerOf(m) ==> w <= v)
  {
    LedgerHolds(m);
  }

  lemma {:induction false} DropLast(m: seq<Asset>)
    requires Sorted(m) && m != []
    ensures LedgerOf(m[..|m| - 1]) == LedgerOf(m) - {m[|m| - 1].version}
  {
    InPrefixIff(m, |m| - 1, |m| - 1);
    var a, b := LedgerOf(m[..|m| - 1]), LedgerOf(m) - {m[|m| - 1].version};
    assert a.Keys == b.Keys;
  }

  /** The ledger determines the sequence of assets. */
  lemma {:induction false} SameLedgerSameAssets(a: seq<Asset>, b: seq<Asset>)
    requires Sorted(a) && Sorted(b) && LedgerOf(a) == LedgerOf(b)
    ensures a == b
  {
    LedgerIsEmpty(a);
    LedgerIsEmpty(b);
    if a != [] {
      LastIsHighest(a);
      LastIsHighest(b);
      var x, y := a[|a| - 1], b[|b| - 1];
      assert x.version == y.version;
      DropLast(a);
      DropLast(b);
      SameLedgerSameAssets(a[..|a| - 1], b[..|b| - 1]);
      assert a == a[..|a| - 1] + [x] && b == b[..|b| - 1] + [y];
    }
  }

  lemma LeftIsGood(s: State, r: int, pc: PC)
    requires Good(s) && r in s.runners && !Working(pc)
    ensures Good(Leave(s, r, pc))
  {
  }

  lemma {:induction false} AppendedLedger(executed: seq<Asset>, a: Asset)
    requires Sorted(executed + [a])
    ensures LedgerOf(executed + [a]) == LedgerOf(executed)[a.version := a]
    ensures a.version !in LedgerOf(executed)
  {
    var all := executed + [a];
    assert all[..|all| - 1] == executed;
    InPrefixIff(all, |executed|, |executed|);
  }

  /** A round finds the next asset in the ledger it read, or it has already been executed, or it is the next
      one to execute. */
  lemma {:induction false} RoundIsNext(s: State, r: int)
    requires Good(s) && r in s.runners && s.runners[r].pc.Applying? && s.runners[r].pc.next < |s.runners[r].manifest|
    ensures var m, next := s.runners[r].manifest, s.runners[r].pc.next;
            if m[next].version in s.runners[r].pc.seen then next < |s.executed|
            else next == |s.executed| && m[next].version !in s.ledger.value
  {
    var m, next, seen := s.runners[r].manifest, s.runners[r].pc.next, s.runners[r].pc.seen;
    assert GoodRunner(s, s.runners[r]);
    var k :| 0 <= k <= |s.executed| <= |m| && seen == LedgerOf(m[..k])
             && |s.executed| == (if next < k then k else next);
    InPrefixIff(m, k, next);
    if next == |s.executed| { InPrefixIff(m, next, next); }
  }

  lemma {:induction false} SkippedIsGood(s: State, r: int)
    requires Good(s) && r in s.runners && s.runners[r].pc.Applying? && s.runners[r].pc.next < |s.executed|
    ensures Good(Move(s, r, Applying(s.runners[r].pc.next + 1, s.runners[r].pc.seen)))
  {
    var t := Move(s, r, Applying(s.runners[r].pc.next + 1, s.runners[r].pc.seen));
    assert GoodRunner(s, s.runners[r]);
    assert GoodRunner(t, t.runners[r]);
    if s.executed != [] {
      var q :| q in s.runners && s.executed <= s.runners[q].manifest;
      assert q in t.runners && t.executed <= t.runners[q].manifest;
    }
  }

  ghost predicate ExecutesNext(s: State, r: int) {
    && Good(s) && r in s.runners && s.runners[r].pc.Applying? && s.ledger.Some?
    && s.runners[r].pc.next == |s.executed| < |s.runners[r].manifest|
  }

  lemma {:induction false} ExecutedMatches(s: State, r: int)
    requires ExecutesNext(s, r)
    ensures var t := ExecuteNext(s, r);
            && t.executed == s.runners[r].manifest[..|s.executed| + 1] && Sorted(t.executed)
            && t.ledger == Some(LedgerOf(t.executed))
  {
    var m := s.runners[r].manifest;
    assert GoodRunner(s, s.runners[r]);
    assert s.executed + [m[|s.executed|]] == m[..|s.executed| + 1];
    AppendedLedger(s.executed, m[|s.executed|]);
  }

  lemma {:induction false} ExecutorIsGood(s: State, r: int, t: State)
    requires ExecutesNext(s, r) && t == ExecuteNext(s, r)
    ensures r in t.runners && GoodRunner(t, t.runners[r])
  {
    var m, next := s.runners[r].manifest, s.runners[r].pc.next;
    assert GoodRunner(s, s.runners[r]);
    ExecutedMatches(s, r);
    ExecutedOneMore(m, s.runners[r].pc.seen, next);
  }

  lemma {:induction false} OthersWait(s: State, r: int, t: State, q: int)
    requires ExecutesNext(s, r) && t == ExecuteNext(s, r) && q in t.runners && q != r
    ensures GoodRunner(t, t.runners[q]) && !Working(t.runners[q].pc)
  {
    assert GoodRunner(s, s.runners[q]);
  }

  lemma {:induction false} ExecutedIsGood(s: State, r: int)
    requires ExecutesNext(s, r)
    ensures Good(ExecuteNext(s, r))
  {
    var t := ExecuteNext(s, r);
    ExecutedMatches(s, r);
    ExecutorIsGood(s, r, t);
    forall q | q in t.runners ensures GoodRunner(t, t.runners[q]) && (Working(t.runners[q].pc) <==> t.lock == Some(q)) {
      if q != r { OthersWait(s, r, t, q); }
    }
    assert t.executed <= t.runners[r].manifest;
  }

  /** What a round does, in terms of what has been executed. */
  lemma {:induction false} RoundDoes(s: State, r: int, fails: bool)
    requires Good(s) && r in s.runners && s.runners[r].pc.Applying?
    ensures var m, next, seen := s.runners[r].manifest, s.runners[r].pc.next, s.runners[r].pc.seen;
            var t := ApplyNext(s, r, fails);
            if next >= |m| then t == Leave(s, r, Finished)
            else if m[next].version in seen then next < |s.executed| && t == Move(s, r, Applying(next + 1, seen))
            else next == |s.executed| && s.ledger.Some? && t == if fails then Leave(s, r, Gone) else ExecuteNext(s, r)
  {
    assert GoodRunner(s, s.runners[r]);
    if s.runners[r].pc.next < |s.runners[r].manifest| { RoundIsNext(s, r); }
  }

  lemma {:induction false} AppliedIsGood(s: State, r: int, fails: bool)
    requires Good(s) && r in s.runners && s.runners[r].pc.Applying?
    ensures Good(ApplyNext(s, r, fails))
  {
    var m, next := s.runners[r].manifest, s.runners[r].pc.next;
    RoundDoes(s, r, fails);
    if next >= |m| {
      LeftIsGood(s, r, Finished);
    } else if m[next].version in s.runners[r].pc.seen {
      SkippedIsGood(s, r);
    } else if fails {
      LeftIsGood(s, r, Gone);
    } else {
      ExecutedIsGood(s, r);
    }
  }

  lemma StartedIsGood(s: State, r: int, manifest: seq<Asset>)
    requires Good(s) && r !in s.runners && Sorted(manifest)
    ensures Good(s.(runners := s.runners[r := Runner(manifest, Waiting)]))
  {
    var t := s.(runners := s.runners[r := Runner(manifest, Waiting)]);
    if s.executed != [] {
      var q :| q in s.runners && s.executed <= s.runners[q].manifest;
      assert q in t.runners && t.executed <= t.runners[q].manifest;
    }
  }

  lemma AcquiredIsGood(s: State, r: int)
    requires Good(s) && r in s.runners && s.runners[r].pc.Waiting? && s.lock.None?
    ensures Good(Move(s, r, Locked).(lock := Some(r)))
  {
    var t := Move(s, r, Locked).(lock := Some(r));
    forall q | q in t.runners ensures GoodRunner(t, t.runners[q]) && (Working(t.runners[q].pc) <==> t.lock == Some(q)) {
      assert q in s.runners && GoodRunner(s, s.runners[q]);
    }
    if s.executed != [] {
      var q :| q in s.runners && s.executed <= s.runners[q].manifest;
      assert q in t.runners && t.executed <= t.runners[q].manifest;
    }
  }

  lemma StepKeepsGood(s: State, e: Event)
    requires Good(s)
    ensures Good(Step(s, e))
  {
    var r := e.runner;
    if e.Start? {
      if r !in s.runners && Sorted(e.manifest) { StartedIsGood(s, r, e.manifest); }
    } else if e.Acquire? {
      if r in s.runners && s.runners[r].pc.Waiting? && s.lock.None? { AcquiredIsGood(s, r); }
    } else if e.Prepare? {
      if r in s.runners && s.runners[r].pc.Locked? { PreparedIsGood(s, r); }
    } else if e.Apply? {
      if r in s.runners && s.runners[r].pc.Applying? { AppliedIsGood(s, r, e.fails); }
    } else if r in s.runners && !s.runners[r].pc.Finished? {
      LeftIsGood(s, r, Gone);
    }
  }

  lemma {:induction false} FollowIsGood(s: State, events: seq<Event>)
    requires Good(s)
    ensures Good(Follow(s, events))
  {
    if events != [] {
      FollowIsGood(s, events[..|events| - 1]);
      StepKeepsGood(Follow(s, events[..|events| - 1]), events[|events| - 1]);
    }
  }

  // ---------- what holds in every run ----------

  /** The bodies that ever committed did so in order of version, each once, and the ledger is exactly
      theirs; they start the manifest of some runner, so of any list that all manifests start. */
  lemma EveryRun(events: seq<Event>, all: seq<Asset>)
    requires forall k :: 0 <= k < |events| && events[k].Start? ==> events[k].manifest <= all
    ensures var s := Follow(START, events);
            && Sorted(s.executed)
            && (if s.ledger.None? then s.executed == [] else s.ledger.value == LedgerOf(s.executed))
            && s.executed <= all
  {
    FollowIsGood(START, events);
    ManifestsStart(events, all);
    var s := Follow(START, events);
    if s.executed != [] {
      var r :| r in s.runners && s.executed <= s.runners[r].manifest;
      assert s.runners[r].manifest <= all;
    }
  }

  lemma StepManifests(s: State, e: Event)
    ensures forall r :: r in Step(s, e).runners ==>
              (if r in s.runners then Step(s, e).runners[r].manifest == s.runners[r].manifest
               else e.Start? && Step(s, e).runners[r].manifest == e.manifest)
  {
  }

  ghost predicate AllStart(s: State, all: seq<Asset>) {
    forall r :: r in s.runners ==> s.runners[r].manifest <= all
  }

  lemma {:induction false} ManifestsStart(events: seq<Event>, all: seq<Asset>)
    requires forall k :: 0 <= k < |events| && events[k].Start? ==> events[k].manifest <= all
    ensures AllStart(Follow(START, events), all)
  {
    if events != [] {
      var e := events[|events| - 1];
      ManifestsStart(events[..|events| - 1], all);
      assert e.Start? ==> e.manifest <= all;
      StepManifests(Follow(START, events[..|events| - 1]), e);
    }
  }

  lemma StepGrows(s: State, e: Event)
    ensures s.executed <= Step(s, e).executed
  {
  }

  /** What was executed is never taken back, executed again or preceded by something executed later. */
  lemma {:induction false} ExecutedGrows(s: State, more: seq<Event>)
    requires Good(s)
    ensures var t := Follow(s, more);
            && s.executed <= t.executed
            && forall j, k :: 0 <= j < |s.executed| <= k < |t.executed| ==>
                 s.executed[j].version < t.executed[k].version
  {
    if more != [] {
      var before := more[..|more| - 1];
      ExecutedGrows(s, before);
      StepGrows(Follow(s, before), more[|more| - 1]);
    }
    FollowIsGood(s, more);
  }

  /** A run that completes leaves the database at exactly its manifest: its check of all assets passes,
      and everything in its manifest has been executed, by it or by runs before it. */
  lemma CompletedRun(s: State, e: Event, r: int)
    requires Good(s) && r in s.runners && !s.runners[r].pc.Finished?
    requires r in Step(s, e).runners && Step(s, e).runners[r].pc.Finished?
    ensures Step(s, e).executed == s.runners[r].manifest
    ensures Step(s, e).ledger == Some(LedgerOf(s.runners[r].manifest))
  {
    assert GoodRunner(s, s.runners[r]);
  }

  /** A crash lets go of the lock, and leaves ledger and database as they are. */
  lemma CrashReleases(s: State, r: int)
    requires Good(s) && s.lock == Some(r)
    ensures var t := Step(s, Crash(r));
            t.lock.None? && t.executed == s.executed && t.ledger == s.ledger && r in t.runners && t.runners[r].pc.Gone?
  {
    assert r in s.runners && Working(s.runners[r].pc);
  }

  // ---------- a runner alone ----------

  /** n rounds of one runner, none of which fails. */
  ghost function Rounds(s: State, r: int, n: nat): State {
    if n == 0 then s else Step(Rounds(s, r, n - 1), Apply(r, false))
  }

  /** The runner is at its n-th asset, and the first n have been executed, by it or before. */
  ghost predicate IsAt(t: State, r: int, m: seq<Asset>, n: nat, seen: Ledger, before: nat) {
    && r in t.runners && t.runners[r] == Runner(m, Applying(n, seen)) && n <= |m| && before <= |m|
    && t.executed <= m && |t.executed| == if n < before then before else n
  }

  lemma {:induction false} NextIsAt(t: State, r: int, m: seq<Asset>, n: nat, seen: Ledger, before: nat)
    returns (u: State)
    requires Good(t) && IsAt(t, r, m, n, seen, before) && n < |m|
    ensures u == Step(t, Apply(r, false)) && Good(u) && IsAt(u, r, m, n + 1, seen, before)
  {
    u := Step(t, Apply(r, false));
    StepKeepsGood(t, Apply(r, false));
    RoundDoes(t, r, false);
  }

  /** After n rounds the first n assets have been executed, by it or before. */
  lemma {:induction false} RoundsInOrder(s: State, r: int, m: seq<Asset>, n: nat, seen: Ledger, before: nat)
    returns (t: State)
    requires Good(s) && IsAt(s, r, m, 0, seen, before) && n <= |m|
    ensures t == Rounds(s, r, n) && Good(t) && IsAt(t, r, m, n, seen, before)
  {
    if n == 0 {
      t := s;
    } else {
      var u := RoundsInOrder(s, r, m, n - 1, seen, before);
      t := NextIsAt(u, r, m, n - 1, seen, before);
    }
  }

  /** The end of a runner that has come through its manifest. */
  lemma {:induction false} LastFinishes(t: State, r: int, m: seq<Asset>, seen: Ledger, before: nat) returns (u: State)
    requires Good(t) && IsAt(t, r, m, |m|, seen, before)
    ensures u == Step(t, Apply(r, false)) && r in u.runners && u.lock.None? && u.runners[r].pc.Finished?
    ensures u.executed == m && u.ledger == Some(LedgerOf(m))
  {
    u := Step(t, Apply(r, false));
    assert GoodRunner(t, t.runners[r]);
    RoundDoes(t, r, false);
  }

  lemma {:induction false} RoundsComplete(s: State, r: int, m: seq<Asset>, seen: Ledger, before: nat) returns (u: State)
    requires Good(s) && IsAt(s, r, m, 0, seen, before)
    ensures u == Rounds(s, r, |m| + 1) && r in u.runners && u.lock.None? && u.runners[r].pc.Finished?
    ensures u.executed == m && u.ledger == Some(LedgerOf(m))
  {
    var t := RoundsInOrder(s, r, m, |m|, seen, before);
    u := LastFinishes(t, r, m, seen, before);
  }

  lemma {:induction false} PreparedAlone(s: State, r: int) returns (u: State)
    requires Good(s) && r in s.runners && s.runners[r].pc.Waiting? && s.lock.None?
    ensures u == Step(Step(s, Acquire(r)), Prepare(r)) && Good(u)
    ensures var m := s.runners[r].manifest;
            if s.executed <= m then u.ledger.Some? && IsAt(u, r, m, 0, u.ledger.value, |s.executed|)
            else
              && r in u.runners && u.lock.None? && u.runners[r].pc.Gone?
              && u.executed == s.executed && u.ledger == s.ledger
  {
    var m := s.runners[r].manifest;
    var locked := Step(s, Acquire(r));
    StepKeepsGood(s, Acquire(r));
    u := Step(locked, Prepare(r));
    StepKeepsGood(locked, Prepare(r));
    assert GoodRunner(locked, locked.runners[r]);
    if s.ledger.Some? { PrefixOfExecuted(m, s.executed); }
  }

  /** A runner that gets the lock and meets no failure finishes with exactly its manifest executed, if what has been
      executed starts it; otherwise it gives up, changes nothing and lets go of the lock. */
  lemma {:induction false} RunnerAlone(s: State, r: int)
    requires Good(s) && r in s.runners && s.runners[r].pc.Waiting? && s.lock.None?
    ensures var m := s.runners[r].manifest;
            var t := Rounds(Step(Step(s, Acquire(r)), Prepare(r)), r, |m| + 1);
            && r in t.runners && t.lock.None?
            && if s.executed <= m then t.runners[r].pc.Finished? && t.executed == m && t.ledger == Some(LedgerOf(m))
               else t.runners[r].pc.Gone? && t.executed == s.executed && t.ledger == s.ledger
  {
    var m := s.runners[r].manifest;
    var u := PreparedAlone(s, r);
    if s.executed <= m {
      var t := RoundsComplete(u, r, m, u.ledger.value, |s.executed|);
    } else {
      GoneStaysGone(u, r, |m| + 1);
    }
  }

  lemma {:induction false} GoneStaysGone(s: State, r: int, n: nat)
    requires r in s.runners && s.runners[r].pc.Gone?
    ensures Rounds(s, r, n) == s
  {
    if n > 0 { GoneStaysGone(s, r, n - 1); }
  }

  // ---------- one run, with the lock held ----------

  class Database {
    var ledger: Option<Ledger>
    var executed: seq<Asset>

    /** The ledger records what was executed. */
    ghost predicate Valid()
      reads this
    {
      && Sorted(executed)
      && (ledger.Some? ==> ledger.value == LedgerOf(executed))
      && (ledger.None? ==> executed == [])
    }

    method PrepareMigrationLedger(m: seq<Asset>) returns (seen: Option<Ledger>)
      requires Valid() && Sorted(m)
      modifies this`ledger
      ensures Valid() && seen.Some? == (executed <= m)
      ensures seen.Some? ==> ledger == seen
      ensures seen.None? ==> ledger == old(ledger)
    {
      if ledger.None? {
        ledger := Some(map[]);
        return Some(map[]);
      }
      var ok := ValidateLedger(m, ledger.value);
      PrefixOfExecuted(m, executed);
      seen := if ok then ledger else None;
    }

    /** The body and the row commit together, or neither does; any body may fail. */
    method ApplyMigration(asset: Asset) returns (ok: bool)
      requires Valid() && ledger.Some? && Sorted(executed + [asset])
      modifies this
      ensures Valid() && ledger.Some?
      ensures executed == old(executed) + (if ok then [asset] else [])
    {
      var fails: bool := *;
      AppendedLedger(executed, asset);
      if fails || asset.version in ledger.value {
        return false;
      }
      ledger := Some(ledger.value[asset.version := asset]);
      executed := executed + [asset];
      ok := true;
    }

    /** The assets that the ledger, as read before, does not have, in order, until one fails. */
    method ApplyPendingMigrations(m: seq<Asset>, seen: Ledger) returns (ok: bool)
      requires Valid() && Sorted(m) && executed <= m && ledger == Some(seen)
      modifies this
      ensures Valid() && old(executed) <= executed <= m
      ensures ok ==> executed == m
    {
      ghost var before := executed;
      assert before == m[..|before|];
      for i := 0 to |m|
        invariant Valid() && ledger.Some? && before <= executed <= m
        invariant |executed| == if i < |before| then |before| else i
      {
        InPrefixIff(m, |before|, i);
        if m[i].version !in seen {
          assert executed + [m[i]] == m[..i + 1];
          var applied := ApplyMigration(m[i]);
          if !applied {
            return false;
          }
        }
      }
      ok := true;
    }

    method RunMigrations(m: seq<Asset>) returns (ok: bool)
      requires Valid() && Sorted(m)
      modifies this
      ensures Valid() && old(executed) <= executed
      ensures ok ==> executed == m
      ensures if old(executed) <= m then executed <= m else !ok && executed == old(executed) && ledger == old(ledger)
    {
      var seen := PrepareMigrationLedger(m);
      if seen.None? {
        return false;
      }
      ok := ApplyPendingMigrations(m, seen.value);
    }
  }

  lemma PrefixOfExecuted(m: seq<Asset>, executed: seq<Asset>)
    requires Sorted(m) && Sorted(executed)
    ensures IsPrefix(m, LedgerOf(executed)) <==> executed <= m
  {
    if IsPrefix(m, LedgerOf(executed)) {
      var k :| 0 <= k <= |m| && LedgerOf(executed) == LedgerOf(m[..k]);
      SameLedgerSameAssets(executed, m[..k]);
    }
    if executed <= m {
      assert executed == m[..|executed|];
    }
  }
}
