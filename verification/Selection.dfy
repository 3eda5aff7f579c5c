/** From a catalog in any order to sorted records, the selected keys, the two fingerprints and
    the order in which the bindings of a record are attempted. */
module Selection {
  import opened Options
  import opened Order

  datatype SourceRef = SourceRef(
    url: string, kind: string, edition: string, version: string, hash: string, parser: string)

  /** A source to observe; `transport` stands for how its bytes are read. */
  datatype Observation = Observation(role: string, ref: SourceRef, transport: string)

  datatype Entry = Entry(
    rawKey: string, ref: SourceRef, transport: string, comparison: string,
    observations: seq<Observation>)

  datatype Record = Record(
    key: string, ref: SourceRef, transport: string, comparison: string,
    observations: seq<Observation>)

  datatype Binding = Binding(role: string, ref: SourceRef, transport: string, primary: bool)

  const OFFICIAL_LIVE := "official-live"
  const OFFICIAL_SNAPSHOT := "official-snapshot"
  const MAX_SELECTED: int := 100

  predicate IsOfficial(ref: SourceRef) {
    ref.kind == OFFICIAL_LIVE || ref.kind == OFFICIAL_SNAPSHOT
  }

  // ------------------------------------------------------------- observations

  /** Only the three published roles, and "official" only for an official source. */
  predicate RoleAllowed(o: Observation) {
    o.role == "fallback" || o.role == "evidence" || (o.role == "official" && IsOfficial(o.ref))
  }

  /** An official source is given the official role whatever the caller wrote. */
  function WithRole(o: Observation): Observation {
    if IsOfficial(o.ref) then o.(role := "official") else o
  }

  /** What tells two sources apart. */
  datatype Identity = Identity(kind: string, hash: string, url: string)

  function IdentityOf(ref: SourceRef): Identity {
    Identity(ref.kind, ref.hash, ref.url)
  }

  const OBSERVATION_KEY: Observation -> Key := (o: Observation) =>
    [o.role, o.ref.url, o.ref.kind, o.ref.edition, o.ref.version, o.ref.hash, o.ref.parser]

  function Roles(os: seq<Observation>): seq<Observation> {
    Map(WithRole, os)
  }

  /** Every identity of the entry, its own included, occurs once. */
  ghost predicate DistinctSources(ref: SourceRef, os: seq<Observation>) {
    && (forall i | 0 <= i < |os| :: IdentityOf(os[i].ref) != IdentityOf(ref))
    && (forall i, j | 0 <= i < j < |os| :: IdentityOf(os[i].ref) != IdentityOf(os[j].ref))
  }

  ghost predicate EntryAllowed(e: Entry, normalize: string -> Option<string>) {
    && normalize(e.rawKey).Some?
    && (forall o | o in e.observations :: RoleAllowed(o))
    && DistinctSources(e.ref, e.observations)
  }

  function RecordOf(e: Entry, normalize: string -> Option<string>): Record {
    var key := normalize(e.rawKey);
    Record(if key.Some? then key.value else "", e.ref, e.transport, e.comparison,
           SortBy(Roles(e.observations), OBSERVATION_KEY))
  }

  ghost predicate CatalogAllowed(entries: seq<Entry>, normalize: string -> Option<string>) {
    && (forall e | e in entries :: EntryAllowed(e, normalize))
    && forall i, j | 0 <= i < j < |entries| ::
         normalize(entries[i].rawKey) != normalize(entries[j].rawKey)
  }

  function RecordsOf(entries: seq<Entry>, normalize: string -> Option<string>): seq<Record> {
    Map((e: Entry) => RecordOf(e, normalize), entries)
  }

  // ---------------------------------------------------------------- preflight

  datatype FingerprintRecord = FingerprintRecord(
    key: string, ref: SourceRef, observations: seq<(string, SourceRef)>)

  datatype CatalogPreimage = CatalogPreimage(
    catalogId: string, corpus: string, records: seq<FingerprintRecord>)

  datatype RunPreimage = RunPreimage(
    catalogId: string, corpus: string, catalogFingerprint: string, limit: int, pins: string,
    comparisons: seq<(string, string)>)

  /** The key normalization and the two hashes. */
  datatype World = World(
    normalize: string -> Option<string>,
    hashCatalog: CatalogPreimage -> string,
    hashRun: RunPreimage -> string)

  datatype Preflight = Preflight(
    records: seq<Record>, selected: seq<Record>, catalogFingerprint: string, runFingerprint: string)

  const RECORD_KEY: Record -> Key := (r: Record) => [r.key]

  function Fingerprint(r: Record): FingerprintRecord {
    FingerprintRecord(r.key, r.ref,
      seq(|r.observations|, i requires 0 <= i < |r.observations| =>
        (r.observations[i].role, r.observations[i].ref)))
  }

  function PreflightOf(
      w: World, catalogId: string, corpus: string, pins: string, limit: int, records: seq<Record>)
    : Preflight
    requires 1 <= limit <= MAX_SELECTED
  {
    var sorted := SortBy(records, RECORD_KEY);
    var catalogFingerprint := w.hashCatalog(CatalogPreimage(catalogId, corpus,
      seq(|sorted|, i requires 0 <= i < |sorted| => Fingerprint(sorted[i]))));
    var runFingerprint := w.hashRun(RunPreimage(catalogId, corpus, catalogFingerprint, limit, pins,
      seq(|sorted|, i requires 0 <= i < |sorted| => (sorted[i].key, sorted[i].comparison))));
    Preflight(sorted, sorted[..if limit < |sorted| then limit else |sorted|],
              catalogFingerprint, runFingerprint)
  }

  /** None when the catalog or the limit is refused. */
  ghost function Preflighted(
      w: World, catalogId: string, corpus: string, pins: string, limit: int, entries: seq<Entry>)
    : Option<Preflight>
  {
    if 1 <= limit <= MAX_SELECTED && CatalogAllowed(entries, w.normalize)
    then Some(PreflightOf(w, catalogId, corpus, pins, limit, RecordsOf(entries, w.normalize)))
    else None
  }

  // ------------------------------------------------------- the imperative form

  function Identities(ref: SourceRef, os: seq<Observation>): set<Identity> {
    {IdentityOf(ref)} + set o | o in os :: IdentityOf(o.ref)
  }

  /** A further source is distinct exactly when its identity is new. */
  lemma DistinctAppend(ref: SourceRef, os: seq<Observation>, o: Observation)
    ensures Identities(ref, os + [o]) == Identities(ref, os) + {IdentityOf(o.ref)}
    ensures DistinctSources(ref, os + [o]) <==>
      DistinctSources(ref, os) && IdentityOf(o.ref) !in Identities(ref, os)
  {
    var more := os + [o];
    assert more[|os|] == o;
    if DistinctSources(ref, more) {
      forall i | 0 <= i < |os| ensures IdentityOf(os[i].ref) !in {IdentityOf(ref), IdentityOf(o.ref)} {
        assert more[i] == os[i];
      }
      forall i, j | 0 <= i < j < |os| ensures IdentityOf(os[i].ref) != IdentityOf(os[j].ref) {
        assert more[i] == os[i] && more[j] == os[j];
      }
    }
  }

  lemma NoSources(ref: SourceRef)
    ensures DistinctSources(ref, []) && Identities(ref, []) == {IdentityOf(ref)} && Roles([]) == []
  {
  }

  /** Parse, check and sort the observations of an entry. */
  method ReadObservations(ref: SourceRef, raw: seq<Observation>)
    returns (observations: Option<seq<Observation>>)
    ensures observations.Some? <==> (forall o | o in raw :: RoleAllowed(o)) && DistinctSources(ref, raw)
    ensures observations.Some? ==> observations.value == SortBy(Roles(raw), OBSERVATION_KEY)
  {
    hide DistinctSources, Identities, RoleAllowed;
    var read: seq<Observation> := [];
    var seen := {IdentityOf(ref)};
    var distinct := true;
    NoSources(ref);
    var i := 0;
    while i < |raw|
      invariant 0 <= i <= |raw|
      invariant forall o | o in raw[..i] :: RoleAllowed(o)
      invariant read == Roles(raw[..i]) && seen == Identities(ref, raw[..i])
      invariant distinct <==> DistinctSources(ref, raw[..i])
    {
      if !RoleAllowed(raw[i]) { return None; }
      assert raw[..i + 1] == raw[..i] + [raw[i]];
      DistinctAppend(ref, raw[..i], raw[i]);
      var identity := IdentityOf(raw[i].ref);
      distinct := distinct && identity !in seen;
      seen := seen + {identity};
      read := read + [WithRole(raw[i])];
      i := i + 1;
    }
    assert raw[..i] == raw;
    if !distinct { return None; }
    observations := Some(SortBy(read, OBSERVATION_KEY));
  }

  function KeysSeen(entries: seq<Entry>, normalize: string -> Option<string>): set<Option<string>> {
    set e | e in entries :: normalize(e.rawKey)
  }

  lemma NoEntries(normalize: string -> Option<string>)
    ensures CatalogAllowed([], normalize) && KeysSeen([], normalize) == {}
    ensures RecordsOf([], normalize) == []
  {
  }

  /** A further entry is admitted exactly when it is allowed itself and its key is new. */
  lemma CatalogAppend(entries: seq<Entry>, e: Entry, normalize: string -> Option<string>)
    ensures KeysSeen(entries + [e], normalize) == KeysSeen(entries, normalize) + {normalize(e.rawKey)}
    ensures RecordsOf(entries + [e], normalize) == RecordsOf(entries, normalize) + [RecordOf(e, normalize)]
    ensures CatalogAllowed(entries + [e], normalize) <==>
      && CatalogAllowed(entries, normalize) && EntryAllowed(e, normalize)
      && normalize(e.rawKey) !in KeysSeen(entries, normalize)
  {
    hide EntryAllowed, RecordOf;
    var more := entries + [e];
    assert more[|entries|] == e;
    if CatalogAllowed(more, normalize) {
      assert e in more;
      forall x | x in entries ensures EntryAllowed(x, normalize) { assert x in more; }
      forall i | 0 <= i < |entries| ensures normalize(entries[i].rawKey) != normalize(e.rawKey) {
        assert more[i] == entries[i];
      }
      forall i, j | 0 <= i < j < |entries|
        ensures normalize(entries[i].rawKey) != normalize(entries[j].rawKey)
      {
        assert more[i] == entries[i] && more[j] == entries[j];
      }
    }
  }

  /** A catalog with an inadmissible beginning is refused. */
  lemma {:induction false} BadBeginning(entries: seq<Entry>, i: nat, normalize: string -> Option<string>)
    requires i <= |entries| && !CatalogAllowed(entries[..i], normalize)
    ensures !CatalogAllowed(entries, normalize)
    decreases |entries| - i
  {
    hide CatalogAllowed;
    if i == |entries| {
      assert entries[..i] == entries;
    } else {
      assert entries[..i + 1] == entries[..i] + [entries[i]];
      CatalogAppend(entries[..i], entries[i], normalize);
      BadBeginning(entries, i + 1, normalize);
    }
  }

  lemma AllowedParts(e: Entry, normalize: string -> Option<string>)
    ensures EntryAllowed(e, normalize) <==>
      && normalize(e.rawKey).Some?
      && (forall o | o in e.observations :: RoleAllowed(o))
      && DistinctSources(e.ref, e.observations)
  {
  }

  /** Read the entries one after the other; a repeated normalized key is refused. */
  method ReadCatalog(w: World, entries: seq<Entry>) returns (records: Option<seq<Record>>)
    ensures records.Some? <==> CatalogAllowed(entries, w.normalize)
    ensures records.Some? ==> records.value == RecordsOf(entries, w.normalize)
  {
    hide RecordsOf, EntryAllowed, CatalogAllowed, KeysSeen, DistinctSources;
    var read: seq<Record> := [];
    var seen: set<Option<string>> := {};
    NoEntries(w.normalize);
    var i := 0;
    while i < |entries|
      invariant 0 <= i <= |entries|
      invariant CatalogAllowed(entries[..i], w.normalize)
      invariant seen == KeysSeen(entries[..i], w.normalize)
      invariant read == RecordsOf(entries[..i], w.normalize)
    {
      var e := entries[i];
      assert entries[..i + 1] == entries[..i] + [e];
      CatalogAppend(entries[..i], e, w.normalize);
      AllowedParts(e, w.normalize);
      var key := w.normalize(e.rawKey);
      if key.None? || key in seen {
        BadBeginning(entries, i + 1, w.normalize);
        return None;
      }
      var observations := ReadObservations(e.ref, e.observations);
      if observations.None? {
        BadBeginning(entries, i + 1, w.normalize);
        return None;
      }
      seen := seen + {key};
      read := read + [Record(key.value, e.ref, e.transport, e.comparison, observations.value)];
      i := i + 1;
    }
    assert entries[..i] == entries;
    records := Some(read);
  }

  method RunPreflight(
      w: World, catalogId: string, corpus: string, pins: string, limit: int, entries: seq<Entry>)
    returns (p: Option<Preflight>)
    ensures p == Preflighted(w, catalogId, corpus, pins, limit, entries)
  {
    if limit < 1 || limit > MAX_SELECTED { return None; }
    var records := ReadCatalog(w, entries);
    if records.None? { return None; }
    p := Some(PreflightOf(w, catalogId, corpus, pins, limit, records.value));
  }

  // -------------------------------------------------------- order independence

  /** The same entry with its observations in another order. */
  predicate SameEntry(a: Entry, b: Entry) {
    a.(observations := []) == b.(observations := [])
    && multiset(a.observations) == multiset(b.observations)
  }

  /** The same catalog: its entries permuted, and the observations of each permuted. */
  ghost predicate SameCatalog(a: seq<Entry>, b: seq<Entry>) {
    exists mid: seq<Entry> :: Reordered(a, mid) && multiset(mid) == multiset(b)
  }

  ghost predicate Reordered(a: seq<Entry>, mid: seq<Entry>) {
    |mid| == |a| && forall i | 0 <= i < |a| :: SameEntry(a[i], mid[i])
  }

  lemma OtherSource(ref: SourceRef, os: seq<Observation>, i: nat, j: nat)
    requires DistinctSources(ref, os) && i < |os| && j < |os|
    ensures IdentityOf(os[i].ref) == IdentityOf(os[j].ref) <==> i == j
  {
  }

  /** The sort key tells observations with distinct sources apart. */
  lemma ObservationsDiscerned(ref: SourceRef, os: seq<Observation>)
    requires DistinctSources(ref, os)
    ensures Discerns(multiset(Roles(os)), OBSERVATION_KEY)
  {
    hide DistinctSources;
    var roles := Roles(os);
    forall x, y | x in multiset(roles) && y in multiset(roles) && OBSERVATION_KEY(x) == OBSERVATION_KEY(y)
      ensures x == y
    {
      assert OBSERVATION_KEY(x)[1] == x.ref.url && OBSERVATION_KEY(x)[2] == x.ref.kind
             && OBSERVATION_KEY(x)[5] == x.ref.hash;
      assert OBSERVATION_KEY(y)[1] == y.ref.url && OBSERVATION_KEY(y)[2] == y.ref.kind
             && OBSERVATION_KEY(y)[5] == y.ref.hash;
      var i :| 0 <= i < |os| && roles[i] == x;
      var j :| 0 <= j < |os| && roles[j] == y;
      OtherSource(ref, os, i, j);
    }
  }

  /** Whether the sources are distinct does not depend on their order. */
  lemma DistinctForgetsOrder(ref: SourceRef, a: seq<Observation>, b: seq<Observation>)
    requires multiset(a) == multiset(b) && DistinctSources(ref, a)
    ensures DistinctSources(ref, b)
  {
    forall i | 0 <= i < |b| ensures IdentityOf(b[i].ref) != IdentityOf(ref) {
      assert b[i] in multiset(a);
      var k :| 0 <= k < |a| && a[k] == b[i];
    }
    forall i, j | 0 <= i < j < |b| ensures IdentityOf(b[i].ref) != IdentityOf(b[j].ref) {
      TwoInA(a, b, i, j);
      var k, l :| 0 <= k < |a| && 0 <= l < |a| && k != l && a[k] == b[i] && a[l] == b[j];
      OtherSource(ref, a, k, l);
    }
  }

  /** Two positions of one sequence have two positions in any permutation of it. */
  lemma TwoInA<T(!new)>(a: seq<T>, b: seq<T>, i: nat, j: nat)
    requires multiset(a) == multiset(b) && i < j < |b|
    ensures exists k, l | 0 <= k < |a| && 0 <= l < |a| && k != l :: a[k] == b[i] && a[l] == b[j]
  {
    assert b[i] in multiset(a);
    var k :| 0 <= k < |a| && a[k] == b[i];
    RemoveAt(a, k);
    RemoveAt(b, i);
    var rest := a[..k] + a[k + 1..];
    assert (b[..i] + b[i + 1..])[j - 1] == b[j];
    assert b[j] in multiset(b[..i] + b[i + 1..]);
    CancelOne(multiset(rest), multiset(b[..i] + b[i + 1..]), b[i]);
    assert b[j] in multiset(rest);
    var m :| 0 <= m < |rest| && rest[m] == b[j];
    assert m < k ==> a[m] == b[j];
    assert m >= k ==> a[m + 1] == b[j];
  }

  /** An entry and its reordering are both refused or become the same record. */
  lemma EntryForgetsOrder(a: Entry, b: Entry, normalize: string -> Option<string>)
    requires SameEntry(a, b)
    ensures EntryAllowed(a, normalize) <==> EntryAllowed(b, normalize)
    ensures EntryAllowed(a, normalize) ==> RecordOf(a, normalize) == RecordOf(b, normalize)
  {
    hide DistinctSources;
    assert a.rawKey == a.(observations := []).rawKey == b.rawKey;
    assert a.ref == a.(observations := []).ref == b.ref;
    assert a.transport == a.(observations := []).transport == b.transport;
    assert a.comparison == a.(observations := []).comparison == b.comparison;
    forall o ensures o in a.observations <==> o in b.observations {
      assert o in multiset(a.observations) <==> o in multiset(b.observations);
    }
    if DistinctSources(a.ref, a.observations) {
      DistinctForgetsOrder(a.ref, a.observations, b.observations);
    }
    if DistinctSources(b.ref, b.observations) {
      DistinctForgetsOrder(a.ref, b.observations, a.observations);
    }
    if EntryAllowed(a, normalize) {
      MapPermutes(WithRole, a.observations, b.observations);
      ObservationsDiscerned(a.ref, a.observations);
      SortByForgetsOrder(Roles(a.observations), Roles(b.observations), OBSERVATION_KEY);
    }
  }

  lemma ReorderedCatalog(a: seq<Entry>, b: seq<Entry>, normalize: string -> Option<string>)
    requires Reordered(a, b)
    ensures CatalogAllowed(a, normalize) <==> CatalogAllowed(b, normalize)
    ensures CatalogAllowed(a, normalize) ==> RecordsOf(a, normalize) == RecordsOf(b, normalize)
  {
    hide EntryAllowed, RecordOf, SameEntry;
    forall i | 0 <= i < |a|
      ensures EntryAllowed(a[i], normalize) <==> EntryAllowed(b[i], normalize)
      ensures EntryAllowed(a[i], normalize) ==> RecordOf(a[i], normalize) == RecordOf(b[i], normalize)
      ensures normalize(a[i].rawKey) == normalize(b[i].rawKey)
    {
      EntryForgetsOrder(a[i], b[i], normalize);
      SameRawKey(a[i], b[i]);
    }
  }

  lemma SameRawKey(a: Entry, b: Entry)
    requires SameEntry(a, b)
    ensures a.rawKey == b.rawKey
  {
    assert a.rawKey == a.(observations := []).rawKey;
  }

  lemma PermutedCatalog(a: seq<Entry>, b: seq<Entry>, normalize: string -> Option<string>)
    requires multiset(a) == multiset(b) && CatalogAllowed(a, normalize)
    ensures CatalogAllowed(b, normalize)
    ensures multiset(RecordsOf(a, normalize)) == multiset(RecordsOf(b, normalize))
    ensures Discerns(multiset(RecordsOf(a, normalize)), RECORD_KEY)
  {
    hide EntryAllowed, RecordOf;
    forall e | e in b ensures e in a { assert e in multiset(b); }
    forall i, j | 0 <= i < j < |b| ensures normalize(b[i].rawKey) != normalize(b[j].rawKey) {
      TwoInA(a, b, i, j);
    }
    MapPermutes((e: Entry) => RecordOf(e, normalize), a, b);
    KeysDiscern(a, normalize);
  }

  lemma KeysDiscern(a: seq<Entry>, normalize: string -> Option<string>)
    requires CatalogAllowed(a, normalize)
    ensures Discerns(multiset(RecordsOf(a, normalize)), RECORD_KEY)
  {
    var records := RecordsOf(a, normalize);
    forall x, y | x in multiset(records) && y in multiset(records) && RECORD_KEY(x) == RECORD_KEY(y)
      ensures x == y
    {
      assert RECORD_KEY(x)[0] == x.key && RECORD_KEY(y)[0] == y.key;
      var i :| 0 <= i < |a| && records[i] == x;
      var j :| 0 <= j < |a| && records[j] == y;
      KeyOfEntry(a[i], normalize);
      KeyOfEntry(a[j], normalize);
      assert normalize(a[i].rawKey) == normalize(a[j].rawKey);
    }
  }

  lemma KeyOfEntry(e: Entry, normalize: string -> Option<string>)
    requires EntryAllowed(e, normalize)
    ensures normalize(e.rawKey) == Some(RecordOf(e, normalize).key)
  {
  }

  lemma PermutationIsSymmetric(a: seq<Entry>, b: seq<Entry>, normalize: string -> Option<string>)
    requires multiset(a) == multiset(b)
    ensures CatalogAllowed(a, normalize) <==> CatalogAllowed(b, normalize)
  {
    hide CatalogAllowed;
    if CatalogAllowed(a, normalize) { PermutedCatalog(a, b, normalize); }
    if CatalogAllowed(b, normalize) { PermutedCatalog(b, a, normalize); }
  }

  /** Order independence: permuting the catalog and the observations of every entry changes
      neither whether it is accepted, nor the records and the selected ones, nor the two
      fingerprints. */
  lemma PreflightForgetsOrder(
      w: World, catalogId: string, corpus: string, pins: string, limit: int,
      a: seq<Entry>, b: seq<Entry>)
    requires SameCatalog(a, b)
    ensures Preflighted(w, catalogId, corpus, pins, limit, a)
            == Preflighted(w, catalogId, corpus, pins, limit, b)
  {
    hide CatalogAllowed, RecordsOf, Reordered, Discerns;
    var mid :| Reordered(a, mid) && multiset(mid) == multiset(b);
    ReorderedCatalog(a, mid, w.normalize);
    PermutationIsSymmetric(mid, b, w.normalize);
    if CatalogAllowed(mid, w.normalize) {
      PermutedCatalog(mid, b, w.normalize);
      SortByForgetsOrder(RecordsOf(mid, w.normalize), RecordsOf(b, w.normalize), RECORD_KEY);
    }
  }

  // -------------------------------------------------- what the fingerprints tell apart

  ghost predicate Injective<X(!new), Y>(f: X -> Y) {
    forall x, y :: f(x) == f(y) ==> x == y
  }

  /** The sources of two records agree: key, reference, and role and reference of every
      observation. */
  predicate SameSources(a: Record, b: Record) {
    && a.key == b.key && a.ref == b.ref && |a.observations| == |b.observations|
    && forall i | 0 <= i < |a.observations| ::
         a.observations[i].role == b.observations[i].role && a.observations[i].ref == b.observations[i].ref
  }

  predicate AllSameSources(a: seq<Record>, b: seq<Record>) {
    |a| == |b| && forall i | 0 <= i < |a| :: SameSources(a[i], b[i])
  }

  lemma FingerprintTellsApart(a: Record, b: Record)
    ensures Fingerprint(a) == Fingerprint(b) <==> SameSources(a, b)
  {
    var x, y := Fingerprint(a).observations, Fingerprint(b).observations;
    if Fingerprint(a) == Fingerprint(b) {
      forall i | 0 <= i < |a.observations|
        ensures a.observations[i].role == b.observations[i].role && a.observations[i].ref == b.observations[i].ref
      {
        assert x[i] == y[i];
      }
    }
    if SameSources(a, b) { assert x == y; }
  }

  function FingerprintsOf(records: seq<Record>): seq<FingerprintRecord> {
    seq(|records|, i requires 0 <= i < |records| => Fingerprint(records[i]))
  }

  lemma FingerprintsTellApart(a: seq<Record>, b: seq<Record>)
    ensures FingerprintsOf(a) == FingerprintsOf(b) <==> AllSameSources(a, b)
  {
    hide Fingerprint, SameSources;
    var x, y := FingerprintsOf(a), FingerprintsOf(b);
    forall i | 0 <= i < |a| && i < |b| ensures Fingerprint(a[i]) == Fingerprint(b[i]) <==> SameSources(a[i], b[i]) {
      FingerprintTellsApart(a[i], b[i]);
    }
    if x == y {
      assert |a| == |x| == |y| == |b|;
      forall i | 0 <= i < |a| ensures SameSources(a[i], b[i]) {
        assert x[i] == y[i];
      }
    }
    if AllSameSources(a, b) { assert x == y; }
  }

  function ComparisonsOf(records: seq<Record>): seq<(string, string)> {
    seq(|records|, i requires 0 <= i < |records| => (records[i].key, records[i].comparison))
  }

  lemma ComparisonsTellApart(a: seq<Record>, b: seq<Record>)
    requires AllSameSources(a, b)
    ensures ComparisonsOf(a) == ComparisonsOf(b) <==>
      forall i | 0 <= i < |a| :: a[i].comparison == b[i].comparison
  {
    var x, y := ComparisonsOf(a), ComparisonsOf(b);
    if x == y {
      forall i | 0 <= i < |a| ensures a[i].comparison == b[i].comparison {
        assert x[i] == y[i];
      }
    }
    if forall i | 0 <= i < |a| :: a[i].comparison == b[i].comparison { assert x == y; }
  }

  /** The arguments of a preflight. */
  datatype Request = Request(catalogId: string, corpus: string, pins: string, limit: int, entries: seq<Entry>)

  ghost function Answer(w: World, r: Request): Option<Preflight> {
    Preflighted(w, r.catalogId, r.corpus, r.pins, r.limit, r.entries)
  }

  /** Under a hash without collisions two accepted preflights have one catalog fingerprint if and
      only if catalog id and corpus agree and the sorted records agree in key, reference, and role
      and reference of every observation; and they have one run fingerprint if and only if,
      besides, limit, pins and the comparison mode of every record agree. */
  lemma FingerprintsDecide(w: World, a: Request, b: Request)
    requires Injective(w.hashCatalog) && Injective(w.hashRun)
    requires Answer(w, a).Some? && Answer(w, b).Some?
    ensures
      var pa, pb := Answer(w, a).value, Answer(w, b).value;
      var same := a.catalogId == b.catalogId && a.corpus == b.corpus && AllSameSources(pa.records, pb.records);
      && (pa.catalogFingerprint == pb.catalogFingerprint <==> same)
      && (pa.runFingerprint == pb.runFingerprint <==>
            && same && a.limit == b.limit && a.pins == b.pins
            && forall i | 0 <= i < |pa.records| :: pa.records[i].comparison == pb.records[i].comparison)
  {
    hide CatalogAllowed, RecordsOf, SortBy, AllSameSources;
    var pa, pb := Answer(w, a).value, Answer(w, b).value;
    Preimages(w, a);
    Preimages(w, b);
    FingerprintsTellApart(pa.records, pb.records);
    if AllSameSources(pa.records, pb.records) { ComparisonsTellApart(pa.records, pb.records); }
  }

  lemma Preimages(w: World, r: Request)
    requires Answer(w, r).Some?
    ensures
      var p := Answer(w, r).value;
      && p.catalogFingerprint == w.hashCatalog(CatalogPreimage(r.catalogId, r.corpus, FingerprintsOf(p.records)))
      && p.runFingerprint == w.hashRun(RunPreimage(r.catalogId, r.corpus, p.catalogFingerprint, r.limit, r.pins,
                                                   ComparisonsOf(p.records)))
  {
    hide CatalogAllowed, RecordsOf, SortBy;
    var p := Answer(w, r).value;
    assert FingerprintsOf(p.records) ==
      seq(|p.records|, i requires 0 <= i < |p.records| => Fingerprint(p.records[i]));
    assert ComparisonsOf(p.records) ==
      seq(|p.records|, i requires 0 <= i < |p.records| => (p.records[i].key, p.records[i].comparison));
  }

  // ------------------------------------------------------ what a preflight holds

  /** A catalog is admitted if and only if the limit is between 1 and 100, every key can be
      normalized and no two give one key, every observation is a fallback, an evidence, or an
      official role for an official source, and no source of an entry occurs twice in it by kind,
      content hash and url. */
  lemma AdmittedExactly(w: World, r: Request)
    ensures Answer(w, r).Some? <==>
      && 1 <= r.limit <= 100
      && (forall e | e in r.entries :: w.normalize(e.rawKey).Some?)
      && (forall i, j | 0 <= i < j < |r.entries| ::
            w.normalize(r.entries[i].rawKey) != w.normalize(r.entries[j].rawKey))
      && (forall e | e in r.entries :: forall o | o in e.observations ::
            o.role == "fallback" || o.role == "evidence"
            || (o.role == "official" && o.ref.kind in {"official-live", "official-snapshot"}))
      && (forall e | e in r.entries ::
            && (forall i | 0 <= i < |e.observations| :: !OneSource(e.observations[i].ref, e.ref))
            && (forall i, j | 0 <= i < j < |e.observations| ::
                  !OneSource(e.observations[i].ref, e.observations[j].ref)))
  {
    hide EntryAllowed, DistinctSources, RoleAllowed, RecordsOf, SortBy, PreflightOf, OneSource;
    forall e | e in r.entries
      ensures EntryAllowed(e, w.normalize) <==>
        && w.normalize(e.rawKey).Some?
        && (forall o | o in e.observations ::
              o.role == "fallback" || o.role == "evidence"
              || (o.role == "official" && o.ref.kind in {"official-live", "official-snapshot"}))
        && (forall i | 0 <= i < |e.observations| :: !OneSource(e.observations[i].ref, e.ref))
        && (forall i, j | 0 <= i < j < |e.observations| ::
              !OneSource(e.observations[i].ref, e.observations[j].ref))
    {
      AllowedParts(e, w.normalize);
      RolesPublished(e.observations);
      SourcesDiffer(e.ref, e.observations);
    }
  }

  lemma RolesPublished(os: seq<Observation>)
    ensures forall o | o in os :: RoleAllowed(o) <==>
      o.role == "fallback" || o.role == "evidence"
      || (o.role == "official" && o.ref.kind in {"official-live", "official-snapshot"})
  {
  }

  lemma SourcesDiffer(ref: SourceRef, os: seq<Observation>)
    ensures DistinctSources(ref, os) <==>
      && (forall i | 0 <= i < |os| :: !OneSource(os[i].ref, ref))
      && (forall i, j | 0 <= i < j < |os| :: !OneSource(os[i].ref, os[j].ref))
  {
  }

  predicate OneSource(a: SourceRef, b: SourceRef) {
    a.kind == b.kind && a.hash == b.hash && a.url == b.url
  }

  /** The record of an entry: its normalized key, its own source, transport and mode, and every
      observation once, under the official role where its source is official. */
  predicate HoldsEntry(r: Record, e: Entry, normalize: string -> Option<string>) {
    && Some(r.key) == normalize(e.rawKey)
    && r.ref == e.ref && r.transport == e.transport && r.comparison == e.comparison
    && |r.observations| == |e.observations|
    && forall o | o in e.observations ::
         Observation(if o.ref.kind in {"official-live", "official-snapshot"} then "official" else o.role,
                     o.ref, o.transport) in r.observations
  }

  lemma RecordHolds(e: Entry, normalize: string -> Option<string>)
    requires normalize(e.rawKey).Some?
    ensures HoldsEntry(RecordOf(e, normalize), e, normalize)
  {
    hide SortBy;
    var roles := Roles(e.observations);
    SortByOrders(roles, OBSERVATION_KEY);
    var sorted := SortBy(roles, OBSERVATION_KEY);
    assert |multiset(sorted)| == |multiset(roles)|;
    forall o | o in e.observations ensures WithRole(o) in sorted {
      var i :| 0 <= i < |e.observations| && e.observations[i] == o;
      assert roles[i] == WithRole(o);
      assert WithRole(o) in multiset(roles);
      assert WithRole(o) in multiset(sorted);
    }
  }

  /** An accepted preflight holds the record of every entry once, in the order of the keys, and
      selects the first ones up to the limit. */
  lemma PreflightHolds(w: World, r: Request)
    requires Answer(w, r).Some?
    ensures
      var p := Answer(w, r).value;
      && |p.records| == |r.entries|
      && (forall e | e in r.entries :: exists x | x in p.records :: HoldsEntry(x, e, w.normalize))
      && (forall i, j | 0 <= i < j < |p.records| ::
            StrLe(p.records[i].key, p.records[j].key) && p.records[i].key != p.records[j].key)
      && p.selected <= p.records
      && |p.selected| == (if r.limit < |r.entries| then r.limit else |r.entries|)
  {
    hide SortBy, HoldsEntry, RecordOf, EntryAllowed, Discerns;
    var p, records := Answer(w, r).value, RecordsOf(r.entries, w.normalize);
    SortByOrders(records, RECORD_KEY);
    assert |multiset(p.records)| == |multiset(records)|;
    forall e | e in r.entries ensures exists x | x in p.records :: HoldsEntry(x, e, w.normalize) {
      AllowedParts(e, w.normalize);
      RecordHolds(e, w.normalize);
      var i :| 0 <= i < |r.entries| && r.entries[i] == e;
      assert records[i] in multiset(records);
      assert records[i] in multiset(p.records);
    }
    PermutedCatalog(r.entries, r.entries, w.normalize);
    SortedKeysDiffer(r.entries, p.records, w.normalize);
  }

  lemma SortedKeysDiffer(entries: seq<Entry>, sorted: seq<Record>, normalize: string -> Option<string>)
    requires CatalogAllowed(entries, normalize)
    requires multiset(sorted) == multiset(RecordsOf(entries, normalize)) && Ordered(sorted, RECORD_KEY)
    ensures forall i, j | 0 <= i < j < |sorted| ::
      StrLe(sorted[i].key, sorted[j].key) && sorted[i].key != sorted[j].key
  {
    hide EntryAllowed, RecordOf;
    var records := RecordsOf(entries, normalize);
    forall i, j | 0 <= i < j < |sorted|
      ensures StrLe(sorted[i].key, sorted[j].key) && sorted[i].key != sorted[j].key
    {
      assert KeyLe(RECORD_KEY(sorted[i]), RECORD_KEY(sorted[j]));
      TwoInA(records, sorted, i, j);
      var k, l :| 0 <= k < |records| && 0 <= l < |records| && k != l
        && records[k] == sorted[i] && records[l] == sorted[j];
      KeyOfEntry(entries[k], normalize);
      KeyOfEntry(entries[l], normalize);
      assert normalize(entries[k].rawKey) != normalize(entries[l].rawKey);
    }
  }

  // ----------------------------------------------------------------- bindings

  function PrimaryOf(r: Record): Binding {
    Binding(if IsOfficial(r.ref) then "official" else "evidence", r.ref, r.transport, true)
  }

  function SecondaryOf(o: Observation): Binding {
    Binding(if IsOfficial(o.ref) then "official" else o.role, o.ref, o.transport, false)
  }

  const BINDING_KEY: Binding -> Key := (b: Binding) =>
    [if IsOfficial(b.ref) then "0" else "1", if b.primary then "0" else "1", b.ref.url, b.ref.hash]

  /** The order in which the bindings of a record are attempted. */
  function OrderedBindings(r: Record): seq<Binding> {
    SortBy([PrimaryOf(r)] + Map(SecondaryOf, r.observations), BINDING_KEY)
  }

  /** The loop that normalizes the roles before the sort. */
  method OrderBindings(r: Record) returns (bindings: seq<Binding>)
    ensures bindings == OrderedBindings(r)
  {
    bindings := [PrimaryOf(r)];
    var i := 0;
    while i < |r.observations|
      invariant 0 <= i <= |r.observations|
      invariant bindings == [PrimaryOf(r)] + Map(SecondaryOf, r.observations[..i])
    {
      assert Map(SecondaryOf, r.observations[..i + 1])
             == Map(SecondaryOf, r.observations[..i]) + [SecondaryOf(r.observations[i])];
      bindings := bindings + [SecondaryOf(r.observations[i])];
      i := i + 1;
    }
    assert r.observations[..i] == r.observations;
    bindings := SortBy(bindings, BINDING_KEY);
  }

  /** Every source once; officials before all evidence; the primary first of its class. */
  lemma BindingOrder(r: Record)
    ensures multiset(OrderedBindings(r))
            == multiset{PrimaryOf(r)} + multiset(Map(SecondaryOf, r.observations))
    ensures forall i, j | 0 <= i < j < |OrderedBindings(r)| ::
      && (IsOfficial(OrderedBindings(r)[j].ref) ==> IsOfficial(OrderedBindings(r)[i].ref))
      && (OrderedBindings(r)[j].primary
          && (IsOfficial(OrderedBindings(r)[i].ref) <==> IsOfficial(OrderedBindings(r)[j].ref)) ==>
            OrderedBindings(r)[i].primary)
  {
    var all := [PrimaryOf(r)] + Map(SecondaryOf, r.observations);
    SortByOrders(all, BINDING_KEY);
    var bs := OrderedBindings(r);
    forall i, j | 0 <= i < j < |bs|
      ensures IsOfficial(bs[j].ref) ==> IsOfficial(bs[i].ref)
      ensures bs[j].primary && (IsOfficial(bs[i].ref) <==> IsOfficial(bs[j].ref)) ==> bs[i].primary
    {
      FlagsOrdered(bs[i], bs[j]);
    }
  }

  /** What the bindings are: the record's own source as the primary one, and every observation, each
      under the official role if its source is official, the own one as evidence if not, and an
      observation under its role if not. */
  lemma BindingsHold(r: Record)
    ensures
      var bs := OrderedBindings(r);
      && |bs| == 1 + |r.observations|
      && Binding(if r.ref.kind in {"official-live", "official-snapshot"} then "official" else "evidence",
                 r.ref, r.transport, true) in bs
      && forall o | o in r.observations ::
           Binding(if o.ref.kind in {"official-live", "official-snapshot"} then "official" else o.role,
                   o.ref, o.transport, false) in bs
  {
    hide SortBy;
    var all := [PrimaryOf(r)] + Map(SecondaryOf, r.observations);
    SortByOrders(all, BINDING_KEY);
    var bs := OrderedBindings(r);
    assert |multiset(bs)| == |multiset(all)|;
    assert all[0] in multiset(all) && all[0] in multiset(bs);
    forall o | o in r.observations ensures SecondaryOf(o) in bs {
      var i :| 0 <= i < |r.observations| && r.observations[i] == o;
      assert all[i + 1] == SecondaryOf(o);
      assert all[i + 1] in multiset(all) && all[i + 1] in multiset(bs);
    }
  }

  lemma FlagsOrdered(a: Binding, b: Binding)
    requires KeyLe(BINDING_KEY(a), BINDING_KEY(b))
    ensures IsOfficial(b.ref) ==> IsOfficial(a.ref)
    ensures b.primary && (IsOfficial(a.ref) <==> IsOfficial(b.ref)) ==> a.primary
  {
    var ka, kb := BINDING_KEY(a), BINDING_KEY(b);
    assert ka[1..][0] == ka[1] && kb[1..][0] == kb[1];
    assert !StrLe("1", "0");
  }

  /** Permuting the observations of an entry does not change the order of its bindings. */
  lemma BindingsForgetOrder(a: Entry, b: Entry, normalize: string -> Option<string>)
    requires SameEntry(a, b) && EntryAllowed(a, normalize)
    ensures OrderedBindings(RecordOf(a, normalize)) == OrderedBindings(RecordOf(b, normalize))
  {
    EntryForgetsOrder(a, b, normalize);
  }

  // ----------------------------------------------------------- selected keys

  const KEY_OF: Record -> string := (r: Record) => r.key

  const SELF: string -> Key := (k: string) => [k]

  /** The stable sorted prefix of the keys alone. */
  function SelectionKeys(keys: seq<string>, limit: int): seq<string>
    requires limit >= 0
  {
    var sorted := SortBy(keys, SELF);
    sorted[..if limit < |sorted| then limit else |sorted|]
  }

  /** The selected records carry exactly the keys that the key-only selection admits. */
  lemma SelectedKeysAgree(
      w: World, catalogId: string, corpus: string, pins: string, limit: int, records: seq<Record>)
    requires 1 <= limit <= MAX_SELECTED
    ensures
      Map(KEY_OF, PreflightOf(w, catalogId, corpus, pins, limit, records).selected)
      == SelectionKeys(Map(KEY_OF, records), limit)
  {
    hide SortBy, Map;
    var sorted := SortBy(records, RECORD_KEY);
    KeysSortAlike(records);
    MapTakes(sorted, if limit < |sorted| then limit else |sorted|);
  }

  lemma MapTakes(records: seq<Record>, n: nat)
    requires n <= |records|
    ensures Map(KEY_OF, records[..n]) == Map(KEY_OF, records)[..n]
  {
  }

  /** Sorting the records and taking their keys is sorting the keys. */
  lemma KeysSortAlike(records: seq<Record>)
    ensures Map(KEY_OF, SortBy(records, RECORD_KEY)) == SortBy(Map(KEY_OF, records), SELF)
  {
    hide SortBy, Map, Ordered, Discerns;
    var sorted := SortBy(records, RECORD_KEY);
    SortByOrders(records, RECORD_KEY);
    SortByOrders(Map(KEY_OF, records), SELF);
    MapPermutes(KEY_OF, records, sorted);
    KeysOrdered(sorted);
    SelfDiscerns(Map(KEY_OF, sorted));
    OrderedUnique(Map(KEY_OF, sorted), SortBy(Map(KEY_OF, records), SELF), SELF);
  }

  lemma KeysOrdered(sorted: seq<Record>)
    requires Ordered(sorted, RECORD_KEY)
    ensures Ordered(Map(KEY_OF, sorted), SELF)
  {
    forall i, j | 0 <= i < j < |sorted|
      ensures KeyLe(SELF(Map(KEY_OF, sorted)[i]), SELF(Map(KEY_OF, sorted)[j]))
    {
      assert KeyLe(RECORD_KEY(sorted[i]), RECORD_KEY(sorted[j]));
    }
  }

  lemma SelfDiscerns(keys: seq<string>)
    ensures Discerns(multiset(keys), SELF)
  {
    forall x, y | x in multiset(keys) && y in multiset(keys) && SELF(x) == SELF(y) ensures x == y {
      assert SELF(x)[0] == x && SELF(y)[0] == y;
    }
  }
}
