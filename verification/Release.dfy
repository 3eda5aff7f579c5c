/** Seeding a release from scratch and verifying one. */
module Release {
  import opened Options
  import opened Vectors
  import opened Planner
  import B = BatchStore

  /** An entry as it comes in the list of a release. */
  datatype Item = Item(id: string, entry: Entry)

  /** What the self-hash of a manifest covers. */
  datatype Body = Body(
    version: string, entriesCount: nat, artifactHashes: map<string, string>,
    canonicalHashes: map<string, string>, documentHashes: map<string, string>, blocked: bool)

  datatype Manifest = Manifest(body: Body, selfHash: string)

  datatype Verdict =
    | Valid
    | ManifestNotFound | Blocked | SelfHashMismatch | ArtifactHashesIncomplete | VectorsMissing
    | DuplicateVector | VectorSetMismatch | FileMismatch

  // --------------------------------------------------------- specification

  function SeedRecords(w: World, items: seq<Item>, release: string): seq<VectorRecord> {
    seq(|items|, i requires 0 <= i < |items| => RecordOf(w, items[i].id, items[i].entry, release))
  }

  /** A later item with the same id overwrites the hash of an earlier one. */
  function Hashes(items: seq<Item>, of: Entry -> string): map<string, string> {
    if |items| == 0 then map[]
    else
      var last := items[|items| - 1];
      Hashes(items[..|items| - 1], of)[last.id := of(last.entry)]
  }

  function SeedManifest(w: World, digest: Body -> string, items: seq<Item>, release: string)
    : Manifest
  {
    var body := Body(release, |items|, Hashes(items, (e: Entry) => e.rawHash),
                     Hashes(items, (e: Entry) => w.hash(e.canonical)),
                     Hashes(items, (e: Entry) => w.hash(e.document)), false);
    Manifest(body, digest(body))
  }

  /** The part of a file name before its first underscore. */
  function EntryPart(stem: string): (r: string)
    ensures '_' !in r
  {
    if |stem| == 0 || stem[0] == '_' then "" else [stem[0]] + EntryPart(stem[1..])
  }

  /** A vector file as it is found: the record it holds, and the fields that may be absent, which
      are task, its second name, distance, and the three that a raw hash may stand in. */
  datatype File = File(
    record: VectorRecord, task: Option<string>, documentTask: Option<string>,
    distance: Option<string>, raw: Option<string>, content: Option<string>, alias: Option<string>)

  type Files = map<string, File>

  /** Every file that is written carries task and distance, and the raw hash in all three. */
  function FileOf(r: VectorRecord): File {
    File(r, Some(r.task), None, Some(r.distance), Some(r.rawHash), Some(r.rawHash), Some(r.rawHash))
  }

  function Stored(dir: Directory): Files {
    map d | d in dir :: FileOf(dir[d])
  }

  function OwnId(stem: string, r: VectorRecord): string {
    if r.id != "" then r.id else EntryPart(stem)
  }

  /** One of the three fields holds what the manifest lists for the file's own id. An id that is
      not listed is matched by an absent field. */
  predicate RawHashMatches(m: Body, id: string, f: File) {
    var listed := if id in m.artifactHashes then Some(m.artifactHashes[id]) else None;
    f.raw == listed || f.content == listed || f.alias == listed
  }

  /** The lineage and metadata checks on one vector file. */
  predicate FileOk(m: Body, version: string, stem: string, f: File) {
    var r := f.record;
    && |r.vector| == DIMENSIONS && r.model == MODEL && r.dimensions == DIMENSIONS
    && (f.task in {None, Some(TASK_DOCUMENT)} || f.documentTask == Some(TASK_DOCUMENT))
    && f.distance in {None, Some(DISTANCE)}
    && (r.schema == SCHEMA || r.schema == "")
    && r.release == version
    && RawHashMatches(m, OwnId(stem, r), f)
    && (OwnId(stem, r) in m.canonicalHashes && r.canonicalHash != "" ==>
          r.canonicalHash == m.canonicalHashes[OwnId(stem, r)])
  }

  function Parts(stems: set<string>): set<string> {
    set d | d in stems :: EntryPart(d)
  }

  ghost predicate OnePerEntry(stems: set<string>) {
    forall a, b | a in stems && b in stems && EntryPart(a) == EntryPart(b) :: a == b
  }

  /** What a valid release is, without the order in which it is checked. */
  ghost predicate Verified(
      digest: Body -> string, manifest: Option<Manifest>, version: string, dir: Option<Files>)
  {
    && manifest.Some? && dir.Some?
    && var m := manifest.value;
    && !m.body.blocked
    && m.selfHash == digest(m.body)
    && |m.body.artifactHashes| == m.body.entriesCount
    && OnePerEntry(dir.value.Keys)
    && Parts(dir.value.Keys) == m.body.artifactHashes.Keys
    && forall d | d in dir.value :: FileOk(m.body, version, d, dir.value[d])
  }

  // ------------------------------------------------------- the imperative form

  /** The files of a release from scratch: one create-only file per item. */
  method SeedRelease(
      store: B.VectorStore, w: World, digest: Body -> string, items: seq<Item>, release: string)
    returns (manifest: Manifest)
    modifies store
    ensures store.vectors == B.Create(old(store.vectors), SeedRecords(w, items, release))
    ensures manifest == SeedManifest(w, digest, items, release)
  {
    var artifacts, canonicals, documents: map<string, string> := map[], map[], map[];
    var i := 0;
    while i < |items|
      invariant 0 <= i <= |items|
      invariant artifacts == Hashes(items[..i], (e: Entry) => e.rawHash)
      invariant canonicals == Hashes(items[..i], (e: Entry) => w.hash(e.canonical))
      invariant documents == Hashes(items[..i], (e: Entry) => w.hash(e.document))
    {
      assert items[..i + 1][..i] == items[..i];
      artifacts := artifacts[items[i].id := items[i].entry.rawHash];
      canonicals := canonicals[items[i].id := w.hash(items[i].entry.canonical)];
      documents := documents[items[i].id := w.hash(items[i].entry.document)];
      i := i + 1;
    }
    assert items[..i] == items;
    var body := Body(release, |items|, artifacts, canonicals, documents, false);
    manifest := Manifest(body, digest(body));
    i := 0;
    while i < |items|
      invariant 0 <= i <= |items|
      invariant store.vectors == B.Create(old(store.vectors), SeedRecords(w, items[..i], release))
    {
      var r := RecordOf(w, items[i].id, items[i].entry, release);
      assert SeedRecords(w, items[..i + 1], release) == SeedRecords(w, items[..i], release) + [r];
      SeedStep(old(store.vectors), SeedRecords(w, items[..i], release), r);
      if DocId(items[i].id, release) !in store.vectors {
        store.vectors := store.vectors[DocId(items[i].id, release) := r];
      }
      i := i + 1;
    }
    assert items[..i] == items;
  }

  lemma SeedStep(store: Directory, records: seq<VectorRecord>, r: VectorRecord)
    ensures
      var s := B.Create(store, records);
      B.Create(store, records + [r]) == (if B.Id(r) in s then s else s[B.Id(r) := r])
  {
    assert (records + [r])[..|records + [r]| - 1] == records;
  }

  function StemsOf(stems: set<string>, part: string): set<string> {
    set d | d in stems && EntryPart(d) == part
  }

  lemma OneMoreFile(stems: set<string>, d: string, part: string)
    requires d !in stems
    ensures |StemsOf(stems + {d}, part)| == |StemsOf(stems, part)| + if EntryPart(d) == part then 1 else 0
  {
    if EntryPart(d) == part {
      assert StemsOf(stems + {d}, part) == StemsOf(stems, part) + {d};
    } else {
      assert StemsOf(stems + {d}, part) == StemsOf(stems, part);
    }
  }

  lemma ManyFiles(stems: set<string>, part: string)
    ensures |StemsOf(stems, part)| > 1 <==>
      exists a, b | a in stems && b in stems && a != b :: EntryPart(a) == part && EntryPart(b) == part
  {
    var files := StemsOf(stems, part);
    if |files| > 1 {
      var a :| a in files;
      assert |files - {a}| == |files| - 1;
      var b :| b in files - {a};
      assert a in stems && b in stems;
    }
    if a, b :| a in stems && b in stems && a != b && EntryPart(a) == part && EntryPart(b) == part {
      assert {a, b} <= files;
      assert |files - {a, b}| == |files| - 2;
    }
  }

  /** Count the files per entry part; a count above one is a duplicate. */
  method CountParts(stems: set<string>) returns (seen: map<string, nat>, duplicate: bool)
    ensures seen.Keys == Parts(stems)
    ensures duplicate <==> !OnePerEntry(stems)
  {
    seen := map[];
    var todo := stems;
    while todo != {}
      invariant todo <= stems
      invariant seen.Keys == set d | d in stems - todo :: EntryPart(d)
      invariant forall p | p in seen :: seen[p] == |StemsOf(stems - todo, p)|
      decreases todo
    {
      var d :| d in todo;
      ghost var done := stems - todo;
      assert stems - (todo - {d}) == done + {d};
      var part := EntryPart(d);
      forall p ensures |StemsOf(done + {d}, p)| == |StemsOf(done, p)| + if part == p then 1 else 0 {
        OneMoreFile(done, d, p);
      }
      if part !in seen { assert StemsOf(done, part) == {}; }
      seen := seen[part := (if part in seen then seen[part] else 0) + 1];
      todo := todo - {d};
    }
    assert stems - todo == stems;
    duplicate := exists p | p in seen :: seen[p] > 1;
    DuplicateIff(stems, seen);
  }

  lemma DuplicateIff(stems: set<string>, seen: map<string, nat>)
    requires seen.Keys == Parts(stems) && forall p | p in seen :: seen[p] == |StemsOf(stems, p)|
    ensures (exists p | p in seen :: seen[p] > 1) <==> !OnePerEntry(stems)
  {
    if !OnePerEntry(stems) {
      var a, b :| a in stems && b in stems && EntryPart(a) == EntryPart(b) && a != b;
      ManyFiles(stems, EntryPart(a));
      assert EntryPart(a) in seen;
    }
    if p :| p in seen && seen[p] > 1 {
      ManyFiles(stems, p);
    }
  }

  method VerifyRelease(
      digest: Body -> string, manifest: Option<Manifest>, version: string, dir: Option<Files>)
    returns (v: Verdict)
    ensures v == Valid <==> Verified(digest, manifest, version, dir)
  {
    hide FileOk, OnePerEntry, Parts;
    if manifest.None? { return ManifestNotFound; }
    var m := manifest.value;
    if m.body.blocked { return Blocked; }
    if m.selfHash != digest(m.body) { return SelfHashMismatch; }
    if |m.body.artifactHashes| != m.body.entriesCount { return ArtifactHashesIncomplete; }
    if dir.None? { return VectorsMissing; }
    var seen, duplicate := CountParts(dir.value.Keys);
    if duplicate { return DuplicateVector; }
    if seen.Keys != m.body.artifactHashes.Keys { return VectorSetMismatch; }
    var todo := dir.value.Keys;
    while todo != {}
      invariant todo <= dir.value.Keys
      invariant forall d | d in dir.value.Keys - todo :: FileOk(m.body, version, d, dir.value[d])
      decreases todo
    {
      var d :| d in todo;
      if !FileOk(m.body, version, d, dir.value[d]) { return FileMismatch; }
      todo := todo - {d};
    }
    v := Valid;
  }

  // ---------------------------------------------------------------- theorems

  /** Taking one file away from a valid release, or adding one, makes it invalid. */
  lemma TamperingIsDetected(
      digest: Body -> string, manifest: Option<Manifest>, version: string, dir: Files,
      stem: string, f: File)
    requires Verified(digest, manifest, version, Some(dir))
    ensures stem in dir ==> !Verified(digest, manifest, version, Some(dir - {stem}))
    ensures stem !in dir ==> !Verified(digest, manifest, version, Some(dir[stem := f]))
  {
    hide FileOk, OnePerEntry, Parts;
    if stem in dir {
      RemovalShows(dir.Keys, stem);
      assert (dir - {stem}).Keys == dir.Keys - {stem};
    } else {
      AdditionShows(dir.Keys, stem);
      assert dir[stem := f].Keys == dir.Keys + {stem};
    }
  }

  lemma RemovalShows(stems: set<string>, stem: string)
    requires OnePerEntry(stems) && stem in stems
    ensures Parts(stems - {stem}) != Parts(stems)
  {
    assert EntryPart(stem) in Parts(stems);
    forall d | d in stems - {stem} ensures EntryPart(d) != EntryPart(stem) {}
    assert EntryPart(stem) !in Parts(stems - {stem});
  }

  lemma AdditionShows(stems: set<string>, stem: string)
    requires stem !in stems
    ensures OnePerEntry(stems + {stem}) ==> Parts(stems + {stem}) != Parts(stems)
  {
    var more := stems + {stem};
    if OnePerEntry(more) {
      assert stem in more && EntryPart(stem) in Parts(more);
      forall d | d in stems ensures EntryPart(d) != EntryPart(stem) {
        assert d in more;
      }
      assert EntryPart(stem) !in Parts(stems);
    }
  }

  /** What the raw hash test of a valid release does establish: a file whose record names no id, or
      the one of its file name, has a listed id; a file with a listed id holds the hash listed for
      it in one of the three fields; and a file with another id lacks one of them. */
  lemma ListedFilesMatch(
      digest: Body -> string, manifest: Option<Manifest>, version: string, dir: Files, stem: string)
    requires Verified(digest, manifest, version, Some(dir)) && stem in dir
    ensures
      var listed, f := manifest.value.body.artifactHashes, dir[stem];
      var id := OwnId(stem, f.record);
      && (f.record.id in {"", EntryPart(stem)} ==> id in listed)
      && (if id in listed then Some(listed[id]) in {f.raw, f.content, f.alias}
          else f.raw.None? || f.content.None? || f.alias.None?)
  {
    hide OnePerEntry;
    assert EntryPart(stem) in Parts(dir.Keys);
    assert FileOk(manifest.value.body, version, stem, dir[stem]);
  }

  /** What it does not: give the record of a file of a valid release an id that the manifest does
      not list, and put anything into the three fields. The release stays valid if and only if one
      of the three is left out. */
  lemma UnlistedIdPassesIffAHashIsAbsent(
      digest: Body -> string, manifest: Option<Manifest>, version: string, dir: Files, stem: string,
      id: string, raw: Option<string>, content: Option<string>, alias: Option<string>)
    requires Verified(digest, manifest, version, Some(dir)) && stem in dir && id != ""
    requires id !in manifest.value.body.artifactHashes && id !in manifest.value.body.canonicalHashes
    ensures
      var f := dir[stem];
      var forged := f.(record := f.record.(id := id), raw := raw, content := content, alias := alias);
      Verified(digest, manifest, version, Some(dir[stem := forged]))
      <==> raw.None? || content.None? || alias.None?
  {
    hide OnePerEntry, Parts;
    var m, f := manifest.value.body, dir[stem];
    var forged := f.(record := f.record.(id := id), raw := raw, content := content, alias := alias);
    var changed := dir[stem := forged];
    assert changed.Keys == dir.Keys;
    assert FileOk(m, version, stem, f);
    assert FileOk(m, version, stem, forged) <==> raw.None? || content.None? || alias.None?;
    forall d | d in changed && d != stem ensures FileOk(m, version, d, changed[d]) {
      assert changed[d] == dir[d];
    }
    assert stem in changed && changed[stem] == forged;
  }

  /** Putting another file under a name of a valid release leaves it valid if and only if that file
      has 768 numbers, the model and its dimensions, the document task, distance and schema where
      they are given, the version as its release, a raw hash as listed for its id (or a field that
      is absent, for an id that is not listed), and the canonical hash that is listed, if both are
      there. */
  lemma ReplacedFilePassesExactly(
      digest: Body -> string, manifest: Option<Manifest>, version: string, dir: Files, stem: string, f: File)
    requires Verified(digest, manifest, version, Some(dir)) && stem in dir
    ensures
      var m, r := manifest.value.body, f.record;
      var id := if r.id != "" then r.id else EntryPart(stem);
      Verified(digest, manifest, version, Some(dir[stem := f])) <==>
        && |r.vector| == 768 && r.dimensions == 768 && r.model == "gemini-embedding-001"
        && (f.task.None? || f.task == Some("RETRIEVAL_DOCUMENT") || f.documentTask == Some("RETRIEVAL_DOCUMENT"))
        && (f.distance.None? || f.distance == Some("DOT_PRODUCT"))
        && (r.schema == "" || r.schema == "emb-768-v1")
        && r.release == version
        && (if id in m.artifactHashes
            then Some(m.artifactHashes[id]) in {f.raw, f.content, f.alias}
            else f.raw.None? || f.content.None? || f.alias.None?)
        && (r.canonicalHash == "" || id !in m.canonicalHashes || r.canonicalHash == m.canonicalHashes[id])
  {
    hide OnePerEntry, Parts;
    var changed := dir[stem := f];
    assert changed.Keys == dir.Keys;
    forall d | d in changed && d != stem ensures FileOk(manifest.value.body, version, d, changed[d]) {
      assert changed[d] == dir[d];
    }
    assert stem in changed && changed[stem] == f;
  }

  /** And its manifest cannot be touched: a blocked mark, another self hash, another number of
      entries, another set of listed ids, or another version make the release invalid, even when
      the self hash is computed again. */
  lemma ManifestTamperingIsDetected(
      digest: Body -> string, m: Manifest, version: string, dir: Files, forged: Manifest, other: string)
    requires Verified(digest, Some(m), version, Some(dir))
    ensures !Verified(digest, None, version, Some(dir)) && !Verified(digest, Some(m), version, None)
    ensures forged.body.blocked || forged.selfHash != digest(forged.body)
            || forged.body.artifactHashes.Keys != m.body.artifactHashes.Keys
            || forged.body.entriesCount != m.body.entriesCount ==>
      !Verified(digest, Some(forged), version, Some(dir))
    ensures other != version && |dir| > 0 ==> !Verified(digest, Some(m), other, Some(dir))
  {
    hide OnePerEntry, Parts;
    if forged.body.artifactHashes.Keys == m.body.artifactHashes.Keys {
      SameSize(forged.body.artifactHashes, m.body.artifactHashes);
    }
    if |dir| > 0 {
      assert dir.Keys != {};
      var d :| d in dir;
      assert FileOk(m.body, version, d, dir[d]);
    }
  }

  lemma SameSize(a: map<string, string>, b: map<string, string>)
    requires a.Keys == b.Keys
    ensures |a| == |b|
  {
    assert |a| == |a.Keys| && |b| == |b.Keys|;
  }

  /** The manifest of distinct items lists each of them with its raw hash and the hashes of its
      canonical content and its document, and carries the hash of all that. */
  lemma SeedManifestHolds(w: World, digest: Body -> string, items: seq<Item>, release: string)
    requires Distinct(items)
    ensures
      var m := SeedManifest(w, digest, items, release);
      var ids := set item | item in items :: item.id;
      && m.selfHash == digest(m.body) && m.body.version == release && !m.body.blocked
      && m.body.entriesCount == |items|
      && m.body.artifactHashes.Keys == m.body.canonicalHashes.Keys == m.body.documentHashes.Keys == ids
      && forall item | item in items ::
           && m.body.artifactHashes[item.id] == item.entry.rawHash
           && m.body.canonicalHashes[item.id] == w.hash(item.entry.canonical)
           && m.body.documentHashes[item.id] == w.hash(item.entry.document)
  {
    hide Distinct;
    HashesFacts(items, (e: Entry) => e.rawHash);
    HashesFacts(items, (e: Entry) => w.hash(e.canonical));
    HashesFacts(items, (e: Entry) => w.hash(e.document));
  }

  ghost predicate Distinct(items: seq<Item>) {
    forall i, j | 0 <= i < j < |items| :: items[i].id != items[j].id
  }

  predicate UnderscoreFree(items: seq<Item>) {
    forall item | item in items :: '_' !in item.id
  }

  lemma {:induction false} EntryPartOf(id: string, release: string)
    ensures '_' !in id ==> EntryPart(DocId(id, release)) == id
  {
    if |id| > 0 && '_' !in id {
      assert DocId(id, release)[1..] == DocId(id[1..], release);
      assert '_' !in id[1..];
      EntryPartOf(id[1..], release);
    }
  }

  lemma HashesFacts(items: seq<Item>, of: Entry -> string)
    ensures Hashes(items, of).Keys == set item | item in items :: item.id
    ensures |Hashes(items, of)| == |items| <==> Distinct(items)
    ensures Distinct(items) ==> forall item | item in items ::
      item.id in Hashes(items, of) && Hashes(items, of)[item.id] == of(item.entry)
  {
    HashCount(items, of);
    if Distinct(items) { HashValues(items, of); }
  }

  lemma {:induction false} HashCount(items: seq<Item>, of: Entry -> string)
    ensures Hashes(items, of).Keys == set item | item in items :: item.id
    ensures |Hashes(items, of)| <= |items|
    ensures |Hashes(items, of)| == |items| <==> Distinct(items)
  {
    hide Distinct;
    if |items| > 0 {
      var init, last := items[..|items| - 1], items[|items| - 1];
      HashCount(init, of);
      LastItem(items);
      OneMoreKey(Hashes(init, of), last.id, of(last.entry));
    } else {
      NothingRepeats();
    }
  }

  lemma NothingRepeats()
    ensures Distinct([])
  {
  }

  lemma OneMoreKey(m: map<string, string>, k: string, v: string)
    ensures m[k := v].Keys == m.Keys + {k}
    ensures |m[k := v]| == |m| + if k in m then 0 else 1
  {
    assert m[k := v].Keys == m.Keys + {k};
  }

  lemma {:induction false} HashValues(items: seq<Item>, of: Entry -> string)
    requires Distinct(items)
    ensures forall item | item in items ::
      item.id in Hashes(items, of) && Hashes(items, of)[item.id] == of(item.entry)
  {
    if |items| > 0 {
      HashValues(items[..|items| - 1], of);
      LastItem(items);
    }
  }

  lemma LastItem(items: seq<Item>)
    requires |items| > 0
    ensures
      var init, last := items[..|items| - 1], items[|items| - 1];
      && (set item | item in items :: item.id) == (set item | item in init :: item.id) + {last.id}
      && (Distinct(items) <==> Distinct(init) && last.id !in (set item | item in init :: item.id))
      && (forall item :: item in items <==> item in init || item == last)
  {
    var init, last := items[..|items| - 1], items[|items| - 1];
    assert items == init + [last];
    if Distinct(items) {
      forall item | item in init ensures item.id != last.id {
        var i :| 0 <= i < |init| && init[i] == item;
        assert items[i] == item && items[|items| - 1] == last;
      }
    }
    if Distinct(init) && last.id !in (set item | item in init :: item.id) {
      forall i, j | 0 <= i < j < |items| ensures items[i].id != items[j].id {
        assert items[i] in init;
      }
    }
  }
}
