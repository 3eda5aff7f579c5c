/** The incremental path against the from-scratch one: whatever chain of plans and builds led
    to a release, its vectors are those that seeding its entries produces. */
module Incremental {
  import opened Options
  import opened Vectors
  import opened Planner
  import opened Work
  import opened Release
  import B = BatchStore

  // ---------------------------------------------------- a release from scratch

  /** Every file belongs to an entry and is what seeding writes for it. */
  ghost predicate PartOfSeed(w: World, dir: Directory, entries: Entries, release: string) {
    forall d | d in dir ::
      && dir[d].id in entries && d == DocId(dir[d].id, release)
      && dir[d] == RecordOf(w, dir[d].id, entries[dir[d].id], release)
  }

  /** And every entry has its file. */
  ghost predicate IsSeed(w: World, dir: Directory, entries: Entries, release: string) {
    PartOfSeed(w, dir, entries, release) && forall id | id in entries :: DocId(id, release) in dir
  }

  lemma SeedIsUnique(w: World, a: Directory, b: Directory, entries: Entries, release: string)
    requires IsSeed(w, a, entries, release) && IsSeed(w, b, entries, release)
    ensures a == b
  {
    forall d | d in a ensures d in b && a[d] == b[d] {
      DocIdsDiffer(a[d].id, b[d].id, release);
    }
    assert forall d | d in b :: d in a;
    assert a.Keys == b.Keys;
  }

  /** The records of exactly these entries. */
  ghost predicate RecordsOf(
      w: World, records: seq<VectorRecord>, entries: Entries, release: string)
  {
    && (forall r | r in records :: r.id in entries && r == RecordOf(w, r.id, entries[r.id], release))
    && (forall id | id in entries :: RecordOf(w, id, entries[id], release) in records)
  }

  lemma RecordsCoherent(w: World, records: seq<VectorRecord>, entries: Entries, release: string)
    requires RecordsOf(w, records, entries, release)
    ensures B.Coherent(records)
  {
    forall i, j | 0 <= i < j < |records| && B.Id(records[i]) == B.Id(records[j])
      ensures records[i] == records[j]
    {
      assert records[i] in records && records[j] in records;
      DocIdsDiffer(records[i].id, records[j].id, release);
    }
  }

  /** Persisting them into an empty directory, with whatever failures on the way, is seeding. */
  lemma PersistedIsSeed(
      w: World, records: seq<VectorRecord>, entries: Entries, release: string,
      attempts: seq<B.Attempt>)
    requires RecordsOf(w, records, entries, release)
    requires forall a | a in attempts :: forall r | r in a.records :: r in records
    ensures
      IsSeed(w, B.Persisted(B.Series(map[], attempts), records, B.NO_FAILURE), entries, release)
  {
    hide B.Persisted;
    RecordsCoherent(w, records, entries, release);
    B.BatchConverges(map[], attempts, records);
    var dir := B.Persisted(map[], records, B.NO_FAILURE);
    forall id | id in entries ensures DocId(id, release) in dir {
      var r := RecordOf(w, id, entries[id], release);
      assert r in records && B.Id(r) in dir;
    }
  }

  ghost predicate Names(items: seq<Item>, entries: Entries) {
    && Distinct(items)
    && (forall item | item in items :: item.id in entries && entries[item.id] == item.entry)
    && (forall id | id in entries :: exists item | item in items :: item.id == id)
  }

  lemma SeedRecordsOf(w: World, items: seq<Item>, entries: Entries, release: string)
    requires Names(items, entries)
    ensures RecordsOf(w, SeedRecords(w, items, release), entries, release)
  {
    var records := SeedRecords(w, items, release);
    forall id | id in entries ensures RecordOf(w, id, entries[id], release) in records {
      var item :| item in items && item.id == id;
      var i :| 0 <= i < |items| && items[i] == item;
      assert records[i] == RecordOf(w, id, entries[id], release);
    }
  }

  lemma CreatedIsSeed(w: World, items: seq<Item>, entries: Entries, release: string)
    requires Names(items, entries)
    ensures IsSeed(w, B.Create(map[], SeedRecords(w, items, release)), entries, release)
  {
    var records := SeedRecords(w, items, release);
    SeedRecordsOf(w, items, entries, release);
    B.CreateFacts(map[], records);
    var dir := B.Create(map[], records);
    forall id | id in entries ensures DocId(id, release) in dir {
      assert B.Id(RecordOf(w, id, entries[id], release)) in dir;
    }
  }

  // ------------------------------------------------------------- verification

  lemma SeedFileOk(w: World, digest: Body -> string, items: seq<Item>, entries: Entries, release: string, id: string)
    requires w.Valid() && Names(items, entries) && id in entries && '_' !in id
    ensures
      FileOk(SeedManifest(w, digest, items, release).body, release, DocId(id, release),
             FileOf(RecordOf(w, id, entries[id], release)))
  {
    HashesFacts(items, (e: Entry) => e.rawHash);
    HashesFacts(items, (e: Entry) => w.hash(e.canonical));
    EntryPartOf(id, release);
    var item :| item in items && item.id == id;
  }

  lemma SeedParts(w: World, dir: Directory, entries: Entries, release: string)
    requires IsSeed(w, dir, entries, release)
    requires forall id | id in entries :: '_' !in id
    ensures Parts(dir.Keys) == entries.Keys && OnePerEntry(dir.Keys)
  {
    forall d | d in dir ensures EntryPart(d) == dir[d].id {
      EntryPartOf(dir[d].id, release);
    }
    forall id | id in entries ensures id in Parts(dir.Keys) {
      assert DocId(id, release) in dir;
      EntryPartOf(id, release);
    }
  }

  lemma ItemIds(items: seq<Item>, entries: Entries)
    requires Names(items, entries)
    ensures (set item | item in items :: item.id) == entries.Keys
  {
    forall id | id in entries ensures id in (set item | item in items :: item.id) {
      var item :| item in items && item.id == id;
    }
  }

  /** A directory that is the seed of the manifest's entries verifies exactly when no id has an
      underscore: the check takes the id from the part of the file name before the first. */
  lemma SeedVerifiesIffUnderscoreFree(
      w: World, digest: Body -> string, items: seq<Item>, entries: Entries, release: string,
      dir: Directory)
    requires w.Valid() && Names(items, entries) && IsSeed(w, dir, entries, release)
    ensures
      Verified(digest, Some(SeedManifest(w, digest, items, release)), release, Some(Stored(dir)))
      <==> UnderscoreFree(items)
  {
    hide FileOk, OnePerEntry, Parts, Names, IsSeed, SeedManifest;
    var m := SeedManifest(w, digest, items, release);
    ManifestShape(w, digest, items, entries, release);
    assert Stored(dir).Keys == dir.Keys;
    if UnderscoreFree(items) {
      SeedFilesOk(w, digest, items, entries, release, dir);
    } else {
      var item :| item in items && '_' in item.id;
      PartsAreUnderscoreFree(dir.Keys, item.id);
      ItemKnown(items, entries, item);
    }
  }

  lemma ManifestShape(w: World, digest: Body -> string, items: seq<Item>, entries: Entries, release: string)
    requires Names(items, entries)
    ensures
      var m := SeedManifest(w, digest, items, release);
      && !m.body.blocked && m.selfHash == digest(m.body)
      && |m.body.artifactHashes| == m.body.entriesCount
      && m.body.artifactHashes.Keys == entries.Keys
  {
    HashesFacts(items, (e: Entry) => e.rawHash);
    ItemIds(items, entries);
  }

  lemma PartsAreUnderscoreFree(stems: set<string>, id: string)
    requires '_' in id
    ensures id !in Parts(stems)
  {
  }

  lemma ItemKnown(items: seq<Item>, entries: Entries, item: Item)
    requires Names(items, entries) && item in items
    ensures item.id in entries
  {
  }

  lemma SeedFilesOk(
      w: World, digest: Body -> string, items: seq<Item>, entries: Entries, release: string,
      dir: Directory)
    requires w.Valid() && Names(items, entries) && IsSeed(w, dir, entries, release)
    requires UnderscoreFree(items)
    ensures Parts(dir.Keys) == entries.Keys && OnePerEntry(dir.Keys)
    ensures forall d | d in dir ::
      FileOk(SeedManifest(w, digest, items, release).body, release, d, FileOf(dir[d]))
  {
    hide FileOk, OnePerEntry, Parts, SeedManifest, RecordOf;
    forall id | id in entries ensures '_' !in id {
      var item :| item in items && item.id == id;
    }
    SeedParts(w, dir, entries, release);
    forall d | d in dir
      ensures FileOk(SeedManifest(w, digest, items, release).body, release, d, FileOf(dir[d]))
    {
      SeedFileOk(w, digest, items, entries, release, dir[d].id);
    }
  }

  /** Seeding into an empty directory yields a valid release exactly when the ids are distinct
      and free of underscores. */
  lemma SeededReleaseVerifies(
      w: World, digest: Body -> string, items: seq<Item>, release: string)
    requires w.Valid()
    ensures
      Verified(digest, Some(SeedManifest(w, digest, items, release)), release,
               Some(Stored(B.Create(map[], SeedRecords(w, items, release)))))
      <==> Distinct(items) && UnderscoreFree(items)
  {
    hide FileOk, Verified, B.Create;
    if Distinct(items) {
      var entries := EntriesOf(items);
      NamesItems(items);
      CreatedIsSeed(w, items, entries, release);
      SeedVerifiesIffUnderscoreFree(w, digest, items, entries, release,
                                    B.Create(map[], SeedRecords(w, items, release)));
    } else {
      HashesFacts(items, (e: Entry) => e.rawHash);
      TooFewHashes(w, digest, items, release,
                   Stored(B.Create(map[], SeedRecords(w, items, release))));
    }
  }

  lemma TooFewHashes(w: World, digest: Body -> string, items: seq<Item>, release: string, dir: Files)
    requires |Hashes(items, (e: Entry) => e.rawHash)| != |items|
    ensures !Verified(digest, Some(SeedManifest(w, digest, items, release)), release, Some(dir))
  {
  }

  function EntriesOf(items: seq<Item>): Entries {
    if |items| == 0 then map[]
    else EntriesOf(items[..|items| - 1])[items[|items| - 1].id := items[|items| - 1].entry]
  }

  lemma {:induction false} NamesItems(items: seq<Item>)
    requires Distinct(items)
    ensures Names(items, EntriesOf(items))
  {
    if |items| > 0 {
      var init, last := items[..|items| - 1], items[|items| - 1];
      LastItem(items);
      NamesItems(init);
      var entries := EntriesOf(items);
      forall id | id in entries ensures exists item | item in items :: item.id == id {
        if id != last.id {
          var item :| item in init && item.id == id;
          assert item in items;
        } else {
          assert last in items;
        }
      }
    }
  }

  // ---------------------------------------------------------- one plan and build

  /** What a build works on when the plan and the prior directory belong together. */
  ghost predicate Fits(
      w: World, plan: Plan, prior: Entries, eligible: Entries, excluded: set<string>,
      metas: map<string, Meta>, dir: Directory, priorRelease: string,
      index: Prior, todo: seq<string>, kept: seq<string>)
  {
    && w.Valid()
    && PlanFor(plan, w, prior, eligible, excluded, metas)
    && PartOfSeed(w, dir, prior, priorRelease)
    && Indexes(index, Some(dir))
    && Agenda(plan, eligible, todo, kept)
  }

  /** Ids that all have an entry are all worked on. */
  lemma {:induction false} KnownIsAll(ids: seq<string>, entries: Entries)
    requires AllKnown(ids, entries)
    ensures Known(ids, entries) == ids
  {
    if |ids| > 0 {
      var init := ids[..|ids| - 1];
      assert ids == init + [ids[|ids| - 1]];
      assert AllKnown(init, entries) && ids[|ids| - 1] in entries;
      KnownIsAll(init, entries);
    }
  }

  lemma WorkSets(
      w: World, plan: Plan, prior: Entries, eligible: Entries, excluded: set<string>,
      metas: map<string, Meta>)
    requires PlanFor(plan, w, prior, eligible, excluded, metas)
    ensures
      var same := UnchangedSet(w, prior, eligible, metas);
      && IdSet(plan.unchangedIds) == same <= eligible.Keys
      && IdSet(plan.newIds) + IdSet(plan.changedIds) == eligible.Keys - same
  {
    hide Lists, UnchangedSet, IdSet;
    var same := UnchangedSet(w, prior, eligible, metas);
    UnchangedInBoth(w, prior, eligible, metas);
    ListsSet(plan.unchangedIds, same);
    ListsSet(plan.newIds, eligible.Keys - prior.Keys);
    ListsSet(plan.changedIds, prior.Keys * eligible.Keys - same);
    NewOrChanged(prior.Keys, eligible.Keys, same);
  }

  lemma NewOrChanged(prior: set<string>, eligible: set<string>, same: set<string>)
    requires same <= prior * eligible
    ensures (eligible - prior) + (prior * eligible - same) == eligible - same
    ensures same <= eligible
  {
  }

  /** The agenda: every eligible id exactly once, the unchanged ones kept. */
  lemma AgendaCovers(
      w: World, plan: Plan, prior: Entries, eligible: Entries, excluded: set<string>,
      metas: map<string, Meta>, todo: seq<string>, kept: seq<string>)
    requires PlanFor(plan, w, prior, eligible, excluded, metas)
    requires Agenda(plan, eligible, todo, kept)
    ensures forall id :: id in kept <==> id in UnchangedSet(w, prior, eligible, metas)
    ensures forall id :: id in todo <==> id in eligible && id !in UnchangedSet(w, prior, eligible, metas)
    ensures |todo| + |kept| == |eligible|
  {
    hide Lists, UnchangedSet, PlanFor, IdSet, Agenda;
    var same := UnchangedSet(w, prior, eligible, metas);
    WorkSets(w, plan, prior, eligible, excluded, metas);
    AgendaLists(plan, eligible, todo, kept);
    ListsMembers(todo, eligible.Keys - same);
    ListsMembers(kept, same);
    SizesAdd(eligible.Keys - same, same, eligible.Keys);
  }

  lemma AgendaLists(plan: Plan, eligible: Entries, todo: seq<string>, kept: seq<string>)
    requires Agenda(plan, eligible, todo, kept)
    requires IdSet(plan.newIds) + IdSet(plan.changedIds) <= eligible.Keys
    requires IdSet(plan.unchangedIds) <= eligible.Keys
    ensures Lists(todo, IdSet(plan.newIds) + IdSet(plan.changedIds))
    ensures Lists(kept, IdSet(plan.unchangedIds))
  {
    hide Known, Lists, IdSet;
    var work := IdSet(plan.newIds) + IdSet(plan.changedIds);
    var a :| Lists(a, work) && todo == Known(a, eligible);
    var b :| Lists(b, IdSet(plan.unchangedIds)) && kept == Known(b, eligible);
    ListedAreKnown(a, work, eligible);
    ListedAreKnown(b, IdSet(plan.unchangedIds), eligible);
  }

  lemma ListedAreKnown(ids: seq<string>, s: set<string>, entries: Entries)
    requires Lists(ids, s) && s <= entries.Keys
    ensures Known(ids, entries) == ids
  {
    ListsMembers(ids, s);
    KnownIsAll(ids, entries);
  }

  lemma FreshIsSeed(w: World, plan: Plan, eligible: Entries, id: string, release: string)
    requires w.Valid() && plan.newCanonical == CanonicalHashes(w, eligible) && id in eligible
    ensures FreshRecord(w, plan, id, eligible[id], release) == RecordOf(w, id, eligible[id], release)
  {
    assert |w.hash(eligible[id].canonical)| == HASH_DIGITS;
  }

  /** An unchanged id: the digest assertion holds and the copy is the record of its entry. No
      injectivity of the hash is needed, as the vector depends on the digest only. */
  lemma KeptIsSeed(
      w: World, plan: Plan, prior: Entries, eligible: Entries, metas: map<string, Meta>,
      dir: Directory, priorRelease: string, index: Prior, id: string, release: string)
    requires w.Valid() && plan.newCanonical == CanonicalHashes(w, eligible)
    requires PartOfSeed(w, dir, prior, priorRelease) && Indexes(index, Some(dir))
    requires id in UnchangedSet(w, prior, eligible, metas)
    ensures KeptRecord(w, plan, id, eligible[id], index, release) == RecordOf(w, id, eligible[id], release)
    ensures id in index ==> DigestHolds(w, eligible[id], index[id])
  {
    FreshIsSeed(w, plan, eligible, id, release);
    if id in index {
      var d :| d in dir && dir[d] == index[id];
      assert index[id] == RecordOf(w, id, prior[id], priorRelease);
      assert |w.hash(prior[id].document)| == HASH_DIGITS;
    }
  }

  /** The unchanged-digest assertion never fires, and a build raises exactly when an entry that
      is embedded or copied is not embeddable, or an excluded id is eligible. */
  lemma BuildRaisesExactly(
      w: World, plan: Plan, prior: Entries, eligible: Entries, excluded: set<string>,
      metas: map<string, Meta>, dir: Directory, priorRelease: string,
      index: Prior, todo: seq<string>, kept: seq<string>, release: string)
    requires Fits(w, plan, prior, eligible, excluded, metas, dir, priorRelease, index, todo, kept)
    requires AllKnown(todo, eligible) && AllKnown(kept, eligible)
    ensures forall id | id in kept && id in index :: DigestHolds(w, eligible[id], index[id])
    ensures Fails(w, plan, eligible, index, release, todo, kept) <==>
      || (exists id | id in eligible && (id in todo || id in index) :: !Embeddable(eligible[id]))
      || (exists id | id in eligible :: id in excluded)
  {
    hide UnchangedSet, Agenda, PartOfSeed, Indexes, RecordOf, Embeddable, ValidRecord, DigestHolds,
      KeptRecord, FreshRecord, Lists;
    AgendaCovers(w, plan, prior, eligible, excluded, metas, todo, kept);
    PlanConserves(plan, w, prior, eligible, excluded, metas);
    ListsMembers(plan.excludedIds, excluded);
    forall id | id in eligible
      ensures FreshFails(w, plan, id, eligible[id], release) <==> !Embeddable(eligible[id])
    {
      FreshIsSeed(w, plan, eligible, id, release);
      RecordValidIffEmbeddable(w, id, eligible[id], release);
    }
    forall id | id in kept && id in index
      ensures DigestHolds(w, eligible[id], index[id])
      ensures ReuseFails(w, plan, id, eligible[id], index[id], release) <==> !Embeddable(eligible[id])
    {
      KeptIsSeed(w, plan, prior, eligible, metas, dir, priorRelease, index, id, release);
      KeptIsReused(w, plan, id, eligible[id], index, release);
      RecordValidIffEmbeddable(w, id, eligible[id], release);
    }
  }

  lemma KeptIsReused(w: World, plan: Plan, id: string, e: Entry, index: Prior, release: string)
    requires id in index
    ensures KeptRecord(w, plan, id, e, index, release) == ReusedRecord(w, plan, id, e, index[id], release)
  {
  }

  /** The records of a build are those that seeding the eligible entries writes. */
  lemma BuildRecords(
      w: World, plan: Plan, prior: Entries, eligible: Entries, excluded: set<string>,
      metas: map<string, Meta>, dir: Directory, priorRelease: string,
      index: Prior, todo: seq<string>, kept: seq<string>, release: string)
    requires Fits(w, plan, prior, eligible, excluded, metas, dir, priorRelease, index, todo, kept)
    requires AllKnown(todo, eligible) && AllKnown(kept, eligible)
    ensures
      RecordsOf(w, FreshRecords(w, plan, todo, eligible, release)
                   + KeptRecords(w, plan, kept, eligible, index, release), eligible, release)
  {
    hide UnchangedSet, Agenda, PartOfSeed, Indexes, RecordOf, KeptRecord, FreshRecord, Lists;
    AgendaCovers(w, plan, prior, eligible, excluded, metas, todo, kept);
    var first := FreshRecords(w, plan, todo, eligible, release);
    var rest := KeptRecords(w, plan, kept, eligible, index, release);
    forall i | 0 <= i < |todo| ensures first[i] == RecordOf(w, todo[i], eligible[todo[i]], release) {
      FreshIsSeed(w, plan, eligible, todo[i], release);
    }
    forall i | 0 <= i < |kept| ensures rest[i] == RecordOf(w, kept[i], eligible[kept[i]], release) {
      KeptIsSeed(w, plan, prior, eligible, metas, dir, priorRelease, index, kept[i], release);
    }
    Listed(w, first, todo, eligible, release);
    Listed(w, rest, kept, eligible, release);
  }

  lemma Listed(w: World, records: seq<VectorRecord>, ids: seq<string>, eligible: Entries, release: string)
    requires AllKnown(ids, eligible) && |records| == |ids|
    requires forall i | 0 <= i < |ids| :: records[i] == RecordOf(w, ids[i], eligible[ids[i]], release)
    ensures forall r | r in records :: r.id in ids && r == RecordOf(w, r.id, eligible[r.id], release)
    ensures forall id | id in ids :: RecordOf(w, id, eligible[id], release) in records
  {
    forall id | id in ids ensures RecordOf(w, id, eligible[id], release) in records {
      var i :| 0 <= i < |ids| && ids[i] == id;
      assert records[i] == RecordOf(w, id, eligible[id], release);
    }
  }

  lemma {:induction false} SplitFacts(kept: seq<string>, prior: Prior)
    ensures forall id :: id in With(kept, prior) <==> id in kept && id in prior
    ensures forall id :: id in Without(kept, prior) <==> id in kept && id !in prior
    ensures |With(kept, prior)| + |Without(kept, prior)| == |kept|
  {
    if |kept| > 0 {
      var init, last := kept[..|kept| - 1], kept[|kept| - 1];
      SplitFacts(init, prior);
      assert kept == init + [last];
      assert forall id :: id in kept <==> id in init || id == last;
    }
  }

  /** Accounting: requested and reused ids partition the eligible ids, an id is reused exactly
      when it is unchanged and has a prior vector, and the numbers add up. */
  lemma RequestedAndReusedPartition(
      w: World, plan: Plan, prior: Entries, eligible: Entries, excluded: set<string>,
      metas: map<string, Meta>, dir: Directory, priorRelease: string,
      index: Prior, todo: seq<string>, kept: seq<string>)
    requires Fits(w, plan, prior, eligible, excluded, metas, dir, priorRelease, index, todo, kept)
    ensures
      var requested, reused := todo + Without(kept, index), With(kept, index);
      && (forall id :: id in requested || id in reused <==> id in eligible)
      && (forall id :: !(id in requested && id in reused))
      && (forall id :: id in reused <==> id in UnchangedSet(w, prior, eligible, metas) && id in index)
      && |requested| + |reused| == |eligible|
  {
    hide UnchangedSet, Agenda, PartOfSeed, Indexes, Lists, With, Without, PlanFor;
    AgendaCovers(w, plan, prior, eligible, excluded, metas, todo, kept);
    SplitFacts(kept, index);
    UnchangedInBoth(w, prior, eligible, metas);
  }

  // ------------------------------------------------------------------- chains

  /** One release of a chain. */
  datatype Stage = Stage(
    entries: Entries, excluded: set<string>, metas: map<string, Meta>, release: string)

  /** `dir2` is what this work leaves in an empty directory, possibly after any number of failed
      calls with records of the same batch. */
  ghost predicate BuiltBy(
      w: World, from: Stage, dir: Directory, to: Stage, dir2: Directory,
      plan: Plan, index: Prior, todo: seq<string>, kept: seq<string>, attempts: seq<B.Attempt>)
  {
    && PlanFor(plan, w, from.entries, to.entries, to.excluded, to.metas)
    && Indexes(index, Some(dir)) && Agenda(plan, to.entries, todo, kept)
    && AllKnown(todo, to.entries) && AllKnown(kept, to.entries)
    && !Fails(w, plan, to.entries, index, to.release, todo, kept)
    && var records := FreshRecords(w, plan, todo, to.entries, to.release)
                      + KeptRecords(w, plan, kept, to.entries, index, to.release);
    && (forall a | a in attempts :: forall r | r in a.records :: r in records)
    && dir2 == B.Persisted(B.Series(map[], attempts), records, B.NO_FAILURE)
  }

  ghost predicate Builds(w: World, from: Stage, dir: Directory, to: Stage, dir2: Directory) {
    exists plan: Plan, index: Prior, todo: seq<string>, kept: seq<string>, attempts: seq<B.Attempt> ::
      BuiltBy(w, from, dir, to, dir2, plan, index, todo, kept, attempts)
  }

  lemma BuildIsSeed(w: World, from: Stage, dir: Directory, to: Stage, dir2: Directory)
    requires w.Valid() && IsSeed(w, dir, from.entries, from.release) && Builds(w, from, dir, to, dir2)
    ensures IsSeed(w, dir2, to.entries, to.release)
  {
    hide PlanFor, Indexes, Agenda, PartOfSeed, B.Persisted, FreshRecords, KeptRecords, Fails, B.Series;
    var plan: Plan, index: Prior, todo: seq<string>, kept: seq<string>, attempts: seq<B.Attempt> :|
      BuiltBy(w, from, dir, to, dir2, plan, index, todo, kept, attempts);
    var records := FreshRecords(w, plan, todo, to.entries, to.release)
                   + KeptRecords(w, plan, kept, to.entries, index, to.release);
    BuildRecords(w, plan, from.entries, to.entries, to.excluded, to.metas, dir, from.release,
                 index, todo, kept, to.release);
    PersistedIsSeed(w, records, to.entries, to.release, attempts);
  }

  ghost predicate Chain(w: World, stages: seq<Stage>, dirs: seq<Directory>) {
    && 0 < |stages| == |dirs|
    && IsSeed(w, dirs[0], stages[0].entries, stages[0].release)
    && forall k | 0 <= k < |stages| - 1 :: Builds(w, stages[k], dirs[k], stages[k + 1], dirs[k + 1])
  }

  /** Incremental equals from scratch: along any chain of plans and completed builds, every
      release holds exactly the vectors and documents that seeding its entries produces. */
  lemma {:induction false} IncrementalEqualsFromScratch(
      w: World, stages: seq<Stage>, dirs: seq<Directory>, k: nat, items: seq<Item>)
    requires w.Valid() && Chain(w, stages, dirs) && k < |stages|
    requires Names(items, stages[k].entries)
    ensures dirs[k] == B.Create(map[], SeedRecords(w, items, stages[k].release))
  {
    hide IsSeed, Builds, B.Create, SeedRecords, Names;
    ChainSeeds(w, stages, dirs, k);
    CreatedIsSeed(w, items, stages[k].entries, stages[k].release);
    SeedIsUnique(w, dirs[k], B.Create(map[], SeedRecords(w, items, stages[k].release)),
                 stages[k].entries, stages[k].release);
  }

  lemma {:induction false} ChainSeeds(w: World, stages: seq<Stage>, dirs: seq<Directory>, k: nat)
    requires w.Valid() && Chain(w, stages, dirs) && k < |stages|
    ensures IsSeed(w, dirs[k], stages[k].entries, stages[k].release)
  {
    hide IsSeed, Builds;
    if k > 0 {
      ChainSeeds(w, stages, dirs, k - 1);
      BuildIsSeed(w, stages[k - 1], dirs[k - 1], stages[k], dirs[k]);
    }
  }

  /** The release at the end of a chain verifies under the manifest of its entries exactly when
      their ids are free of underscores. */
  lemma BuiltReleaseVerifies(
      w: World, digest: Body -> string, stages: seq<Stage>, dirs: seq<Directory>, k: nat,
      items: seq<Item>)
    requires w.Valid() && Chain(w, stages, dirs) && k < |stages|
    requires Names(items, stages[k].entries)
    ensures
      Verified(digest, Some(SeedManifest(w, digest, items, stages[k].release)),
               stages[k].release, Some(Stored(dirs[k])))
      <==> UnderscoreFree(items)
  {
    hide IsSeed, Builds, Verified, Names;
    ChainSeeds(w, stages, dirs, k);
    SeedVerifiesIffUnderscoreFree(w, digest, items, stages[k].entries, stages[k].release, dirs[k]);
  }

  // ------------------------------------------------- what a stored file holds

  /** The file of an entry, field by field. */
  ghost predicate HoldsEntry(w: World, r: VectorRecord, id: string, e: Entry, release: string) {
    && r.id == id && r.release == release
    && r.vector == w.generate(w.hash(e.document))
    && r.document == e.document && r.documentHash == w.hash(e.document)
    && r.canonicalHash == w.hash(e.canonical)
    && r.rawHash == e.rawHash && r.sourceKind == e.sourceKind
    && r.model == "gemini-embedding-001" && r.dimensions == 768
    && r.task == "RETRIEVAL_DOCUMENT" && r.distance == "DOT_PRODUCT" && r.schema == "emb-768-v1"
  }

  /** One file for every entry under its document id, and no other file. */
  ghost predicate HoldsEntries(w: World, dir: Directory, entries: Entries, release: string) {
    && (forall id | id in entries ::
          DocId(id, release) in dir && HoldsEntry(w, dir[DocId(id, release)], id, entries[id], release))
    && (forall d | d in dir :: exists id | id in entries :: d == DocId(id, release))
  }

  lemma SeedHoldsEntries(w: World, dir: Directory, entries: Entries, release: string)
    requires IsSeed(w, dir, entries, release)
    ensures HoldsEntries(w, dir, entries, release)
  {
    forall id | id in entries
      ensures DocId(id, release) in dir && HoldsEntry(w, dir[DocId(id, release)], id, entries[id], release)
    {
      var d := DocId(id, release);
      assert d in dir;
      DocIdsDiffer(dir[d].id, id, release);
    }
  }

  /** Seeding into an empty directory embeds the document of every item and stores it with its
      hash, the hash of the canonical content, the raw hash and the source kind; nothing else is
      there. */
  lemma SeededDirectoryHoldsItsEntries(w: World, items: seq<Item>, release: string)
    requires Distinct(items)
    ensures
      var dir := B.Create(map[], SeedRecords(w, items, release));
      && (forall item | item in items ::
            DocId(item.id, release) in dir
            && HoldsEntry(w, dir[DocId(item.id, release)], item.id, item.entry, release))
      && (forall d | d in dir :: exists item | item in items :: d == DocId(item.id, release))
  {
    hide HoldsEntry, B.Create, IsSeed, SeedRecords, Names, EntriesOf, DocId, Distinct;
    var entries, dir := EntriesOf(items), B.Create(map[], SeedRecords(w, items, release));
    NamesItems(items);
    CreatedIsSeed(w, items, entries, release);
    SeedHoldsEntries(w, dir, entries, release);
    NamesFacts(items, entries);
    forall d | d in dir ensures exists item | item in items :: d == DocId(item.id, release) {
      var id :| id in entries && d == DocId(id, release);
      var item :| item in items && item.id == id;
    }
  }

  lemma NamesFacts(items: seq<Item>, entries: Entries)
    requires Names(items, entries)
    ensures forall item | item in items :: item.id in entries && entries[item.id] == item.entry
    ensures forall id | id in entries :: exists item | item in items :: item.id == id
  {
  }

  /** And so does every release along a chain of builds. */
  lemma BuiltDirectoryHoldsItsEntries(w: World, stages: seq<Stage>, dirs: seq<Directory>, k: nat)
    requires w.Valid() && Chain(w, stages, dirs) && k < |stages|
    ensures HoldsEntries(w, dirs[k], stages[k].entries, stages[k].release)
  {
    hide IsSeed, Builds, HoldsEntries;
    ChainSeeds(w, stages, dirs, k);
    SeedHoldsEntries(w, dirs[k], stages[k].entries, stages[k].release);
  }

  /** In the files on disk task and distance are given, and each of the three fields for the raw
      hash holds the entry's. */
  lemma StoredFilesHoldTheRawHash(w: World, dir: Directory, entries: Entries, release: string, id: string)
    requires HoldsEntries(w, dir, entries, release) && id in entries
    ensures DocId(id, release) in Stored(dir)
    ensures
      var f := Stored(dir)[DocId(id, release)];
      && f.record == dir[DocId(id, release)]
      && f.raw == f.content == f.alias == Some(entries[id].rawHash)
      && f.task == Some("RETRIEVAL_DOCUMENT") && f.documentTask.None? && f.distance == Some("DOT_PRODUCT")
  {
  }
}
