/** Executing a delta plan: fresh vectors for new and changed ids, copies for unchanged ones. */
module Work {
  import opened Options
  import opened Order
  import opened Vectors
  import opened Planner
  import B = BatchStore

  datatype Reason = InvalidRecord | DigestMismatch | RemovedReceivedWork | ExcludedReceivedWork

  datatype BuildReport = BuildReport(
    requested: seq<string>, reused: seq<string>, providerCalls: nat, batch: B.BatchResult)

  datatype BuildResult = Built(report: BuildReport) | Raised(reason: Reason)

  /** Prior records by entry id. */
  type Prior = map<string, VectorRecord>

  function CanonicalIn(plan: Plan, id: string, fallback: string): string {
    if id in plan.newCanonical && plan.newCanonical[id] != "" then plan.newCanonical[id] else fallback
  }

  function FreshRecord(w: World, plan: Plan, id: string, e: Entry, release: string): VectorRecord {
    RecordOf(w, id, e, release).(canonicalHash := CanonicalIn(plan, id, ""))
  }

  /** Exactly DIMENSIONS numbers: longer vectors are cut, shorter ones padded with zeros. */
  function Fit(v: Vector): (r: Vector)
    ensures |r| == DIMENSIONS
    ensures |v| == DIMENSIONS ==> r == v
  {
    if |v| == DIMENSIONS then v
    else if |v| > DIMENSIONS then v[..DIMENSIONS]
    else v + seq(DIMENSIONS - |v|, _ => 0.0)
  }

  /** The stored document's digest; a prior record without a document cannot disagree. */
  function PriorDocumentHash(w: World, p: VectorRecord, document: string): string {
    if p.document == "" then w.hash(document)
    else if p.documentHash != "" then p.documentHash
    else w.hash(p.document)
  }

  function ReusedRecord(w: World, plan: Plan, id: string, e: Entry, p: VectorRecord, release: string)
    : VectorRecord
  {
    RecordOf(w, id, e, release).(
      vector := Fit(p.vector), canonicalHash := CanonicalIn(plan, id, p.canonicalHash))
  }

  predicate DigestHolds(w: World, e: Entry, p: VectorRecord) {
    PriorDocumentHash(w, p, e.document) == w.hash(e.document)
  }

  // --------------------------------------------------------- specification

  function Known(ids: seq<string>, entries: Entries): seq<string> {
    if |ids| == 0 then []
    else
      var init, last := Known(ids[..|ids| - 1], entries), ids[|ids| - 1];
      if last in entries then init + [last] else init
  }

  function With(ids: seq<string>, prior: Prior): seq<string> {
    if |ids| == 0 then []
    else
      var init, last := With(ids[..|ids| - 1], prior), ids[|ids| - 1];
      if last in prior then init + [last] else init
  }

  function Without(ids: seq<string>, prior: Prior): seq<string> {
    if |ids| == 0 then []
    else
      var init, last := Without(ids[..|ids| - 1], prior), ids[|ids| - 1];
      if last in prior then init else init + [last]
  }

  function FreshRecords(w: World, plan: Plan, ids: seq<string>, entries: Entries, release: string)
    : seq<VectorRecord>
    requires forall id | id in ids :: id in entries
  {
    seq(|ids|, i requires 0 <= i < |ids| => FreshRecord(w, plan, ids[i], entries[ids[i]], release))
  }

  /** The record of an unchanged id: the prior values, or fresh ones where there are none. */
  function KeptRecord(
      w: World, plan: Plan, id: string, e: Entry, prior: Prior, release: string): VectorRecord
  {
    if id in prior then ReusedRecord(w, plan, id, e, prior[id], release)
    else FreshRecord(w, plan, id, e, release)
  }

  function KeptRecords(
      w: World, plan: Plan, ids: seq<string>, entries: Entries, prior: Prior, release: string)
    : seq<VectorRecord>
    requires forall id | id in ids :: id in entries
  {
    seq(|ids|, i requires 0 <= i < |ids| =>
      KeptRecord(w, plan, ids[i], entries[ids[i]], prior, release))
  }

  /** The lists a build works through, in the order it does. */
  ghost predicate Agenda(plan: Plan, entries: Entries, todo: seq<string>, kept: seq<string>) {
    && (exists ids :: Lists(ids, IdSet(plan.newIds) + IdSet(plan.changedIds))
          && todo == Known(ids, entries))
    && (exists ids :: Lists(ids, IdSet(plan.unchangedIds)) && kept == Known(ids, entries))
  }

  ghost predicate AllKnown(ids: seq<string>, entries: Entries) {
    forall id | id in ids :: id in entries
  }

  predicate FreshFails(w: World, plan: Plan, id: string, e: Entry, release: string) {
    !ValidRecord(FreshRecord(w, plan, id, e, release), release)
  }

  predicate ReuseFails(w: World, plan: Plan, id: string, e: Entry, p: VectorRecord, release: string) {
    !DigestHolds(w, e, p) || !ValidRecord(ReusedRecord(w, plan, id, e, p, release), release)
  }

  /** Why a build raises before it persists anything. */
  ghost predicate Fails(
      w: World, plan: Plan, entries: Entries, prior: Prior, release: string,
      todo: seq<string>, kept: seq<string>)
    requires AllKnown(todo, entries) && AllKnown(kept, entries)
  {
    || (exists id | id in todo :: FreshFails(w, plan, id, entries[id], release))
    || (exists id | id in kept && id in prior ::
          ReuseFails(w, plan, id, entries[id], prior[id], release))
    || (exists id | id in todo + kept :: id in plan.removedIds || id in plan.excludedIds)
  }

  // ---------------------------------------------- records and lists, spelled out

  /** A fresh record embeds the entry's document; its canonical hash is the planned one. */
  lemma FreshExactly(w: World, plan: Plan, id: string, e: Entry, release: string)
    ensures
      var r := FreshRecord(w, plan, id, e, release);
      && r.id == id && r.release == release && r.vector == w.generate(w.hash(e.document))
      && r.document == e.document && r.documentHash == w.hash(e.document)
      && r.rawHash == e.rawHash && r.sourceKind == e.sourceKind
      && r.canonicalHash == (if id in plan.newCanonical then plan.newCanonical[id] else "")
      && r.model == "gemini-embedding-001" && r.dimensions == 768
      && r.task == "RETRIEVAL_DOCUMENT" && r.distance == "DOT_PRODUCT" && r.schema == "emb-768-v1"
  {
  }

  /** A copy carries the prior numbers, cut or filled with zeros to 768, and the rest of the new
      entry; without a planned canonical hash it keeps the prior one. */
  lemma CopyExactly(w: World, plan: Plan, id: string, e: Entry, p: VectorRecord, release: string)
    ensures
      var r := ReusedRecord(w, plan, id, e, p, release);
      && |r.vector| == 768
      && (forall i | 0 <= i < 768 :: r.vector[i] == if i < |p.vector| then p.vector[i] else 0.0)
      && r.canonicalHash == (if id in plan.newCanonical && plan.newCanonical[id] != ""
                             then plan.newCanonical[id] else p.canonicalHash)
      && r.(vector := [], canonicalHash := "")
         == FreshRecord(w, plan, id, e, release).(vector := [], canonicalHash := "")
  {
  }

  /** A copy is a digest mismatch if and only if the prior record has a document, and the digest it
      carries, or else the hash of that document, is not the hash of the entry's document. */
  lemma MismatchExactly(w: World, e: Entry, p: VectorRecord)
    ensures DigestHolds(w, e, p) <==>
      || p.document == ""
      || (p.documentHash != "" && p.documentHash == w.hash(e.document))
      || (p.documentHash == "" && w.hash(p.document) == w.hash(e.document))
  {
  }

  /** Which records fail the checks: those of an entry whose raw hash has not 64 digits or that has
      no source kind, and those without a canonical hash. */
  lemma FailureExactly(w: World, plan: Plan, id: string, e: Entry, p: VectorRecord, release: string)
    requires w.Valid()
    ensures
      var planned := if id in plan.newCanonical then plan.newCanonical[id] else "";
      && (FreshFails(w, plan, id, e, release) <==>
            |e.rawHash| != 64 || e.sourceKind == "" || planned == "")
      && (ReuseFails(w, plan, id, e, p, release) <==>
            || !DigestHolds(w, e, p)
            || |e.rawHash| != 64 || e.sourceKind == "" || (planned == "" && p.canonicalHash == ""))
  {
  }

  /** The three selections keep the order of the list. */
  lemma {:induction false} SelectionsAppend(a: seq<string>, b: seq<string>, entries: Entries, prior: Prior)
    ensures Known(a + b, entries) == Known(a, entries) + Known(b, entries)
    ensures With(a + b, prior) == With(a, prior) + With(b, prior)
    ensures Without(a + b, prior) == Without(a, prior) + Without(b, prior)
  {
    if |b| == 0 {
      assert a + b == a;
    } else {
      var init, last := b[..|b| - 1], b[|b| - 1];
      SelectionsAppend(a, init, entries, prior);
      assert (a + b)[..|a + b| - 1] == a + init && (a + b)[|a + b| - 1] == last;
      assert Known(a + b, entries) == Known(a + init, entries) + (if last in entries then [last] else []);
      assert With(a + b, prior) == With(a + init, prior) + (if last in prior then [last] else []);
      assert Without(a + b, prior) == Without(a + init, prior) + (if last in prior then [] else [last]);
    }
  }

  lemma SelectionsOfOne(id: string, entries: Entries, prior: Prior)
    ensures Known([id], entries) == if id in entries then [id] else []
    ensures With([id], prior) == if id in prior then [id] else []
    ensures Without([id], prior) == if id in prior then [] else [id]
  {
    assert [id][..0] == [];
  }

  // ------------------------------------------------------- the imperative form

  /** Index a directory of prior vectors by entry id. */
  method LoadPrior(dir: Directory) returns (prior: Prior)
    ensures forall id | id in prior :: prior[id].id == id && exists d | d in dir :: dir[d] == prior[id]
    ensures forall d | d in dir :: dir[d].id in prior
  {
    prior := map[];
    var todo := dir.Keys;
    while todo != {}
      invariant todo <= dir.Keys
      invariant forall id | id in prior ::
        prior[id].id == id && exists d | d in dir :: dir[d] == prior[id]
      invariant forall d | d in dir.Keys - todo :: dir[d].id in prior
      decreases todo
    {
      var d :| d in todo;
      prior := prior[dir[d].id := dir[d]];
      todo := todo - {d};
    }
  }

  lemma KnownAreKnown(ids: seq<string>, entries: Entries)
    ensures AllKnown(Known(ids, entries), entries)
  {
  }

  /** Fresh vectors for new and changed ids; one provider call each. */
  method RequestFresh(w: World, plan: Plan, ids: seq<string>, entries: Entries, release: string)
    returns (records: seq<VectorRecord>, requested: seq<string>, calls: nat, ok: bool)
    ensures AllKnown(Known(ids, entries), entries)
    ensures ok <==> forall id | id in Known(ids, entries) :: !FreshFails(w, plan, id, entries[id], release)
    ensures ok ==>
      && requested == Known(ids, entries) && calls == |requested|
      && records == FreshRecords(w, plan, requested, entries, release)
  {
    records, requested, calls := [], [], 0;
    KnownAreKnown(ids, entries);
    var i := 0;
    while i < |ids|
      invariant 0 <= i <= |ids|
      invariant requested == Known(ids[..i], entries) && calls == |requested|
      invariant AllKnown(requested, entries)
      invariant forall id | id in requested :: !FreshFails(w, plan, id, entries[id], release)
      invariant records == FreshRecords(w, plan, requested, entries, release)
    {
      assert ids[..i + 1][..i] == ids[..i];
      var id := ids[i];
      if id in entries {
        var r := FreshRecord(w, plan, id, entries[id], release);
        if !ValidRecord(r, release) {
          KnownGrows(ids, entries, i + 1);
          return records, requested, calls, false;
        }
        records := records + [r];
        requested := requested + [id];
        calls := calls + 1;
      }
      i := i + 1;
    }
    assert ids[..i] == ids;
    ok := true;
  }

  lemma {:induction false} KnownGrows(ids: seq<string>, entries: Entries, i: nat)
    requires i <= |ids|
    ensures forall id | id in Known(ids[..i], entries) :: id in Known(ids, entries)
    decreases |ids|
  {
    if i == |ids| {
      assert ids[..i] == ids;
    } else {
      assert ids[..|ids| - 1][..i] == ids[..i];
      KnownGrows(ids[..|ids| - 1], entries, i);
    }
  }

  /** Copies for unchanged ids with a prior vector, fresh vectors for those without. */
  method MaterializeReuse(
      w: World, plan: Plan, ids: seq<string>, entries: Entries, prior: Prior, release: string)
    returns (records: seq<VectorRecord>, kept: seq<string>, calls: nat, failure: Option<Reason>)
    ensures AllKnown(Known(ids, entries), entries)
    ensures failure.None? <==> forall id | id in Known(ids, entries) && id in prior ::
      !ReuseFails(w, plan, id, entries[id], prior[id], release)
    ensures failure.None? ==>
      && kept == Known(ids, entries) && calls == |Without(kept, prior)|
      && records == KeptRecords(w, plan, kept, entries, prior, release)
  {
    hide ReusedRecord, FreshRecord, ValidRecord, DigestHolds, KeptRecords, Without;
    records, kept, calls := [], [], 0;
    NothingKept(w, plan, entries, prior, release);
    KnownAreKnown(ids, entries);
    var i := 0;
    while i < |ids|
      invariant 0 <= i <= |ids|
      invariant kept == Known(ids[..i], entries) && calls == |Without(kept, prior)|
      invariant AllKnown(kept, entries)
      invariant forall id | id in kept && id in prior ::
        !ReuseFails(w, plan, id, entries[id], prior[id], release)
      invariant records == KeptRecords(w, plan, kept, entries, prior, release)
    {
      assert ids[..i + 1][..i] == ids[..i];
      var id := ids[i];
      if id in entries {
        var e := entries[id];
        if id !in prior {
          records := records + [FreshRecord(w, plan, id, e, release)];
          calls := calls + 1;
        } else {
          var r := ReusedRecord(w, plan, id, e, prior[id], release);
          if !DigestHolds(w, e, prior[id]) || !ValidRecord(r, release) {
            KnownGrows(ids, entries, i + 1);
            var reason := if !DigestHolds(w, e, prior[id]) then DigestMismatch else InvalidRecord;
            return records, kept, calls, Some(reason);
          }
          records := records + [r];
        }
        KeptAppend(w, plan, kept, id, entries, prior, release);
        kept := kept + [id];
      }
      i := i + 1;
    }
    assert ids[..i] == ids;
    failure := None;
  }

  lemma NothingKept(w: World, plan: Plan, entries: Entries, prior: Prior, release: string)
    ensures KeptRecords(w, plan, [], entries, prior, release) == [] && Without([], prior) == []
  {
  }

  lemma KeptAppend(
      w: World, plan: Plan, kept: seq<string>, id: string, entries: Entries, prior: Prior,
      release: string)
    requires AllKnown(kept, entries) && id in entries
    ensures AllKnown(kept + [id], entries)
    ensures KeptRecords(w, plan, kept + [id], entries, prior, release)
            == KeptRecords(w, plan, kept, entries, prior, release)
               + [KeptRecord(w, plan, id, entries[id], prior, release)]
    ensures |Without(kept + [id], prior)| == |Without(kept, prior)| + if id in prior then 0 else 1
  {
    assert (kept + [id])[..|kept + [id]| - 1] == kept;
  }

  /** Split the unchanged ids into those that were reused and those that were requested. */
  method SplitKept(kept: seq<string>, prior: Prior)
    returns (reused: seq<string>, requested: seq<string>)
    ensures reused == With(kept, prior) && requested == Without(kept, prior)
  {
    reused, requested := [], [];
    var i := 0;
    while i < |kept|
      invariant 0 <= i <= |kept|
      invariant reused == With(kept[..i], prior) && requested == Without(kept[..i], prior)
    {
      assert kept[..i + 1][..i] == kept[..i];
      if kept[i] in prior { reused := reused + [kept[i]]; } else { requested := requested + [kept[i]]; }
      i := i + 1;
    }
    assert kept[..i] == kept;
  }

  /** Does any of the ids have one that must not be worked on? */
  method AnyOf(ids: seq<string>, forbidden: seq<string>) returns (any: bool)
    ensures any <==> exists id | id in ids :: id in forbidden
  {
    var i := 0;
    while i < |ids|
      invariant 0 <= i <= |ids|
      invariant forall j | 0 <= j < i :: ids[j] !in forbidden
    {
      if ids[i] in forbidden { return true; }
      i := i + 1;
    }
    any := false;
  }

  /** Everything a build does before it persists: the two loops and the two checks. */
  method Prepare(w: World, plan: Plan, entries: Entries, prior: Prior, release: string)
    returns (records: seq<VectorRecord>, todo: seq<string>, kept: seq<string>, calls: nat,
             failure: Option<Reason>, ghost planned: seq<string>, ghost same: seq<string>)
    ensures Lists(planned, IdSet(plan.newIds) + IdSet(plan.changedIds))
    ensures Lists(same, IdSet(plan.unchangedIds))
    ensures AllKnown(Known(planned, entries), entries) && AllKnown(Known(same, entries), entries)
    ensures failure.Some? <==>
      Fails(w, plan, entries, prior, release, Known(planned, entries), Known(same, entries))
    ensures failure.None? ==>
      && todo == Known(planned, entries) && kept == Known(same, entries)
      && calls == |todo| + |Without(kept, prior)|
      && records == FreshRecords(w, plan, todo, entries, release)
                    + KeptRecords(w, plan, kept, entries, prior, release)
  {
    hide FreshFails, ReuseFails, FreshRecords, KeptRecords, Lists, Known, Without;
    var newOrChanged := SortedIds(IdSet(plan.newIds) + IdSet(plan.changedIds));
    var unchangedIds := SortedIds(IdSet(plan.unchangedIds));
    planned, same := newOrChanged, unchangedIds;
    kept := [];
    var ok;
    records, todo, calls, ok := RequestFresh(w, plan, newOrChanged, entries, release);
    KnownAreKnown(same, entries);
    if !ok { failure := Some(InvalidRecord); return; }
    var others, otherCalls;
    others, kept, otherCalls, failure :=
      MaterializeReuse(w, plan, unchangedIds, entries, prior, release);
    if failure.Some? { return; }
    records, calls := records + others, calls + otherCalls;
    var removed := AnyOf(todo + kept, plan.removedIds);
    if removed { failure := Some(RemovedReceivedWork); return; }
    var excluded := AnyOf(todo + kept, plan.excludedIds);
    if excluded { failure := Some(ExcludedReceivedWork); }
  }

  /** Execute a plan: build the records, check that removed and excluded ids got no work, and
      persist the batch. Nothing is persisted when a check raises. */
  method BuildWork(
      store: B.VectorStore, w: World, plan: Plan, entries: Entries, dir: Option<Directory>,
      release: string, f: B.Failure)
    returns (r: BuildResult, ghost prior: Prior, ghost todo: seq<string>, ghost kept: seq<string>)
    modifies store
    ensures Indexes(prior, dir) && Agenda(plan, entries, todo, kept)
    ensures AllKnown(todo, entries) && AllKnown(kept, entries)
    ensures r.Raised? <==> Fails(w, plan, entries, prior, release, todo, kept)
    ensures r.Raised? ==> store.vectors == old(store.vectors)
    ensures r.Built? ==>
      var records := FreshRecords(w, plan, todo, entries, release)
                     + KeptRecords(w, plan, kept, entries, prior, release);
      && store.vectors == B.Persisted(old(store.vectors), records, f)
      && r.report.requested == todo + Without(kept, prior)
      && r.report.reused == With(kept, prior)
      && r.report.providerCalls == |r.report.requested|
      && (r.report.batch.status != B.Conflict ==>
            (r.report.batch.eligible <==> B.IdsOf(records) <= store.vectors.Keys))
  {
    hide B.Persisted, Fails, FreshRecords, KeptRecords, Lists, Known, With, Without, B.IdsOf;
    var index: Prior := map[];
    if dir.Some? { index := LoadPrior(dir.value); }
    prior := index;
    var records, wanted, unchangedIds, calls, failure, planned, same :=
      Prepare(w, plan, entries, index, release);
    todo, kept := Known(planned, entries), Known(same, entries);
    if failure.Some? { r := Raised(failure.value); return; }
    var batch := store.PersistBatch(records, f);
    var reused, fallback := SplitKept(unchangedIds, index);
    r := Built(BuildReport(wanted + fallback, reused, calls, batch));
  }

  ghost predicate Indexes(prior: Prior, dir: Option<Directory>) {
    && (forall id | id in prior ::
          prior[id].id == id && dir.Some? && exists d | d in dir.value :: dir.value[d] == prior[id])
    && (dir.Some? ==> forall d | d in dir.value :: dir.value[d].id in prior)
  }
}
