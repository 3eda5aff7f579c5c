/** Create-only, chunked persistence of vector records, and what survives its failures. */
module BatchStore {
  import opened Options
  import opened Vectors

  const MAX_BATCH_SIZE: nat := 500

  datatype Status = Completed | Partial | Conflict

  datatype BatchResult = BatchResult(
    status: Status, committed: seq<string>, expected: seq<string>, eligible: bool)

  function Id(r: VectorRecord): string {
    DocId(r.id, r.release)
  }

  /** No two different records of the batch share a document id. */
  ghost predicate Coherent(records: seq<VectorRecord>) {
    forall i, j | 0 <= i < j < |records| :: Id(records[i]) == Id(records[j]) ==> records[i] == records[j]
  }

  /** The immutable digests that are compared with a stored document. */
  predicate SameDigests(stored: VectorRecord, r: VectorRecord) {
    && stored.vector == r.vector && stored.model == r.model && stored.dimensions == r.dimensions
    && stored.rawHash == r.rawHash && stored.sourceKind == r.sourceKind
  }

  ghost predicate AgreesWith(store: Directory, records: seq<VectorRecord>) {
    forall r | r in records :: Id(r) in store ==> SameDigests(store[Id(r)], r)
  }

  function IdsOf(records: seq<VectorRecord>): set<string> {
    set r | r in records :: Id(r)
  }

  ghost predicate DistinctIds(records: seq<VectorRecord>) {
    forall i, j | 0 <= i < j < |records| :: Id(records[i]) != Id(records[j])
  }

  /** The first record of every document id, in batch order. */
  function Unique(records: seq<VectorRecord>): seq<VectorRecord> {
    if |records| == 0 then []
    else
      var init, last := Unique(records[..|records| - 1]), records[|records| - 1];
      if Id(last) in IdsOf(init) then init else init + [last]
  }

  function ToWrite(store: Directory, unique: seq<VectorRecord>): seq<VectorRecord> {
    if |unique| == 0 then []
    else
      var init, last := ToWrite(store, unique[..|unique| - 1]), unique[|unique| - 1];
      if Id(last) in store then init else init + [last]
  }

  /** Create-only writes: a file that exists is left alone. */
  function Create(store: Directory, records: seq<VectorRecord>): Directory {
    if |records| == 0 then store
    else
      var s, r := Create(store, records[..|records| - 1]), records[|records| - 1];
      if Id(r) in s then s else s[Id(r) := r]
  }

  /** How a call may fail while writing: before a chunk, or at a single record write. */
  datatype Failure = Failure(chunk: Option<int>, write: Option<nat>)

  const NO_FAILURE := Failure(None, None)

  /** The number of records written out of n. */
  function Written(n: nat, f: Failure): (w: nat)
    ensures w <= n
  {
    var byChunk := if f.chunk.Some? && 0 <= f.chunk.value && f.chunk.value * MAX_BATCH_SIZE < n
                   then f.chunk.value * MAX_BATCH_SIZE else n;
    if f.write.Some? && f.write.value < byChunk then f.write.value else byChunk
  }

  /** Of these, the ones in chunks that were written to their end. */
  function WholeChunks(n: nat, f: Failure): (c: nat)
    ensures c <= Written(n, f)
  {
    var w := Written(n, f);
    if w == n then n else w - w % MAX_BATCH_SIZE
  }

  /** The store after one call: nothing on a conflict, else a prefix of what is missing. */
  ghost function Persisted(store: Directory, records: seq<VectorRecord>, f: Failure): Directory {
    if !Coherent(records) || !AgreesWith(store, records) then store
    else
      var missing := ToWrite(store, Unique(records));
      Create(store, missing[..Written(|missing|, f)])
  }

  // -------------------------------------------------------- unique and missing

  lemma IdsAppend(records: seq<VectorRecord>, r: VectorRecord)
    ensures IdsOf(records + [r]) == IdsOf(records) + {Id(r)}
    ensures DistinctIds(records) && Id(r) !in IdsOf(records) ==> DistinctIds(records + [r])
    ensures DistinctIds(records + [r]) ==> DistinctIds(records) && Id(r) !in IdsOf(records)
  {
    if DistinctIds(records + [r]) {
      forall i | 0 <= i < |records| ensures Id(records[i]) != Id(r) {
        assert (records + [r])[i] == records[i] && (records + [r])[|records|] == r;
      }
      forall i, j | 0 <= i < j < |records| ensures Id(records[i]) != Id(records[j]) {
        assert (records + [r])[i] == records[i] && (records + [r])[j] == records[j];
      }
    }
  }

  lemma SplitLast(records: seq<VectorRecord>)
    requires |records| > 0
    ensures records == records[..|records| - 1] + [records[|records| - 1]]
    ensures forall r :: r in records <==> r in records[..|records| - 1] || r == records[|records| - 1]
  {
  }

  lemma {:induction false} UniqueFacts(records: seq<VectorRecord>)
    ensures forall r | r in Unique(records) :: r in records
    ensures IdsOf(Unique(records)) == IdsOf(records)
    ensures DistinctIds(Unique(records))
  {
    hide IdsOf, DistinctIds;
    if |records| > 0 {
      var init, last := records[..|records| - 1], records[|records| - 1];
      UniqueFacts(init);
      SplitLast(records);
      IdsAppend(init, last);
      IdsAppend(Unique(init), last);
    } else {
      NoIds();
    }
  }

  lemma NoIds()
    ensures IdsOf([]) == {} && DistinctIds([])
  {
  }

  lemma {:induction false} ToWriteFacts(store: Directory, unique: seq<VectorRecord>)
    ensures forall r :: r in ToWrite(store, unique) <==> r in unique && Id(r) !in store
    ensures DistinctIds(unique) ==> DistinctIds(ToWrite(store, unique))
    ensures IdsOf(ToWrite(store, unique)) == IdsOf(unique) - store.Keys
  {
    hide IdsOf, DistinctIds;
    if |unique| > 0 {
      var init, last := unique[..|unique| - 1], unique[|unique| - 1];
      ToWriteFacts(store, init);
      SplitLast(unique);
      IdsAppend(init, last);
      IdsAppend(ToWrite(store, init), last);
    } else {
      NoIds();
    }
  }

  lemma {:induction false} CreateFacts(store: Directory, records: seq<VectorRecord>)
    ensures forall d | d in store :: d in Create(store, records) && Create(store, records)[d] == store[d]
    ensures forall r | r in records :: Id(r) in Create(store, records)
    ensures forall d | d in Create(store, records) && d !in store ::
      Create(store, records)[d] in records && Id(Create(store, records)[d]) == d
  {
    if |records| > 0 {
      CreateFacts(store, records[..|records| - 1]);
      assert records == records[..|records| - 1] + [records[|records| - 1]];
    }
  }

  lemma {:induction false} CreateAppends(store: Directory, a: seq<VectorRecord>, b: seq<VectorRecord>)
    ensures Create(store, a + b) == Create(Create(store, a), b)
  {
    if |b| == 0 {
      assert a + b == a;
    } else {
      CreateAppends(store, a, b[..|b| - 1]);
      assert (a + b)[..|a + b| - 1] == a + b[..|b| - 1];
    }
  }

  lemma NothingCreated(store: Directory, records: seq<VectorRecord>)
    ensures Create(store, records[..0]) == store
  {
  }

  lemma PrefixThenChunk(store: Directory, missing: seq<VectorRecord>, start: nat, end: nat, k: nat)
    requires start <= end <= |missing| && k <= end - start
    ensures Create(Create(store, missing[..start]), missing[start..end][..k])
            == Create(store, missing[..start + k])
  {
    CreateAppends(store, missing[..start], missing[start..end][..k]);
    assert missing[..start] + missing[start..end][..k] == missing[..start + k];
  }

  /** A record that is not written yet is not in the store. */
  lemma PrefixCreates(store: Directory, missing: seq<VectorRecord>, w: nat)
    requires w <= |missing| && DistinctIds(missing)
    requires forall r | r in missing :: Id(r) !in store
    ensures
      var s := Create(store, missing[..w]);
      && (forall i | 0 <= i < w :: Id(missing[i]) in s)
      && (forall i | w <= i < |missing| :: Id(missing[i]) !in s)
  {
    var s := Create(store, missing[..w]);
    CreateFacts(store, missing[..w]);
    forall i | 0 <= i < w ensures Id(missing[i]) in s {
      assert missing[..w][i] == missing[i];
    }
    forall i | w <= i < |missing| ensures Id(missing[i]) !in s {
      forall r | r in missing[..w] ensures Id(r) != Id(missing[i]) {
        var j :| 0 <= j < w && missing[j] == r;
      }
    }
  }

  lemma UniqueAgrees(store: Directory, records: seq<VectorRecord>)
    requires Coherent(records)
    ensures AgreesWith(store, Unique(records)) <==> AgreesWith(store, records)
  {
    UniqueFacts(records);
    if AgreesWith(store, Unique(records)) {
      forall r | r in records && Id(r) in store ensures SameDigests(store[Id(r)], r) {
        assert Id(r) in IdsOf(Unique(records));
        var u :| u in Unique(records) && Id(u) == Id(r);
        CoherentEqual(records, u, r);
      }
    }
  }

  lemma CoherentEqual(records: seq<VectorRecord>, a: VectorRecord, b: VectorRecord)
    requires Coherent(records) && a in records && b in records && Id(a) == Id(b)
    ensures a == b
  {
    var i :| 0 <= i < |records| && records[i] == a;
    var j :| 0 <= j < |records| && records[j] == b;
    if i < j { assert records[i] == records[j]; }
    if j < i { assert records[j] == records[i]; }
  }

  lemma {:induction false} IdsCount(records: seq<VectorRecord>)
    requires DistinctIds(records)
    ensures |IdsOf(records)| == |records|
  {
    hide DistinctIds, IdsOf;
    if |records| > 0 {
      var init, last := records[..|records| - 1], records[|records| - 1];
      SplitLast(records);
      IdsAppend(init, last);
      IdsCount(init);
    } else {
      NoIds();
    }
  }

  lemma UniqueNext(records: seq<VectorRecord>, i: nat)
    requires i <= |records|
    ensures i == 0 ==> Unique(records[..0]) == [] && IdsOf([]) == {}
    ensures i < |records| ==>
      var u, r := Unique(records[..i]), records[i];
      Unique(records[..i + 1]) == (if Id(r) in IdsOf(u) then u else u + [r])
  {
    if i < |records| { assert records[..i + 1][..i] == records[..i]; }
  }

  // ------------------------------------------------------- the imperative form

  /** The vector directory of one candidate release. */
  class VectorStore {
    var vectors: Directory

    constructor (vectors: Directory)
      ensures this.vectors == vectors
    {
      this.vectors := vectors;
    }

    /** Collapse identical records; two different ones with one id are a conflict. */
    method Dedupe(records: seq<VectorRecord>) returns (unique: seq<VectorRecord>, ok: bool)
      ensures ok <==> Coherent(records)
      ensures ok ==> unique == Unique(records)
    {
      hide Unique, IdsOf;
      var seen: Directory := map[];
      unique := [];
      var i := 0;
      UniqueNext(records, 0);
      while i < |records|
        invariant 0 <= i <= |records|
        invariant unique == Unique(records[..i]) && seen.Keys == IdsOf(unique)
        invariant forall j | 0 <= j < i :: Id(records[j]) in seen && seen[Id(records[j])] == records[j]
        invariant forall d | d in seen :: seen[d] in records[..i] && Id(seen[d]) == d
      {
        var r := records[i];
        UniqueNext(records, i);
        if Id(r) in seen {
          if seen[Id(r)] != r {
            var j :| 0 <= j < i && records[j] == seen[Id(r)];
            return unique, false;
          }
        } else {
          seen := seen[Id(r) := r];
          IdsAppend(unique, r);
          unique := unique + [r];
        }
        i := i + 1;
      }
      assert records[..i] == records;
      ok := true;
    }

    /** Is there a stored document whose digests differ from the record's? */
    method Preflight(unique: seq<VectorRecord>) returns (conflict: bool)
      ensures conflict <==> !AgreesWith(vectors, unique)
    {
      var i := 0;
      while i < |unique|
        invariant 0 <= i <= |unique|
        invariant forall j | 0 <= j < i ::
          Id(unique[j]) in vectors ==> SameDigests(vectors[Id(unique[j])], unique[j])
      {
        if Id(unique[i]) in vectors && !SameDigests(vectors[Id(unique[i])], unique[i]) {
          return true;
        }
        i := i + 1;
      }
      conflict := false;
    }

    method SelectMissing(unique: seq<VectorRecord>) returns (missing: seq<VectorRecord>)
      ensures missing == ToWrite(vectors, unique)
    {
      missing := [];
      var i := 0;
      while i < |unique|
        invariant 0 <= i <= |unique|
        invariant missing == ToWrite(vectors, unique[..i])
      {
        assert unique[..i + 1][..i] == unique[..i];
        if Id(unique[i]) !in vectors { missing := missing + [unique[i]]; }
        i := i + 1;
      }
      assert unique[..i] == unique;
    }

    /** Write one chunk; a failing write leaves what was written before it. */
    method WriteChunk(chunk: seq<VectorRecord>, budget: Option<nat>)
      returns (ok: bool, left: Option<nat>)
      modifies this
      ensures ok <==> budget.None? || |chunk| <= budget.value
      ensures vectors == Create(old(vectors), chunk[..if ok then |chunk| else budget.value])
      ensures ok ==> left == if budget.None? then None else Some(budget.value - |chunk|)
    {
      left := budget;
      var i := 0;
      while i < |chunk|
        invariant 0 <= i <= |chunk|
        invariant vectors == Create(old(vectors), chunk[..i])
        invariant budget.None? ==> left.None?
        invariant budget.Some? ==> i <= budget.value && left == Some(budget.value - i)
      {
        if left == Some(0) { return false, left; }
        assert chunk[..i + 1][..i] == chunk[..i];
        if Id(chunk[i]) !in vectors { vectors := vectors[Id(chunk[i]) := chunk[i]]; }
        left := if left.Some? then Some(left.value - 1) else None;
        i := i + 1;
      }
      assert chunk[..i] == chunk;
      ok := true;
    }

    /** The chunk loop over the records to write; `committed` counts the records of the
        chunks that went through. */
    method WriteChunks(missing: seq<VectorRecord>, f: Failure)
      returns (failed: bool, committed: nat)
      modifies this
      ensures vectors == Create(old(vectors), missing[..Written(|missing|, f)])
      ensures failed <==> Written(|missing|, f) < |missing|
      ensures committed == WholeChunks(|missing|, f)
    {
      hide Create;
      var index, left := 0, f.write;
      committed := 0;
      NothingCreated(vectors, missing);
      while committed < |missing|
        invariant 0 <= index && committed <= |missing|
        invariant committed == if MAX_BATCH_SIZE * index < |missing| then MAX_BATCH_SIZE * index else |missing|
        invariant f.chunk.Some? && 0 <= f.chunk.value ==> index <= f.chunk.value
        invariant f.write.Some? ==> committed <= f.write.value
        invariant left == (if f.write.None? then None else Some(f.write.value - committed))
        invariant vectors == Create(old(vectors), missing[..committed])
        decreases |missing| - committed
      {
        if f.chunk == Some(index) { return true, committed; }
        var end := if committed + MAX_BATCH_SIZE < |missing| then committed + MAX_BATCH_SIZE else |missing|;
        var chunk := missing[committed..end];
        var ok, rest := WriteChunk(chunk, left);
        ghost var done := if ok then |chunk| else left.value;
        PrefixThenChunk(old(vectors), missing, committed, end, done);
        if !ok { return true, committed; }
        committed, index, left := end, index + 1, rest;
      }
      failed := false;
    }

    method ListIds(records: seq<VectorRecord>) returns (ids: seq<string>)
      ensures |ids| == |records| && forall i | 0 <= i < |ids| :: ids[i] == Id(records[i])
    {
      ids := [];
      var i := 0;
      while i < |records|
        invariant 0 <= i <= |records| && |ids| == i
        invariant forall j | 0 <= j < i :: ids[j] == Id(records[j])
      {
        ids := ids + [Id(records[i])];
        i := i + 1;
      }
    }

    method SelectPresent(unique: seq<VectorRecord>) returns (ids: seq<string>)
      ensures |ids| + |ToWrite(vectors, unique)| == |unique|
      ensures (set d | d in ids) == IdsOf(unique) * vectors.Keys
      ensures forall d | d in ids :: d in vectors
    {
      hide IdsOf;
      ids := [];
      NoIds();
      var i := 0;
      while i < |unique|
        invariant 0 <= i <= |unique|
        invariant |ids| + |ToWrite(vectors, unique[..i])| == i
        invariant (set d | d in ids) == IdsOf(unique[..i]) * vectors.Keys
        invariant forall d | d in ids :: d in vectors
      {
        assert unique[..i + 1][..i] == unique[..i] && unique[..i + 1] == unique[..i] + [unique[i]];
        IdsAppend(unique[..i], unique[i]);
        ghost var before := ids;
        if Id(unique[i]) in vectors {
          ids := ids + [Id(unique[i])];
          assert (set d | d in ids) == (set d | d in before) + {Id(unique[i])};
        }
        i := i + 1;
      }
      assert unique[..i] == unique;
    }

    method PersistBatch(records: seq<VectorRecord>, f: Failure) returns (r: BatchResult)
      modifies this
      ensures vectors == Persisted(old(vectors), records, f)
      ensures r.status == Conflict <==> !Coherent(records) || !AgreesWith(old(vectors), records)
      ensures r.status == Conflict ==> !r.eligible
      ensures r.status != Conflict ==>
        && (set d | d in r.expected) == IdsOf(records) && |r.expected| == |IdsOf(records)|
        && (var missing := ToWrite(old(vectors), Unique(records));
            (set d | d in r.committed)
            == IdsOf(records) * old(vectors).Keys + IdsOf(missing[..WholeChunks(|missing|, f)]))
        && (forall d | d in r.committed :: d in vectors)
        && (r.eligible <==> forall d | d in r.expected :: d in vectors)
        && (r.eligible <==> r.status == Completed)
    {
      hide Coherent, AgreesWith, Create, Unique, ToWrite, DistinctIds;
      var unique, ok := Dedupe(records);
      if !ok { return BatchResult(Conflict, [], [], false); }
      UniqueAgrees(vectors, records);
      var conflict := Preflight(unique);
      if conflict { return BatchResult(Conflict, [], [], false); }
      var missing := SelectMissing(unique);
      var present := SelectPresent(unique);
      var expected := ListIds(unique);
      var failed, count := WriteChunks(missing, f);
      WrittenIds(old(vectors), records, Written(|missing|, f));
      var added := ListIds(missing[..count]);
      var committed := present + added;
      assert (set d | d in expected) == IdsOf(unique);
      UniqueFacts(records);
      IdsCount(unique);
      forall i | 0 <= i < |added| ensures added[i] in vectors {
        assert missing[..count][i] == missing[i];
      }
      var complete := !failed && |committed| == |expected|;
      r := BatchResult(if complete then Completed else Partial, committed, expected, complete);
    }
  }

  lemma WrittenIds(store: Directory, records: seq<VectorRecord>, w: nat)
    requires w <= |ToWrite(store, Unique(records))|
    ensures
      var missing := ToWrite(store, Unique(records));
      var s := Create(store, missing[..w]);
      && IdsOf(Unique(records)) == IdsOf(records)
      && (forall d | d in store :: d in s)
      && (forall i | 0 <= i < w :: Id(missing[i]) in s)
      && ((forall u | u in Unique(records) :: Id(u) in s) <==> w == |missing|)
  {
    hide Create, Unique, ToWrite;
    var missing := ToWrite(store, Unique(records));
    UniqueFacts(records);
    ToWriteFacts(store, Unique(records));
    PrefixCreates(store, missing, w);
    CreateFacts(store, missing[..w]);
    AllThere(store, Unique(records), w);
  }

  /** After w writes all unique ids are there exactly when nothing was left out. */
  lemma AllThere(store: Directory, unique: seq<VectorRecord>, w: nat)
    requires DistinctIds(unique) && w <= |ToWrite(store, unique)|
    ensures
      var missing := ToWrite(store, unique);
      (forall u | u in unique :: Id(u) in Create(store, missing[..w])) <==> w == |missing|
  {
    var missing := ToWrite(store, unique);
    var s := Create(store, missing[..w]);
    ToWriteFacts(store, unique);
    PrefixCreates(store, missing, w);
    CreateFacts(store, missing[..w]);
    if w < |missing| {
      assert missing[w] in unique && Id(missing[w]) !in s;
    } else {
      forall u | u in unique ensures Id(u) in s {
        if Id(u) !in store {
          var i :| 0 <= i < |missing| && missing[i] == u;
        }
      }
    }
  }

  // -------------------------------------------------------------- convergence

  /** The store holds what it held before and, besides, records of the batch only. */
  ghost predicate Between(store: Directory, s: Directory, records: seq<VectorRecord>) {
    && (forall d | d in store :: d in s && s[d] == store[d])
    && (forall d | d in s && d !in store :: s[d] in records && Id(s[d]) == d)
  }

  ghost predicate Whole(store: Directory, s: Directory, records: seq<VectorRecord>) {
    Between(store, s, records) && forall r | r in records :: Id(r) in s
  }

  lemma WholeIsUnique(store: Directory, a: Directory, b: Directory, records: seq<VectorRecord>)
    requires Coherent(records) && Whole(store, a, records) && Whole(store, b, records)
    ensures a == b
  {
    forall d | d in a ensures d in b && a[d] == b[d] {
      if d !in store { CoherentEqual(records, a[d], b[d]); }
    }
    forall d | d in b ensures d in a {
      if d !in store { assert b[d] in records; }
    }
    assert a.Keys == b.Keys;
  }

  /** Documents already present are never altered; only records of the batch are added. */
  lemma PersistedBetween(store: Directory, records: seq<VectorRecord>, f: Failure)
    ensures Between(store, Persisted(store, records, f), records)
  {
    if Coherent(records) && AgreesWith(store, records) {
      var missing := ToWrite(store, Unique(records));
      CreateFacts(store, missing[..Written(|missing|, f)]);
      UniqueFacts(records);
      ToWriteFacts(store, Unique(records));
    }
  }

  lemma PersistedWhole(store: Directory, records: seq<VectorRecord>)
    requires Coherent(records) && AgreesWith(store, records)
    ensures Whole(store, Persisted(store, records, NO_FAILURE), records)
  {
    PersistedBetween(store, records, NO_FAILURE);
    var unique := Unique(records);
    UniqueFacts(records);
    var missing := ToWrite(store, unique);
    AllThere(store, unique, |missing|);
    assert Written(|missing|, NO_FAILURE) == |missing|;
    forall r | r in records ensures Id(r) in Persisted(store, records, NO_FAILURE) {
      assert Id(r) in IdsOf(unique);
    }
  }

  /** A call of a series: records of the whole batch, and how the call fails. */
  datatype Attempt = Attempt(records: seq<VectorRecord>, failure: Failure)

  ghost function Series(store: Directory, attempts: seq<Attempt>): Directory {
    if |attempts| == 0 then store
    else
      var last := attempts[|attempts| - 1];
      Persisted(Series(store, attempts[..|attempts| - 1]), last.records, last.failure)
  }

  lemma AgreesBetween(store: Directory, s: Directory, records: seq<VectorRecord>)
    requires Coherent(records) && AgreesWith(store, records) && Between(store, s, records)
    ensures AgreesWith(s, records)
  {
    forall r | r in records && Id(r) in s ensures SameDigests(s[Id(r)], r) {
      if Id(r) !in store { CoherentEqual(records, s[Id(r)], r); }
    }
  }

  lemma {:induction false} SeriesBetween(
      store: Directory, attempts: seq<Attempt>, records: seq<VectorRecord>)
    requires forall a | a in attempts :: forall r | r in a.records :: r in records
    ensures Between(store, Series(store, attempts), records)
  {
    if |attempts| > 0 {
      var init, last := attempts[..|attempts| - 1], attempts[|attempts| - 1];
      SeriesBetween(store, init, records);
      PersistedBetween(Series(store, init), last.records, last.failure);
    }
  }

  /** Convergence: whatever calls over records of the batch came before, failing at a chunk or
      at a single write, one failure-free call leaves the store that one failure-free call
      alone would have left. */
  lemma BatchConverges(store: Directory, attempts: seq<Attempt>, records: seq<VectorRecord>)
    requires Coherent(records) && AgreesWith(store, records)
    requires forall a | a in attempts :: forall r | r in a.records :: r in records
    ensures Persisted(Series(store, attempts), records, NO_FAILURE)
            == Persisted(store, records, NO_FAILURE)
    ensures Whole(store, Persisted(store, records, NO_FAILURE), records)
  {
    hide Persisted, Coherent, AgreesWith;
    var s := Series(store, attempts);
    SeriesBetween(store, attempts, records);
    AgreesBetween(store, s, records);
    PersistedWhole(store, records);
    PersistedWhole(s, records);
    WholeIsUnique(store, Persisted(s, records, NO_FAILURE), Persisted(store, records, NO_FAILURE), records);
  }

  /** When a batch is a conflict: two different records of it share a document id, or a document
      that is stored under the id of a record has another vector, model, size, raw hash or source
      kind. Nothing else is one. */
  lemma ConflictExactly(store: Directory, records: seq<VectorRecord>)
    ensures !Coherent(records) || !AgreesWith(store, records) <==>
      || (exists a, b | a in records && b in records :: a.id + "_" + a.release == b.id + "_" + b.release && a != b)
      || (exists r | r in records && r.id + "_" + r.release in store ::
            var stored := store[r.id + "_" + r.release];
            || stored.vector != r.vector || stored.rawHash != r.rawHash || stored.sourceKind != r.sourceKind
            || stored.model != r.model || stored.dimensions != r.dimensions)
  {
    if a, b :| a in records && b in records && Id(a) == Id(b) && a != b {
      if Coherent(records) { CoherentEqual(records, a, b); }
    }
    if !Coherent(records) {
      var i, j :| 0 <= i < j < |records| && Id(records[i]) == Id(records[j]) && records[i] != records[j];
      assert records[i] in records && records[j] in records;
    }
  }

  /** A call may write this many of n records: all of them, at most 500 for every chunk before a
      failing one, and at most those before a failing write. */
  predicate MayWrite(n: nat, f: Failure, w: nat) {
    && w <= n
    && (f.chunk.Some? && f.chunk.value >= 0 ==> w <= 500 * f.chunk.value)
    && (f.write.Some? ==> w <= f.write.value)
  }

  /** It writes as many as it may, and reports those up to the last multiple of 500, or all. */
  lemma WrittenExactly(n: nat, f: Failure, v: nat)
    ensures MayWrite(n, f, Written(n, f)) && (MayWrite(n, f, v) ==> v <= Written(n, f))
    ensures WholeChunks(n, f) == n || WholeChunks(n, f) % 500 == 0
    ensures v <= Written(n, f) && (v == n || v % 500 == 0) ==> v <= WholeChunks(n, f)
  {
  }
}
