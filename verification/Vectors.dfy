/** Entries, embedding vectors and the records that are stored for them. */
module Vectors {
  import opened Options

  const MODEL := "gemini-embedding-001"
  const DIMENSIONS: nat := 768
  const TASK_DOCUMENT := "RETRIEVAL_DOCUMENT"
  const DISTANCE := "DOT_PRODUCT"
  const SCHEMA := "emb-768-v1"
  const HASH_DIGITS: nat := 64

  type Vector = seq<real>

  /** The hash and the deterministic vector generator, which reads nothing of a document but
      its hash. */
  datatype World = World(hash: string -> string, generate: string -> Vector)
  {
    ghost predicate Valid() {
      && (forall s :: |hash(s)| == HASH_DIGITS)
      && (forall h :: |generate(h)| == DIMENSIONS)
    }

    function VectorOf(document: string): Vector {
      generate(hash(document))
    }
  }

  /** A dictionary entry: its embedding document, its canonical content, and its source. */
  datatype Entry = Entry(document: string, canonical: string, rawHash: string, sourceKind: string)

  datatype VectorRecord = VectorRecord(
    id: string, release: string, vector: Vector, model: string, dimensions: nat,
    task: string, distance: string, schema: string, rawHash: string, sourceKind: string,
    canonicalHash: string, document: string, documentHash: string)

  function DocId(id: string, release: string): string {
    id + "_" + release
  }

  /** The record a from-scratch build stores for an entry. */
  function RecordOf(w: World, id: string, e: Entry, release: string): VectorRecord {
    VectorRecord(id, release, w.VectorOf(e.document), MODEL, DIMENSIONS, TASK_DOCUMENT, DISTANCE,
                 SCHEMA, e.rawHash, e.sourceKind, w.hash(e.canonical), e.document,
                 w.hash(e.document))
  }

  /** The lineage and metadata checks on a record before it is persisted. */
  predicate ValidRecord(r: VectorRecord, release: string) {
    && r.release == release && r.model == MODEL && r.dimensions == DIMENSIONS
    && |r.vector| == DIMENSIONS && |r.rawHash| == HASH_DIGITS && r.canonicalHash != ""
    && r.sourceKind != ""
    && r.task == TASK_DOCUMENT && r.distance == DISTANCE && (r.schema == "" || r.schema == SCHEMA)
  }

  /** An entry whose record passes those checks. */
  predicate Embeddable(e: Entry) {
    |e.rawHash| == HASH_DIGITS && e.sourceKind != ""
  }

  lemma RecordValidIffEmbeddable(w: World, id: string, e: Entry, release: string)
    requires w.Valid()
    ensures ValidRecord(RecordOf(w, id, e, release), release) <==> Embeddable(e)
  {
    assert |w.hash(e.canonical)| == HASH_DIGITS;
  }

  lemma DocIdsDiffer(a: string, b: string, release: string)
    ensures DocId(a, release) == DocId(b, release) ==> a == b
  {
    if DocId(a, release) == DocId(b, release) {
      assert |DocId(a, release)| == |a| + 1 + |release|;
      assert a == DocId(a, release)[..|a|];
      assert b == DocId(b, release)[..|b|];
    }
  }

  /** One directory of vector files, by document id. */
  type Directory = map<string, VectorRecord>

  /** What a record must be to be persisted, in full, and which entries have such a record. */
  lemma ValidExactly(r: VectorRecord, release: string, e: Entry)
    ensures Embeddable(e) <==> |e.rawHash| == 64 && e.sourceKind != ""
    ensures ValidRecord(r, release) <==>
      && |r.vector| == 768 && r.dimensions == 768 && r.model == "gemini-embedding-001"
      && |r.rawHash| == 64 && r.canonicalHash != "" && r.sourceKind != "" && r.release == release
      && r.task == "RETRIEVAL_DOCUMENT" && r.distance == "DOT_PRODUCT" && r.schema in {"", "emb-768-v1"}
  {
  }
}
