/** The delta plan between two releases: which ids are new, changed, unchanged, removed. */
module Planner {
  import opened Options
  import opened Order
  import opened Vectors

  type Entries = map<string, Entry>

  /** The stored metadata of a prior vector. */
  datatype Meta = Meta(
    model: string, dimensions: int, task: Option<string>, taskTypeDocument: Option<string>,
    distance: Option<string>, schema: string)

  /** A missing task, distance or schema is tolerated, another one is not. */
  predicate Compatible(m: Meta) {
    && m.model == MODEL && m.dimensions == DIMENSIONS
    && (m.task == Some(TASK_DOCUMENT) || m.taskTypeDocument == Some(TASK_DOCUMENT) || m.task.None?)
    && (m.distance.None? || m.distance == Some(DISTANCE))
    && (m.schema == "" || m.schema == SCHEMA)
  }

  datatype Plan = Plan(
    priorRelease: string, candidateRelease: string,
    newIds: seq<string>, changedIds: seq<string>, unchangedIds: seq<string>,
    removedIds: seq<string>, excludedIds: seq<string>,
    newCanonical: map<string, string>)

  /** An id whose canonical content and document did not change, under compatible metadata
      (an id without a prior vector is planned as compatible). */
  predicate Unchanged(w: World, before: Entry, after: Entry, meta: Option<Meta>) {
    && w.hash(before.canonical) == w.hash(after.canonical)
    && w.hash(before.document) == w.hash(after.document)
    && (meta.None? || Compatible(meta.value))
  }

  function MetaOf(metas: map<string, Meta>, id: string): Option<Meta> {
    if id in metas then Some(metas[id]) else None
  }

  ghost function UnchangedSet(w: World, prior: Entries, eligible: Entries, metas: map<string, Meta>)
    : set<string>
  {
    set id | id in prior && id in eligible && Unchanged(w, prior[id], eligible[id], MetaOf(metas, id))
  }

  function CanonicalHashes(w: World, entries: Entries): map<string, string> {
    map id | id in entries :: w.hash(entries[id].canonical)
  }

  const ID_KEY: string -> Key := (id: string) => [id]

  /** The sorted list of a set of ids. */
  ghost predicate Lists(ids: seq<string>, s: set<string>) {
    Ordered(ids, ID_KEY) && multiset(ids) == multiset(s)
  }

  /** What the plan says about a pair of releases. */
  ghost predicate PlanFor(
      plan: Plan, w: World, prior: Entries, eligible: Entries, excluded: set<string>,
      metas: map<string, Meta>)
  {
    var same := UnchangedSet(w, prior, eligible, metas);
    && Lists(plan.newIds, eligible.Keys - prior.Keys)
    && Lists(plan.removedIds, prior.Keys - eligible.Keys)
    && Lists(plan.unchangedIds, same)
    && Lists(plan.changedIds, prior.Keys * eligible.Keys - same)
    && Lists(plan.excludedIds, excluded)
    && plan.newCanonical == CanonicalHashes(w, eligible)
  }

  function IdSet(ids: seq<string>): set<string> {
    set id | id in ids
  }

  lemma ListsSet(ids: seq<string>, s: set<string>)
    requires Lists(ids, s)
    ensures IdSet(ids) == s
  {
    ListsMembers(ids, s);
  }

  lemma ListsMembers(ids: seq<string>, s: set<string>)
    requires Lists(ids, s)
    ensures |ids| == |s| && forall id :: id in ids <==> id in s
    ensures forall i, j | 0 <= i < j < |ids| :: ids[i] != ids[j]
  {
    forall id ensures id in ids <==> id in s {
      assert id in multiset(ids) <==> id in multiset(s);
    }
    forall i, j | 0 <= i < j < |ids| ensures ids[i] != ids[j] {
      assert ids == ids[..j] + [ids[j]] + ids[j + 1..];
      assert multiset(ids)[ids[j]] <= 1;
      assert ids[j] !in multiset(ids[..j]);
      assert ids[i] == ids[..j][i];
    }
    assert |multiset(ids)| == |multiset(s)|;
  }

  /** Any listing of a set, once sorted, is its sorted list. */
  lemma SortingLists(ids: seq<string>, s: set<string>)
    requires multiset(ids) == multiset(s)
    ensures Lists(SortBy(ids, ID_KEY), s)
  {
    SortByOrders(ids, ID_KEY);
  }

  /** Collect a set into a sorted list, taking the elements in any order. */
  method SortedIds(s: set<string>) returns (ids: seq<string>)
    ensures Lists(ids, s)
  {
    ids := [];
    var todo := s;
    while todo != {}
      invariant todo <= s && multiset(ids) == multiset(s - todo)
      decreases todo
    {
      var id :| id in todo;
      assert s - (todo - {id}) == (s - todo) + {id};
      ids := ids + [id];
      todo := todo - {id};
    }
    assert s - todo == s;
    SortingLists(ids, s);
    ids := SortBy(ids, ID_KEY);
  }

  /** Classify the ids both releases have. */
  method Classify(w: World, prior: Entries, eligible: Entries, metas: map<string, Meta>)
    returns (same: set<string>, changed: set<string>)
    ensures same == UnchangedSet(w, prior, eligible, metas)
    ensures changed == prior.Keys * eligible.Keys - same
  {
    same, changed := {}, {};
    var todo := prior.Keys * eligible.Keys;
    while todo != {}
      invariant todo <= prior.Keys * eligible.Keys
      invariant same == UnchangedSet(w, prior, eligible, metas) - todo
      invariant changed == prior.Keys * eligible.Keys - UnchangedSet(w, prior, eligible, metas) - todo
      decreases todo
    {
      var id :| id in todo;
      var compatible := id !in metas || Compatible(metas[id]);
      if w.hash(prior[id].canonical) == w.hash(eligible[id].canonical)
         && w.hash(prior[id].document) == w.hash(eligible[id].document) && compatible {
        same := same + {id};
      } else {
        changed := changed + {id};
      }
      todo := todo - {id};
    }
  }

  lemma UnchangedInBoth(w: World, prior: Entries, eligible: Entries, metas: map<string, Meta>)
    ensures UnchangedSet(w, prior, eligible, metas) <= prior.Keys * eligible.Keys
  {
  }

  method BuildDeltaPlan(
      w: World, prior: Entries, eligible: Entries, excluded: set<string>,
      metas: map<string, Meta>, priorRelease: string, candidateRelease: string)
    returns (plan: Plan)
    ensures PlanFor(plan, w, prior, eligible, excluded, metas)
    ensures plan.priorRelease == priorRelease && plan.candidateRelease == candidateRelease
  {
    hide Lists, UnchangedSet, CanonicalHashes;
    var added := eligible.Keys - prior.Keys;
    var removed := prior.Keys - eligible.Keys;
    var same, changed := Classify(w, prior, eligible, metas);
    UnchangedInBoth(w, prior, eligible, metas);
    FourPartsCover(prior.Keys, eligible.Keys, same);
    FourPartsDisjoint(prior.Keys, eligible.Keys, same);
    assert added + changed + same + removed == prior.Keys + eligible.Keys;
    assert added !! changed && added !! same && added !! removed;
    assert changed !! same && changed !! removed && same !! removed;
    var newIds := SortedIds(added);
    var changedIds := SortedIds(changed);
    var unchangedIds := SortedIds(same);
    var removedIds := SortedIds(removed);
    var excludedIds := SortedIds(excluded);
    plan := Plan(priorRelease, candidateRelease, newIds, changedIds, unchangedIds, removedIds,
                 excludedIds, CanonicalHashes(w, eligible));
  }

  /** Conservation: every id of either release is in exactly one of the four lists, every
      eligible one in one of the first three, and each list is without repetitions. */
  lemma PlanConserves(
      plan: Plan, w: World, prior: Entries, eligible: Entries, excluded: set<string>,
      metas: map<string, Meta>)
    requires PlanFor(plan, w, prior, eligible, excluded, metas)
    ensures forall id ::
      && (id in plan.newIds <==> id in eligible && id !in prior)
      && (id in plan.removedIds <==> id in prior && id !in eligible)
      && (id in plan.changedIds || id in plan.unchangedIds <==> id in prior && id in eligible)
      && !(id in plan.changedIds && id in plan.unchangedIds)
    ensures |plan.newIds| + |plan.changedIds| + |plan.unchangedIds| == |eligible|
    ensures |plan.removedIds| + |plan.changedIds| + |plan.unchangedIds| == |prior|
  {
    hide Lists, UnchangedSet, CanonicalHashes;
    var same := UnchangedSet(w, prior, eligible, metas);
    UnchangedInBoth(w, prior, eligible, metas);
    FourPartsCount(prior.Keys, eligible.Keys, same);
    ListsMembers(plan.newIds, eligible.Keys - prior.Keys);
    ListsMembers(plan.removedIds, prior.Keys - eligible.Keys);
    ListsMembers(plan.unchangedIds, same);
    ListsMembers(plan.changedIds, prior.Keys * eligible.Keys - same);
  }

  /** The four sets exhaust both releases. */
  lemma FourPartsCover(prior: set<string>, eligible: set<string>, same: set<string>)
    requires same <= prior * eligible
    ensures (eligible - prior) + (prior * eligible - same) + same + (prior - eligible) == prior + eligible
  {
  }

  /** They are pairwise disjoint. */
  lemma FourPartsDisjoint(prior: set<string>, eligible: set<string>, same: set<string>)
    requires same <= prior * eligible
    ensures
      var added, removed, changed := eligible - prior, prior - eligible, prior * eligible - same;
      && added !! changed && added !! same && added !! removed
      && changed !! same && changed !! removed && same !! removed
  {
  }

  /** And their sizes add up. */
  lemma FourPartsCount(prior: set<string>, eligible: set<string>, same: set<string>)
    requires same <= prior * eligible
    ensures |eligible - prior| + |prior * eligible - same| + |same| == |eligible|
    ensures |prior - eligible| + |prior * eligible - same| + |same| == |prior|
  {
    Remainder(same, prior * eligible);
    OutsideAndInside(eligible, prior);
    OutsideAndInside(prior, eligible);
    assert prior * eligible == eligible * prior;
  }

  lemma Remainder(a: set<string>, b: set<string>)
    requires a <= b
    ensures |a| + |b - a| == |b|
  {
    SizesAdd(a, b - a, b);
  }

  lemma OutsideAndInside(a: set<string>, b: set<string>)
    ensures |a - b| + |a * b| == |a|
  {
    SizesAdd(a - b, a * b, a);
  }

  lemma SizesAdd(a: set<string>, b: set<string>, c: set<string>)
    requires a + b == c && a !! b
    ensures |a| + |b| == |c|
  {
  }

  /** When an id of both releases is planned as changed: its canonical content or its document
      hashes differently, or its prior vector has another model or size, or a task, distance or
      schema that is there and is another one. */
  lemma ChangedExactly(
      plan: Plan, w: World, prior: Entries, eligible: Entries, excluded: set<string>,
      metas: map<string, Meta>, id: string)
    requires PlanFor(plan, w, prior, eligible, excluded, metas) && id in prior && id in eligible
    ensures
      var stale :=
        || w.hash(prior[id].canonical) != w.hash(eligible[id].canonical)
        || w.hash(prior[id].document) != w.hash(eligible[id].document)
        || (id in metas &&
            var m := metas[id];
            || m.model != "gemini-embedding-001" || m.dimensions != 768
            || (m.task.Some? && m.task != Some("RETRIEVAL_DOCUMENT")
                && m.taskTypeDocument != Some("RETRIEVAL_DOCUMENT"))
            || (m.distance.Some? && m.distance != Some("DOT_PRODUCT"))
            || (m.schema != "" && m.schema != "emb-768-v1"));
      (id in plan.changedIds <==> stale) && (id in plan.unchangedIds <==> !stale)
  {
    hide Lists;
    var same := UnchangedSet(w, prior, eligible, metas);
    ListsMembers(plan.unchangedIds, same);
    ListsMembers(plan.changedIds, prior.Keys * eligible.Keys - same);
  }
}
