/** What separate reads and writes cost, exactly: the steps at which a schedule loses a ledger
    row, hands the lease back, or records an attempt twice. A schedule keeps each of the three
    properties if and only if it takes none of those steps. */
module Lapses {
  import opened Options
  import opened Ledger
  import opened Sessions
  import opened CrashResume
  import opened Workers

  /** The state after the first k labels. */
  function StateAt(p: Plan, mode: Mode, ls: seq<Label>, k: nat): State
    requires k <= |ls|
  {
    Trace(p, mode, ls[..k])
  }

  lemma StepAt(p: Plan, mode: Mode, ls: seq<Label>, k: nat)
    requires k < |ls|
    ensures StateAt(p, mode, ls, k + 1) == Next(p, StateAt(p, mode, ls, k), ls[k])
  {
    assert ls[..k + 1][..k] == ls[..k];
  }

  /** The label lets a worker take a step. */
  predicate Moves(s: State, l: Label) {
    l.Go? && l.w in s.workers
  }

  // -------------------------------------------------------------- lost rows

  /** A worker past the fence of its commit is about to write fewer rows than there are. */
  predicate Overtaken(s: State, l: Label) {
    && Moves(s, l) && s.workers[l.w].stage == Writing(0)
    && |s.workers[l.w].memory.rows| < |Rows(s.disk)|
  }

  lemma LedgersCompare(p: Plan, a: seq<Row>, b: seq<Row>)
    requires |a| <= |p.keys| && a == LedgerRows(p, |a|)
    requires |b| <= |p.keys| && b == LedgerRows(p, |b|)
    ensures a <= b <==> |a| <= |b|
  {
    if |a| <= |b| {
      forall i | 0 <= i < |a| ensures a[i] == b[i] {}
    }
  }

  /** Only the first write of a commit changes the rows. */
  lemma RowsChangeOnlyAtCommits(p: Plan, s: State, l: Label)
    ensures Rows(Next(p, s, l).disk)
            == (if Moves(s, l) && s.workers[l.w].stage == Writing(0)
                then s.workers[l.w].memory.rows else Rows(s.disk))
  {
    hide StatusOf, CheckpointOf, ReportOf, Extend, OpeningStatus, Tally;
  }

  lemma NoRowsYet(p: Plan)
    ensures LedgerRows(p, 0) == []
  {
  }

  /** A step takes rows away if and only if an overtaken worker writes its ledger. */
  lemma RowsLostExactly(p: Plan, mode: Mode, ls: seq<Label>, l: Label)
    ensures
      var s := Trace(p, mode, ls);
      !(Rows(s.disk) <= Rows(Next(p, s, l).disk)) <==> Overtaken(s, l)
  {
    hide Next, Trace, OutcomesOf;
    var s := Trace(p, mode, ls);
    TraceSafe(p, mode, ls);
    NoRowsYet(p);
    RowsChangeOnlyAtCommits(p, s, l);
    if Moves(s, l) && s.workers[l.w].stage == Writing(0) {
      SafeMemoryRows(p, s.workers[l.w]);
      LedgersCompare(p, Rows(s.disk), s.workers[l.w].memory.rows);
    }
  }

  lemma SafeMemoryRows(p: Plan, w: Worker)
    requires WorkerSafe(p, w)
    ensures |w.memory.rows| <= |p.keys| && w.memory.rows == LedgerRows(p, |w.memory.rows|)
  {
  }

  ghost predicate LedgerGrows(p: Plan, mode: Mode, ls: seq<Label>) {
    forall i, j | 0 <= i <= j <= |ls| ::
      Rows(StateAt(p, mode, ls, i).disk) <= Rows(StateAt(p, mode, ls, j).disk)
  }

  ghost predicate NeverOvertaken(p: Plan, mode: Mode, ls: seq<Label>) {
    forall k | 0 <= k < |ls| :: !Overtaken(StateAt(p, mode, ls, k), ls[k])
  }

  /** The ledger grows monotonically along a schedule if and only if no overtaken worker ever
      writes in it. */
  lemma LedgerGrowsIffNeverOvertaken(p: Plan, mode: Mode, ls: seq<Label>)
    ensures LedgerGrows(p, mode, ls) <==> NeverOvertaken(p, mode, ls)
  {
    hide Overtaken, StateAt;
    forall k | 0 <= k < |ls|
      ensures !(Rows(StateAt(p, mode, ls, k).disk) <= Rows(StateAt(p, mode, ls, k + 1).disk))
              <==> Overtaken(StateAt(p, mode, ls, k), ls[k])
    {
      StateIsTrace(p, mode, ls, k);
      RowsLostExactly(p, mode, ls[..k], ls[k]);
      StepAt(p, mode, ls, k);
    }
    if NeverOvertaken(p, mode, ls) {
      forall i, j | 0 <= i <= j <= |ls|
        ensures Rows(StateAt(p, mode, ls, i).disk) <= Rows(StateAt(p, mode, ls, j).disk)
      {
        GrowsBetween(p, mode, ls, i, j);
      }
    } else {
      var k :| 0 <= k < |ls| && Overtaken(StateAt(p, mode, ls, k), ls[k]);
      assert !(Rows(StateAt(p, mode, ls, k).disk) <= Rows(StateAt(p, mode, ls, k + 1).disk));
    }
  }

  lemma StateIsTrace(p: Plan, mode: Mode, ls: seq<Label>, k: nat)
    requires k <= |ls|
    ensures StateAt(p, mode, ls, k) == Trace(p, mode, ls[..k])
  {
  }

  lemma {:induction false} GrowsBetween(p: Plan, mode: Mode, ls: seq<Label>, i: nat, j: nat)
    requires i <= j <= |ls|
    requires forall k | 0 <= k < |ls| ::
      Rows(StateAt(p, mode, ls, k).disk) <= Rows(StateAt(p, mode, ls, k + 1).disk)
    ensures Rows(StateAt(p, mode, ls, i).disk) <= Rows(StateAt(p, mode, ls, j).disk)
    decreases j
  {
    hide StateAt;
    if i < j { GrowsBetween(p, mode, ls, i, j - 1); }
  }

  // ------------------------------------------------------ the lease handed back

  function Generation(d: Disk): nat {
    if d.lease.Some? then d.lease.value.generation else 0
  }

  /** The generation a worker is about to write into the lease. */
  function Carried(w: Worker): Option<nat> {
    match w.stage
    case BeatWrite(l) => Some(l.generation)
    case MarkLeaseWrite(l) => Some(l.generation)
    case ClaimWrite(g) => Some(g)
    case _ => None
  }

  /** It is below the one on disk. */
  predicate HandsBack(s: State, l: Label) {
    && Moves(s, l) && Carried(s.workers[l.w]).Some?
    && Carried(s.workers[l.w]).value < Generation(s.disk)
  }

  lemma GenerationAfter(p: Plan, s: State, l: Label)
    ensures Generation(Next(p, s, l).disk)
            == (if Moves(s, l) && Carried(s.workers[l.w]).Some?
                then Carried(s.workers[l.w]).value else Generation(s.disk))
  {
    hide CommitWrites, Extend, OpeningStatus, ReportOf;
    if Moves(s, l) && s.workers[l.w].stage.Writing? && s.workers[l.w].stage.next < COMMIT_WRITES {
      CommitWritesNoLease(p, s.workers[l.w], s.workers[l.w].stage.next);
    }
  }

  lemma CommitWritesNoLease(p: Plan, w: Worker, k: nat)
    requires k < COMMIT_WRITES
    ensures !WriteAt(p, w, k).PutLease?
  {
    hide StatusOf, CheckpointOf, ReportOf;
  }

  /** A step lowers the generation of the lease if and only if it is a heartbeat's, a marker's
      or a claim's write of a generation below it. */
  lemma LeaseLoweredExactly(p: Plan, s: State, l: Label)
    ensures Generation(Next(p, s, l).disk) < Generation(s.disk) <==> HandsBack(s, l)
  {
    hide Next;
    GenerationAfter(p, s, l);
  }

  ghost predicate LeaseRises(p: Plan, mode: Mode, ls: seq<Label>) {
    forall i, j | 0 <= i <= j <= |ls| ::
      Generation(StateAt(p, mode, ls, i).disk) <= Generation(StateAt(p, mode, ls, j).disk)
  }

  ghost predicate NeverHandedBack(p: Plan, mode: Mode, ls: seq<Label>) {
    forall k | 0 <= k < |ls| :: !HandsBack(StateAt(p, mode, ls, k), ls[k])
  }

  /** Along a schedule the generation never falls if and only if no such write is made. */
  lemma LeaseRisesIffNeverHandedBack(p: Plan, mode: Mode, ls: seq<Label>)
    ensures LeaseRises(p, mode, ls) <==> NeverHandedBack(p, mode, ls)
  {
    hide HandsBack, StateAt, Generation;
    forall k | 0 <= k < |ls|
      ensures Generation(StateAt(p, mode, ls, k + 1).disk) < Generation(StateAt(p, mode, ls, k).disk)
              <==> HandsBack(StateAt(p, mode, ls, k), ls[k])
    {
      StepAt(p, mode, ls, k);
      LeaseLoweredExactly(p, StateAt(p, mode, ls, k), ls[k]);
    }
    if NeverHandedBack(p, mode, ls) {
      forall i, j | 0 <= i <= j <= |ls|
        ensures Generation(StateAt(p, mode, ls, i).disk) <= Generation(StateAt(p, mode, ls, j).disk)
      {
        RisesBetween(p, mode, ls, i, j);
      }
    } else {
      var k :| 0 <= k < |ls| && HandsBack(StateAt(p, mode, ls, k), ls[k]);
      assert Generation(StateAt(p, mode, ls, k + 1).disk) < Generation(StateAt(p, mode, ls, k).disk);
    }
  }

  lemma {:induction false} RisesBetween(p: Plan, mode: Mode, ls: seq<Label>, i: nat, j: nat)
    requires i <= j <= |ls|
    requires forall k | 0 <= k < |ls| ::
      Generation(StateAt(p, mode, ls, k).disk) <= Generation(StateAt(p, mode, ls, k + 1).disk)
    ensures Generation(StateAt(p, mode, ls, i).disk) <= Generation(StateAt(p, mode, ls, j).disk)
    decreases j
  {
    hide StateAt, Generation;
    if i < j { RisesBetween(p, mode, ls, i, j - 1); }
  }

  /** The step in which worker w last moved, or the length if it never did. */
  function LastMove(ls: seq<Label>, w: nat): (k: nat)
    ensures k <= |ls|
    ensures k < |ls| ==> ls[k] == Go(w) && forall j | k < j < |ls| :: ls[j] != Go(w)
  {
    if |ls| == 0 then 0
    else if ls[|ls| - 1] == Go(w) then |ls| - 1
    else
      var k := LastMove(ls[..|ls| - 1], w);
      if k == |ls| - 1 then |ls| else k
  }

  /** What the step read if it leads to a write of the lease. */
  predicate ReadsLease(d: Disk, w: Worker, carried: nat) {
    || (w.stage in {BeatRead, MarkLease} && carried == Generation(d))
    || (w.stage == Claiming && carried == Generation(d) + 1)
  }

  lemma CarriedStep(p: Plan, d: Disk, w: Worker)
    requires d.lease.Some?
    ensures
      var c := Carried(GoStep(p, d, w).worker);
      c.Some? ==> ReadsLease(d, w, c.value)
    ensures GoStep(p, d, w).disk.lease.Some?
  {
    hide Extend, WriteAt, OpeningStatus, ReportOf, LedgerSound, InterruptDue, FinalState;
    if w.stage.Writing? && w.stage.next < COMMIT_WRITES {
      CommitWritesNoLease(p, w, w.stage.next);
    }
  }

  lemma {:induction false} LeaseIsThere(p: Plan, mode: Mode, ls: seq<Label>)
    ensures Trace(p, mode, ls).disk.lease.Some?
  {
    hide GoStep, MayResume;
    if |ls| == 0 {
      CreatePrefix(p, None);
      PutAllIsAPrefix(Io(EMPTY_DISK, None, true), CreateWrites(p));
    } else {
      LeaseIsThere(p, mode, ls[..|ls| - 1]);
      var s, l := Trace(p, mode, ls[..|ls| - 1]), ls[|ls| - 1];
      if Moves(s, l) { CarriedStep(p, s.disk, s.workers[l.w]); }
    }
  }

  /** A worker about to write a lease has read it in its last step. */
  lemma {:induction false} CarriedWasRead(p: Plan, mode: Mode, ls: seq<Label>, w: nat)
    requires w in Trace(p, mode, ls).workers && Carried(Trace(p, mode, ls).workers[w]).Some?
    ensures
      var k := LastMove(ls, w);
      && k < |ls| && w in Trace(p, mode, ls[..k]).workers
      && ReadsLease(Trace(p, mode, ls[..k]).disk, Trace(p, mode, ls[..k]).workers[w],
                    Carried(Trace(p, mode, ls).workers[w]).value)
    decreases |ls|
  {
    hide GoStep, MayResume, ReadsLease;
    if |ls| > 0 {
      var init, l := ls[..|ls| - 1], ls[|ls| - 1];
      LeaseIsThere(p, mode, init);
      var s := Trace(p, mode, init);
      if l == Go(w) {
        if w in s.workers { CarriedStep(p, s.disk, s.workers[w]); }
      } else {
        CarriedWasRead(p, mode, init, w);
        assert ls[..LastMove(init, w)] == init[..LastMove(init, w)];
      }
    }
  }

  /** A step between j and k that raised the generation to more than g. */
  predicate RaisedPast(p: Plan, mode: Mode, ls: seq<Label>, m: nat, g: nat)
    requires m < |ls|
  {
    var s := StateAt(p, mode, ls, m);
    && Moves(s, ls[m]) && Carried(s.workers[ls[m].w]).Some?
    && Generation(s.disk) <= g < Carried(s.workers[ls[m].w]).value
  }

  lemma {:induction false} SomeoneRaised(p: Plan, mode: Mode, ls: seq<Label>, j: nat, k: nat, g: nat) returns (m: nat)
    requires j <= k <= |ls|
    requires Generation(StateAt(p, mode, ls, j).disk) <= g < Generation(StateAt(p, mode, ls, k).disk)
    ensures j <= m < k && RaisedPast(p, mode, ls, m, g)
    decreases k
  {
    hide StateAt, Generation, Next;
    StepAt(p, mode, ls, k - 1);
    GenerationAfter(p, StateAt(p, mode, ls, k - 1), ls[k - 1]);
    if Generation(StateAt(p, mode, ls, k - 1).disk) <= g {
      m := k - 1;
    } else {
      m := SomeoneRaised(p, mode, ls, j, k - 1, g);
    }
  }

  /** The generation that worker w read in its last step, or claims after it. */
  function GenerationRead(p: Plan, mode: Mode, ls: seq<Label>, w: nat): nat {
    var s := Trace(p, mode, ls[..LastMove(ls, w)]);
    Generation(s.disk) + (if w in s.workers && s.workers[w].stage == Claiming then 1 else 0)
  }

  /** A step hands the lease back if and only if it writes the lease and the generation has risen
      above the one its worker read in its last step, or claims after it; and then another worker
      wrote that higher generation between the read and this write. */
  lemma HandedBackIffOvertaken(p: Plan, mode: Mode, ls: seq<Label>, l: Label)
    ensures
      var s := Trace(p, mode, ls);
      HandsBack(s, l) <==>
        && Moves(s, l) && Carried(s.workers[l.w]).Some?
        && GenerationRead(p, mode, ls, l.w) < Generation(s.disk)
    ensures HandsBack(Trace(p, mode, ls), l) ==>
      exists m | LastMove(ls, l.w) < m < |ls| ::
        ls[m] != l && RaisedPast(p, mode, ls, m, GenerationRead(p, mode, ls, l.w))
  {
    hide Trace, StateAt, RaisedPast, GoStep;
    var s := Trace(p, mode, ls);
    if Moves(s, l) && Carried(s.workers[l.w]).Some? {
      var g := Carried(s.workers[l.w]).value;
      CarriedWasRead(p, mode, ls, l.w);
      assert GenerationRead(p, mode, ls, l.w) == g;
      if HandsBack(s, l) {
        var k := LastMove(ls, l.w);
        StateIsTrace(p, mode, ls, k);
        StateIsTrace(p, mode, ls, |ls|);
        assert ls[..|ls|] == ls;
        var m := SomeoneRaised(p, mode, ls, k, |ls|, g);
        if m == k { ReadsRaiseNothing(p, mode, ls, k, g); }
      }
    }
  }

  /** The reading step itself raises nothing. */
  lemma ReadsRaiseNothing(p: Plan, mode: Mode, ls: seq<Label>, k: nat, g: nat)
    requires k < |ls| && Moves(StateAt(p, mode, ls, k), ls[k])
    requires StateAt(p, mode, ls, k).workers[ls[k].w].stage in {BeatRead, MarkLease, Claiming}
    ensures !RaisedPast(p, mode, ls, k, g)
  {
  }

  // -------------------------------------------------------- repeated attempts

  predicate Repeats(attempts: seq<Attempt>) {
    exists i, j | 0 <= i < j < |attempts| :: attempts[i].index == attempts[j].index
  }

  predicate Has(attempts: seq<Attempt>, index: nat) {
    exists a | a in attempts :: a.index == index
  }

  /** The memory after k more keys. */
  function ExtendBy(p: Plan, m: Memory, k: nat): Memory
    requires |m.rows| + k <= |p.keys|
    ensures |ExtendBy(p, m, k).rows| == |m.rows| + k
    decreases k
  {
    if k == 0 then m else Extend(p, ExtendBy(p, m, k - 1))
  }

  lemma AppendRepeats(attempts: seq<Attempt>, a: Attempt)
    ensures Repeats(attempts + [a]) <==> Repeats(attempts) || Has(attempts, a.index)
  {
    var more := attempts + [a];
    if i, j :| 0 <= i < j < |attempts| && attempts[i].index == attempts[j].index {
      assert more[i].index == more[j].index;
    }
    if Has(attempts, a.index) {
      var b :| b in attempts && b.index == a.index;
      var i :| 0 <= i < |attempts| && attempts[i] == b;
      assert more[i].index == more[|attempts|].index;
    }
    if i, j :| 0 <= i < j < |more| && more[i].index == more[j].index {
      if j < |attempts| {
        assert attempts[i].index == attempts[j].index;
      } else {
        assert attempts[i] in attempts;
      }
    }
  }

  /** The load read the attempt of a key that the worker, n rows on, has processed itself. */
  predicate Overlaps(loaded: Memory, n: nat) {
    exists a | a in loaded.logical :: |loaded.rows| <= a.index < n
  }

  /** Of what a worker holds k keys after its load, an attempt repeats exactly when the load read
      a list that repeats one, or one of the k keys' attempts. */
  lemma {:induction false} HeldRepeats(p: Plan, m: Memory, k: nat)
    requires |m.rows| + k <= |p.keys|
    ensures Repeats(ExtendBy(p, m, k).logical) <==> Repeats(m.logical) || Overlaps(m, |m.rows| + k)
    ensures forall i: nat :: Has(ExtendBy(p, m, k).logical, i) <==>
                             Has(m.logical, i) || |m.rows| <= i < |m.rows| + k
    decreases k
  {
    if k > 0 {
      var before := ExtendBy(p, m, k - 1);
      HeldRepeats(p, m, k - 1);
      var n := |m.rows| + k - 1;
      AppendRepeats(before.logical, AttemptAt(p, n));
      AppendHas(before.logical, AttemptAt(p, n));
      OverlapGrows(m, n);
    }
  }

  lemma AppendHas(attempts: seq<Attempt>, a: Attempt)
    ensures forall i: nat :: Has(attempts + [a], i) <==> Has(attempts, i) || i == a.index
  {
    forall i: nat ensures Has(attempts + [a], i) <==> Has(attempts, i) || i == a.index {
      if Has(attempts, i) {
        var b :| b in attempts && b.index == i;
        assert b in attempts + [a];
      }
      if i == a.index { assert a in attempts + [a]; }
    }
  }

  lemma OverlapGrows(m: Memory, n: nat)
    requires |m.rows| <= n
    ensures Overlaps(m, n + 1) <==> Overlaps(m, n) || Has(m.logical, n)
  {
  }

  /** What worker w last loaded: nothing, or the outcomes, or the outcomes and the attempts. */
  function LoadedBy(p: Plan, mode: Mode, ls: seq<Label>, w: nat): Memory {
    if |ls| == 0 then EMPTY_MEMORY
    else
      var s, l := Trace(p, mode, ls[..|ls| - 1]), ls[|ls| - 1];
      if l == Go(w) && w in s.workers && (s.workers[w].stage.LoadOutcomes? || s.workers[w].stage.LoadAttempts?)
      then GoStep(p, s.disk, s.workers[w]).worker.memory
      else LoadedBy(p, mode, ls[..|ls| - 1], w)
  }

  ghost predicate HoldsLoaded(p: Plan, m: Memory, loaded: Memory) {
    |loaded.rows| <= |m.rows| <= |p.keys| && m == ExtendBy(p, loaded, |m.rows| - |loaded.rows|)
  }

  /** A step leaves a worker's memory alone, extends it by one key, or loads. */
  lemma MemoryStep(p: Plan, d: Disk, w: Worker)
    ensures
      var m := GoStep(p, d, w).worker.memory;
      || m == w.memory
      || (|w.memory.rows| < |p.keys| && m == Extend(p, w.memory))
      || w.stage.LoadOutcomes? || w.stage.LoadAttempts?
    ensures w.stage.LoadOutcomes? || w.stage.LoadAttempts? ==>
      GoStep(p, d, w).worker.memory.rows
      == (if w.stage.LoadOutcomes? then Rows(d) else w.memory.rows)
  {
    hide Extend, CommitWrites, OpeningStatus, ReportOf;
  }

  lemma ExtendOnce(p: Plan, m: Memory, loaded: Memory)
    requires HoldsLoaded(p, m, loaded) && |m.rows| < |p.keys|
    ensures HoldsLoaded(p, Extend(p, m), loaded)
  {
  }

  lemma {:induction false} MemoryIsLoadedAndExtended(p: Plan, mode: Mode, ls: seq<Label>, w: nat)
    requires w in Trace(p, mode, ls).workers
    ensures HoldsLoaded(p, Trace(p, mode, ls).workers[w].memory, LoadedBy(p, mode, ls, w))
    decreases |ls|
  {
    hide GoStep, HoldsLoaded, Safe;
    TraceSafe(p, mode, ls);
    if |ls| == 0 {
      NothingHeld(p);
    } else {
      var init, l := ls[..|ls| - 1], ls[|ls| - 1];
      var s := Trace(p, mode, init);
      if w in s.workers {
        MemoryIsLoadedAndExtended(p, mode, init, w);
        if l == Go(w) {
          MemoryStep(p, s.disk, s.workers[w]);
          SafeWorkerRows(p, mode, ls, w);
          var m := s.workers[w].memory;
          if |m.rows| < |p.keys| { ExtendOnce(p, m, LoadedBy(p, mode, init, w)); }
          if s.workers[w].stage.LoadOutcomes? || s.workers[w].stage.LoadAttempts? {
            JustLoaded(p, GoStep(p, s.disk, s.workers[w]).worker.memory);
          }
        }
      } else {
        NothingHeld(p);
        NeverSteppedYet(p, mode, init, w);
      }
    }
  }

  lemma SafeWorkerRows(p: Plan, mode: Mode, ls: seq<Label>, w: nat)
    requires w in Trace(p, mode, ls).workers
    ensures |Trace(p, mode, ls).workers[w].memory.rows| <= |p.keys|
  {
    hide Trace;
    TraceSafe(p, mode, ls);
  }

  lemma NothingHeld(p: Plan)
    ensures HoldsLoaded(p, EMPTY_MEMORY, EMPTY_MEMORY)
  {
  }

  lemma JustLoaded(p: Plan, m: Memory)
    requires |m.rows| <= |p.keys|
    ensures HoldsLoaded(p, m, m)
  {
  }

  /** A worker that does not exist yet has loaded nothing. */
  lemma {:induction false} NeverSteppedYet(p: Plan, mode: Mode, ls: seq<Label>, w: nat)
    requires w !in Trace(p, mode, ls).workers
    ensures LoadedBy(p, mode, ls, w) == EMPTY_MEMORY
    decreases |ls|
  {
    hide GoStep;
    if |ls| > 0 { NeverSteppedYet(p, mode, ls[..|ls| - 1], w); }
  }

  /** In every state of every schedule a worker holds two attempts of one index if and only if
      its load read a list that repeats one, or read the attempt of a key beyond the rows it had
      loaded that the worker has meanwhile processed itself. */
  lemma HeldTwiceExactly(p: Plan, mode: Mode, ls: seq<Label>, w: nat)
    requires w in Trace(p, mode, ls).workers
    ensures
      var m, loaded := Trace(p, mode, ls).workers[w].memory, LoadedBy(p, mode, ls, w);
      Repeats(m.logical) <==> Repeats(loaded.logical) || Overlaps(loaded, |m.rows|)
  {
    hide Trace, LoadedBy, Repeats, Overlaps;
    MemoryIsLoadedAndExtended(p, mode, ls, w);
    var m, loaded := Trace(p, mode, ls).workers[w].memory, LoadedBy(p, mode, ls, w);
    HeldRepeats(p, loaded, |m.rows| - |loaded.rows|);
  }

  /** A worker is about to write attempts whose load was such a one. */
  predicate Rewrites(p: Plan, mode: Mode, ls: seq<Label>, l: Label) {
    var s := Trace(p, mode, ls);
    && Moves(s, l) && s.workers[l.w].stage == Writing(1)
    && var loaded := LoadedBy(p, mode, ls, l.w);
    Repeats(loaded.logical) || Overlaps(loaded, |s.workers[l.w].memory.rows|)
  }

  lemma AttemptsChangeOnlyAtCommits(p: Plan, s: State, l: Label)
    ensures Logical(Next(p, s, l).disk)
            == (if Moves(s, l) && s.workers[l.w].stage == Writing(1)
                then s.workers[l.w].memory.logical else Logical(s.disk))
  {
    hide StatusOf, CheckpointOf, ReportOf, Extend, OpeningStatus, Tally;
  }

  /** The attempts file repeats an attempt after a step if and only if the step is such a write,
      or the file repeated one before and the step does not replace it. */
  lemma RecordedTwiceExactly(p: Plan, mode: Mode, ls: seq<Label>, l: Label)
    ensures
      var s := Trace(p, mode, ls);
      Repeats(Logical(Next(p, s, l).disk)) <==>
        if Moves(s, l) && s.workers[l.w].stage == Writing(1) then Rewrites(p, mode, ls, l)
        else Repeats(Logical(s.disk))
  {
    hide Trace, Next, LoadedBy, Repeats, Overlaps;
    var s := Trace(p, mode, ls);
    AttemptsChangeOnlyAtCommits(p, s, l);
    if Moves(s, l) { HeldTwiceExactly(p, mode, ls, l.w); }
  }

  ghost predicate AttemptsDistinct(p: Plan, mode: Mode, ls: seq<Label>) {
    forall k | 0 <= k <= |ls| :: !Repeats(Logical(StateAt(p, mode, ls, k).disk))
  }

  ghost predicate NeverRewritten(p: Plan, mode: Mode, ls: seq<Label>) {
    forall k | 0 <= k < |ls| :: !Rewrites(p, mode, ls[..k], ls[k])
  }

  /** Along a schedule the attempts file never repeats an attempt if and only if no such write is
      made. */
  lemma AttemptsDistinctIffNeverRewritten(p: Plan, mode: Mode, ls: seq<Label>)
    ensures AttemptsDistinct(p, mode, ls) <==> NeverRewritten(p, mode, ls)
  {
    hide Rewrites, StateAt, Repeats, Trace;
    forall k | 0 <= k < |ls|
      ensures Rewrites(p, mode, ls[..k], ls[k]) ==> Repeats(Logical(StateAt(p, mode, ls, k + 1).disk))
      ensures !Rewrites(p, mode, ls[..k], ls[k]) && !Repeats(Logical(StateAt(p, mode, ls, k).disk))
        ==> !Repeats(Logical(StateAt(p, mode, ls, k + 1).disk))
    {
      StateIsTrace(p, mode, ls, k);
      StepAt(p, mode, ls, k);
      RewritesWrite(p, mode, ls[..k], ls[k]);
      RecordedTwiceExactly(p, mode, ls[..k], ls[k]);
    }
    if NeverRewritten(p, mode, ls) {
      forall k | 0 <= k <= |ls| ensures !Repeats(Logical(StateAt(p, mode, ls, k).disk)) {
        DistinctSoFar(p, mode, ls, k);
      }
    } else {
      var k :| 0 <= k < |ls| && Rewrites(p, mode, ls[..k], ls[k]);
      assert Repeats(Logical(StateAt(p, mode, ls, k + 1).disk));
    }
  }

  lemma RewritesWrite(p: Plan, mode: Mode, ls: seq<Label>, l: Label)
    ensures Rewrites(p, mode, ls, l) ==>
      Moves(Trace(p, mode, ls), l) && Trace(p, mode, ls).workers[l.w].stage == Writing(1)
  {
  }

  lemma {:induction false} DistinctSoFar(p: Plan, mode: Mode, ls: seq<Label>, k: nat)
    requires k <= |ls|
    requires forall i | 0 <= i < |ls| && Repeats(Logical(StateAt(p, mode, ls, i + 1).disk)) ::
      Repeats(Logical(StateAt(p, mode, ls, i).disk))
    ensures !Repeats(Logical(StateAt(p, mode, ls, k).disk))
    decreases k
  {
    hide StateAt, Repeats;
    if k > 0 {
      DistinctSoFar(p, mode, ls, k - 1);
    } else {
      NothingRecorded(p, mode, ls);
    }
  }

  lemma NothingRecorded(p: Plan, mode: Mode, ls: seq<Label>)
    ensures !Repeats(Logical(StateAt(p, mode, ls, 0).disk))
  {
    CreatePrefix(p, None);
    PutAllIsAPrefix(Io(EMPTY_DISK, None, true), CreateWrites(p));
  }
}
