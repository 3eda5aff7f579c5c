/** The gate's verdict on a directory that several workers share: what it accepts, and exactly
    which steps take an acceptance back. */
module Verdicts {
  import opened Options
  import opened Ledger
  import opened Sessions
  import opened CrashResume
  import opened Workers
  import opened Lapses
  import opened Fencing
  import L = Lagging
  import Gate

  /** The status a worker is about to write back. */
  function Written(stage: Stage): Option<StatusDoc> {
    match stage
    case HoldWrite(_, _, s) => Some(s)
    case FinalWrite(s) => Some(s)
    case MarkStatus(s) => Some(InterruptStatus(s))
    case BlockWrite(s) => Some(BlockStatus(s))
    case _ => None
  }

  /** The step marks the report interrupted, or writes back another status than the one there. */
  predicate Undoes(s: State, l: Label) {
    Moves(s, l) &&
    var stage := s.workers[l.w].stage;
    stage.MarkReportWrite? || (Written(stage).Some? && Written(stage) != s.disk.status)
  }

  predicate Reports(d: Disk, w: Worker) {
    w.stage == HoldFence(ToReport) && !Fenced(d, w.generation)
  }

  /** Report and status after a turn that is no commit. */
  lemma QuietDocuments(p: Plan, d: Disk, w: Worker)
    requires !Inside(w.stage) && !(w.stage.AtCommit? && !Fenced(d, w.generation))
    ensures
      var d' := Turn(p, d, w).disk;
      && d'.report == (if w.stage.MarkReportWrite? then Some(InterruptReport(w.stage.report))
                       else if Reports(d, w) then Reported(p, d, w).report
                       else d.report)
      && d'.status == (if Written(w.stage).Some? then Written(w.stage)
                       else if Reports(d, w) then Reported(p, d, w).status
                       else if w.stage.Opening? then Some(OpeningStatus(p, Running, 1))
                       else d.status)
  {
    hide Section, Turn, GoStep, Reported;
    if w.stage.BeatRead? {
      BeatTurn(p, d, w);
    } else if Sectioned(d, w) {
      ReportTurn(p, d, w);
    } else {
      PlainTurn(p, d, w);
      StepDocuments(p, d, w);
    }
  }

  lemma StepDocuments(p: Plan, d: Disk, w: Worker)
    requires !Inside(w.stage) && !Sectioned(d, w)
    ensures
      var d' := GoStep(p, d, w).disk;
      && d'.report == (if w.stage.MarkReportWrite? then Some(InterruptReport(w.stage.report)) else d.report)
      && d'.status == (if Written(w.stage).Some? then Written(w.stage)
                       else if w.stage.Opening? then Some(OpeningStatus(p, Running, 1))
                       else d.status)
  {
    hide Extend, LedgerSound, InterruptDue, FinalState, WriteAt, Fenced, OpeningStatus, InterruptReport,
      InterruptStatus, BlockStatus;
  }

  // ------------------------------------------------------- what the gate looks at

  predicate SameLedgersAndReport(d: Disk, d': Disk) {
    SameLedgers(d, d') && d'.report == d.report
  }

  /** A directory that passes leaves no choice of its status: the other documents determine it. */
  lemma PassingPinsTheStatus(p: Plan, d: Disk, d': Disk)
    requires SameLedgersAndReport(d, d') && Gate.LifecyclePasses(p, d)
    ensures Gate.LifecyclePasses(p, d') <==> d'.status == d.status
  {
  }

  lemma InterruptedFails(p: Plan, d: Disk)
    requires d.report.Some? && d.report.value.state == Interrupted
    ensures !Gate.LifecyclePasses(p, d)
  {
  }

  lemma PassingIsFull(p: Plan, d: Disk)
    requires Gate.LifecyclePasses(p, d)
    ensures |Rows(d)| == |p.keys|
  {
  }

  /** The report without the count that a split commit gets wrong. */
  function Uncounted(r: ReportDoc): ReportDoc {
    r.(logicalCount := 0)
  }

  /** The documents of an uninterrupted run, but for the logical attempt count of the report. */
  ghost predicate EndsLike(d: Disk, u: Disk) {
    && SameLedgers(d, u) && d.status == u.status
    && d.report.Some? && u.report.Some? && Uncounted(d.report.value) == Uncounted(u.report.value)
  }

  /** The gate does not look at that count. */
  lemma EndsLikePasses(p: Plan, d: Disk, u: Disk)
    requires EndsLike(d, u)
    ensures Gate.LifecyclePasses(p, d) <==> Gate.LifecyclePasses(p, u)
  {
  }

  function Uninterrupted(p: Plan): Disk {
    After(p, UNINTERRUPTED, [])
  }

  lemma UninterruptedPasses(p: Plan)
    requires p.Valid() && |p.keys| > 0
    ensures JustCommitted(p, Uninterrupted(p), {}, |p.keys|) && Gate.LifecyclePasses(p, Uninterrupted(p))
  {
    hide JustCommitted, Gate.LifecyclePasses, After;
    UninterruptedRun(p);
    Gate.FullCommitPasses(p, Uninterrupted(p));
  }

  /** Level ledgers over all keys are those of the uninterrupted run. */
  lemma FullLedgers(p: Plan, d: Disk, u: Disk)
    requires LedgersLevel(p, d) && |Rows(d)| == |p.keys| > 0 && JustCommitted(p, u, {}, |p.keys|)
    ensures SameLedgers(d, u)
    ensures u.report == Some(ReportOf(p, 1 + |p.keys|, Durable(d)))
    ensures u.status == Some(StatusOf(p, 1 + |p.keys|, Rows(d)))
  {
    hide Kept, ReportOf, StatusOf, CheckpointOf;
    DurableMemory(p, d);
  }

  lemma ReportedEnds(p: Plan, d: Disk, w: Worker, d': Disk)
    requires p.Valid() && |p.keys| > 0 && LedgersLevel(p, d) && |Rows(d)| == |p.keys|
    requires w.memory == Durable(d) && SameLedgers(d, d')
    requires d'.report == Reported(p, d, w).report && d'.status == Reported(p, d, w).status
    ensures Gate.LifecyclePasses(p, d')
  {
    hide JustCommitted, Gate.LifecyclePasses, LedgersLevel, ReportOf, StatusOf, Uninterrupted;
    UninterruptedPasses(p);
    FullLedgers(p, d, Uninterrupted(p));
    EndsLikePasses(p, d', Uninterrupted(p));
  }

  lemma ReporterHolds(p: Plan, s: State, w: nat)
    requires Inv(p, s) && w in s.workers && Reports(s.disk, s.workers[w])
    ensures s.workers[w].memory == Durable(s.disk)
  {
    hide LedgersLevel, Durable;
    assert Holder(s.disk, s.workers[w]);
  }

  // ------------------------------------------------- when an acceptance is taken back

  /** A step takes the gate's acceptance back if and only if it marks the report interrupted or
      writes back another status than the one there. */
  lemma AcceptanceStep(p: Plan, mode: Mode, s: State, l: Label)
    requires p.Valid() && |p.keys| > 0 && Inv(p, s) && L.OpeningIsFirst(p, mode, s)
    requires Gate.LifecyclePasses(p, s.disk)
    ensures Gate.LifecyclePasses(p, NextTurn(p, s, l).disk) <==> !Undoes(s, l)
  {
    hide LedgersLevel, Turn, Knows, GoStep, MayResume, Reported, Gate.LifecyclePasses, Rows;
    var d, d' := s.disk, NextTurn(p, s, l).disk;
    PassingIsFull(p, d);
    if Commits(s, l) {
      CommitAdds(p, s, l);
      assert false;
    } else {
      OthersKeepTheLedgers(p, s, l);
      if Moves(s, l) {
        var w := s.workers[l.w];
        WorkersOutside(p, s, l.w);
        QuietDocuments(p, d, w);
        L.CreatedDocuments(p, mode);
        if w.stage.MarkReportWrite? {
          InterruptedFails(p, d');
        } else if Reports(d, w) {
          ReporterHolds(p, s, l.w);
          ReportedEnds(p, d, w, d');
        } else {
          PassingPinsTheStatus(p, d, d');
        }
      } else {
        PassingPinsTheStatus(p, d, d');
      }
    }
  }

  ghost predicate PassesFrom(p: Plan, mode: Mode, ls: seq<Label>, i: nat) {
    forall k | i <= k <= |ls| :: Gate.LifecyclePasses(p, Course(p, mode, ls[..k]).disk)
  }

  ghost predicate NeverUndone(p: Plan, mode: Mode, ls: seq<Label>, i: nat) {
    forall k | i <= k < |ls| :: !Undoes(Course(p, mode, ls[..k]), ls[k])
  }

  /** A run that passes the gate keeps passing along the rest of a schedule if and only if no
      later step does that. */
  lemma KeepsPassingIff(p: Plan, mode: Mode, ls: seq<Label>, i: nat)
    requires p.Valid() && |p.keys| > 0 && AllExclusive(p, mode, ls) && i <= |ls|
    requires Gate.LifecyclePasses(p, Course(p, mode, ls[..i]).disk)
    ensures PassesFrom(p, mode, ls, i) <==> NeverUndone(p, mode, ls, i)
  {
    hide AllExclusive, Undoes, Gate.LifecyclePasses, Inv, L.OpeningIsFirst, NextTurn;
    forall k | i <= k < |ls| && Gate.LifecyclePasses(p, Course(p, mode, ls[..k]).disk)
      ensures Gate.LifecyclePasses(p, Course(p, mode, ls[..k + 1]).disk)
              <==> !Undoes(Course(p, mode, ls[..k]), ls[k])
    {
      ExclusivePrefix(p, mode, ls, k);
      CourseInv(p, mode, ls[..k]);
      L.OpeningFirst(p, mode, ls[..k]);
      AcceptanceStep(p, mode, Course(p, mode, ls[..k]), ls[k]);
      assert ls[..k + 1][..k] == ls[..k];
    }
    if NeverUndone(p, mode, ls, i) {
      forall k | i <= k <= |ls| ensures Gate.LifecyclePasses(p, Course(p, mode, ls[..k]).disk) {
        PassesSoFar(p, mode, ls, i, k);
      }
    } else {
      var k :| i <= k < |ls| && Undoes(Course(p, mode, ls[..k]), ls[k]);
      assert !Gate.LifecyclePasses(p, Course(p, mode, ls[..k]).disk)
          || !Gate.LifecyclePasses(p, Course(p, mode, ls[..k + 1]).disk);
    }
  }

  lemma {:induction false} PassesSoFar(p: Plan, mode: Mode, ls: seq<Label>, i: nat, k: nat)
    requires i <= k <= |ls| && Gate.LifecyclePasses(p, Course(p, mode, ls[..i]).disk)
    requires forall j | i <= j < |ls| && Gate.LifecyclePasses(p, Course(p, mode, ls[..j]).disk) ::
      Gate.LifecyclePasses(p, Course(p, mode, ls[..j + 1]).disk)
    ensures Gate.LifecyclePasses(p, Course(p, mode, ls[..k]).disk)
    decreases k
  {
    hide Gate.LifecyclePasses, NextTurn;
    if k > i { PassesSoFar(p, mode, ls, i, k - 1); }
  }

  // --------------------------------------------- what the gate accepts

  /** The report of some commit, marked interrupted or not; only a run whose commits are split has
      reports without the logical attempt count. */
  ghost predicate ReportGenuine(p: Plan, mode: Mode, r: ReportDoc) {
    1 <= r.cursor <= |p.keys| &&
    var base := ReportOf(p, 1 + r.cursor, MemoryAt(p, r.cursor, {}));
    || r == base || r == InterruptReport(base)
    || (mode.barrier == BeforeReport && (r == Uncounted(base) || r == InterruptReport(Uncounted(base))))
  }

  ghost predicate WorkerGenuine(p: Plan, mode: Mode, w: Worker) {
    && (w.mode == mode || w.mode == PLAIN)
    && (w.stage.MarkReportWrite? ==> ReportGenuine(p, mode, w.stage.report))
  }

  ghost predicate ReportsGenuine(p: Plan, mode: Mode, s: State) {
    && (s.disk.report.Some? ==> ReportGenuine(p, mode, s.disk.report.value))
    && forall w | w in s.workers :: WorkerGenuine(p, mode, s.workers[w])
  }

  /** A turn keeps the worker's mode, and a report it then carries is the one on disk. */
  lemma CarriedReport(p: Plan, d: Disk, w: Worker)
    requires !Inside(w.stage)
    ensures
      var e := Turn(p, d, w).worker;
      && e.mode == w.mode
      && (e.stage.MarkReportWrite? ==> Some(e.stage.report) == d.report)
  {
    hide Turn, Section, GoStep, Committed;
    if w.stage.BeatRead? {
      BeatTurn(p, d, w);
    } else if w.stage.AtCommit? && Sectioned(d, w) {
      CommitTurn(p, d, w);
    } else if Sectioned(d, w) {
      ReportTurn(p, d, w);
    } else {
      PlainTurn(p, d, w);
      CarriedStep(p, d, w);
    }
  }

  lemma CarriedStep(p: Plan, d: Disk, w: Worker)
    requires !Inside(w.stage) && !Sectioned(d, w)
    ensures
      var e := GoStep(p, d, w).worker;
      && e.mode == w.mode
      && (e.stage.MarkReportWrite? ==> Some(e.stage.report) == d.report)
  {
    hide Extend, LedgerSound, InterruptDue, OpeningStatus, FinalState, WriteAt, Fenced;
  }

  lemma CommitGenuine(p: Plan, mode: Mode, s: State, l: Label)
    requires Inv(p, s) && Commits(s, l) && ReportsGenuine(p, mode, s)
    ensures
      var d' := NextTurn(p, s, l).disk;
      d'.report.Some? ==> ReportGenuine(p, mode, d'.report.value)
  {
    hide LedgersLevel, Committed, Turn, ReportOf, StatusOf, MemoryAt, Extend;
    var d, w := s.disk, s.workers[l.w];
    CommitTurn(p, d, w);
    CommitAdvances(p, d, w);
    L.CursorsOf(p, |Rows(d)| + 1, w.memory);
    SafeLength(p, d);
  }

  lemma SafeLength(p: Plan, d: Disk)
    requires LedgersLevel(p, d)
    ensures |Rows(d)| <= |p.keys|
  {
  }

  lemma ReportedGenuine(p: Plan, mode: Mode, s: State, w: nat)
    requires Inv(p, s) && w in s.workers && Reports(s.disk, s.workers[w])
    requires WorkerGenuine(p, mode, s.workers[w]) && |Rows(s.disk)| > 0
    ensures ReportGenuine(p, mode, Reported(p, s.disk, s.workers[w]).report.value)
  {
    hide LedgersLevel, StatusOf, MemoryAt, Knows, Holder;
    ReporterHolds(p, s, w);
    DurableMemory(p, s.disk);
    SafeLength(p, s.disk);
    L.CursorsOf(p, |Rows(s.disk)|, s.workers[w].memory);
  }

  lemma MarkedGenuine(p: Plan, mode: Mode, r: ReportDoc)
    requires ReportGenuine(p, mode, r)
    ensures ReportGenuine(p, mode, InterruptReport(r))
  {
    hide ReportOf, MemoryAt;
  }

  lemma GenuineStep(p: Plan, mode: Mode, s: State, l: Label)
    requires Inv(p, s) && ReportsGenuine(p, mode, s)
    requires forall w | w in s.workers :: s.workers[w].stage == HoldFence(ToReport) ==> |s.workers[w].memory.rows| > 0
    ensures ReportsGenuine(p, mode, NextTurn(p, s, l))
  {
    hide LedgersLevel, Turn, Knows, GoStep, MayResume, Reported, ReportGenuine;
    if Moves(s, l) {
      var w := s.workers[l.w];
      WorkersOutside(p, s, l.w);
      CarriedReport(p, s.disk, w);
      if Commits(s, l) {
        CommitGenuine(p, mode, s, l);
      } else {
        QuietDocuments(p, s.disk, w);
        if w.stage.MarkReportWrite? { MarkedGenuine(p, mode, w.stage.report); }
        if Reports(s.disk, w) {
          L.ReporterKnows(p, s, l.w);
          ReportedGenuine(p, mode, s, l.w);
        }
      }
    }
  }

  lemma {:induction false} CourseGenuine(p: Plan, mode: Mode, ls: seq<Label>)
    requires AllExclusive(p, mode, ls)
    ensures ReportsGenuine(p, mode, Course(p, mode, ls))
    decreases |ls|
  {
    hide ReportsGenuine, Inv, NextTurn, AllExclusive;
    if |ls| == 0 {
      CreatedGenuine(p, mode);
    } else {
      var s := Course(p, mode, ls[..|ls| - 1]);
      ExclusivePrefix(p, mode, ls, |ls| - 1);
      CourseGenuine(p, mode, ls[..|ls| - 1]);
      CourseInv(p, mode, ls[..|ls| - 1]);
      CourseSafe(p, mode, ls[..|ls| - 1]);
      ReportersHaveRows(p, s);
      GenuineStep(p, mode, s, ls[|ls| - 1]);
    }
  }

  lemma ReportersHaveRows(p: Plan, s: State)
    requires Safe(p, s)
    ensures forall w | w in s.workers :: s.workers[w].stage == HoldFence(ToReport) ==> |s.workers[w].memory.rows| > 0
  {
    hide DiskSafe, MemorySafe, StatusSafe, ReportSafe;
  }

  lemma CreatedGenuine(p: Plan, mode: Mode)
    ensures ReportsGenuine(p, mode, Workers.Created(p, mode))
  {
    CreatePrefix(p, None);
    PutAllIsAPrefix(Io(EMPTY_DISK, None, true), CreateWrites(p));
  }

  lemma GenuineAndPassing(p: Plan, mode: Mode, d: Disk, u: Disk)
    requires LedgersLevel(p, d) && |Rows(d)| == |p.keys| > 0
    requires d.report.Some? ==> ReportGenuine(p, mode, d.report.value)
    requires Gate.LifecyclePasses(p, d) && SameLedgers(d, u)
    requires u.report == Some(ReportOf(p, 1 + |p.keys|, Durable(d)))
    ensures EndsLike(d.(status := u.status), u)
    ensures d.report == u.report
            || (mode.barrier == BeforeReport && d.report == Some(Uncounted(u.report.value)))
  {
    hide LedgersLevel, MemoryAt, StatusOf, CheckpointOf;
    DurableMemory(p, d);
    L.CursorsOf(p, d.report.value.cursor, MemoryAt(p, d.report.value.cursor, {}));
    ReportCounts(p, d.report.value.cursor);
  }

  lemma ReportCounts(p: Plan, n: nat)
    requires n <= |p.keys|
    ensures ReportOf(p, 1 + n, MemoryAt(p, n, {})).processed == n
  {
    hide Kept;
  }

  /** Over every schedule with exclusive leases the lifecycle checks pass if and only if outcomes,
      attempts, checkpoint and status are those of the uninterrupted run and so is the report, up
      to the logical attempt count that the split commit leaves at 0. */
  lemma GatePassesIffItEndsLike(p: Plan, mode: Mode, ls: seq<Label>)
    requires p.Valid() && |p.keys| > 0 && AllExclusive(p, mode, ls)
    ensures
      var d, u := Course(p, mode, ls).disk, Uninterrupted(p);
      Gate.LifecyclePasses(p, d) <==>
        && SameLedgers(d, u) && d.status == u.status
        && u.report.Some?
        && (d.report == u.report
            || (mode.barrier == BeforeReport && d.report == Some(Uncounted(u.report.value))))
  {
    hide Course, AllExclusive, JustCommitted, Gate.LifecyclePasses, LedgersLevel, Knows, Uninterrupted, ReportGenuine,
      ReportOf, StatusOf, Durable, Rows;
    var d, u := Course(p, mode, ls).disk, Uninterrupted(p);
    UninterruptedPasses(p);
    CourseInv(p, mode, ls);
    CourseGenuine(p, mode, ls);
    FullReport(p, u);
    if Gate.LifecyclePasses(p, d) {
      PassingIsFull(p, d);
      FullLedgers(p, d, u);
      GenuineAndPassing(p, mode, d, u);
      EndsLikePasses(p, d.(status := u.status), u);
      PassingPinsTheStatus(p, d, d.(status := u.status));
    } else if SameLedgers(d, u) && d.status == u.status && d.report.Some? {
      if Uncounted(d.report.value) == Uncounted(u.report.value) { EndsLikePasses(p, d, u); }
    }
  }

  lemma FullReport(p: Plan, u: Disk)
    requires JustCommitted(p, u, {}, |p.keys|)
    ensures u.report.Some?
  {
    hide ReportOf, StatusOf, Settled;
  }
}
