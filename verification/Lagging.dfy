/** How far the report and the status may stand behind the ledgers, when commits and heartbeats
    are single steps: exactly which steps leave them behind. */
module Lagging {
  import opened Options
  import opened Ledger
  import opened Sessions
  import opened CrashResume
  import opened Workers
  import opened Lapses
  import opened Fencing

  /** All five documents stand at the same key. */
  predicate CursorsAgree(d: Disk) {
    |Logical(d)| == CheckpointCursor(d) == ReportCursor(d) == StatusCursor(d) == |Rows(d)|
  }

  /** The status a worker carries from an earlier read. */
  function HeldStatus(stage: Stage): Option<StatusDoc> {
    match stage
    case HoldWrite(_, _, s) => Some(s)
    case MarkReport(s) => Some(s)
    case MarkReportWrite(s, _) => Some(s)
    case MarkStatus(s) => Some(s)
    case FinalReport(s) => Some(s)
    case FinalWrite(s) => Some(s)
    case BlockWrite(s) => Some(s)
    case _ => None
  }

  predicate WritesStatusBack(stage: Stage) {
    stage.HoldWrite? || stage.MarkStatus? || stage.FinalWrite? || stage.BlockWrite?
  }

  /** The step writes back a status or a report read before the last commit, or it commits and
      holds before report and status. */
  predicate LeavesBehind(s: State, l: Label) {
    Moves(s, l) &&
    var w, n := s.workers[l.w], |Rows(s.disk)|;
    || (WritesStatusBack(w.stage) && HeldStatus(w.stage).value.cursor != n)
    || (w.stage.MarkReportWrite? && w.stage.report.cursor != n)
    || (Commits(s, l) && Splits(w))
  }

  /** Report and status cursor after a step that is no commit. */
  lemma QuietCursors(p: Plan, d: Disk, w: Worker)
    requires !Inside(w.stage) && !(w.stage.AtCommit? && !Fenced(d, w.generation))
    ensures
      var d' := Turn(p, d, w).disk;
      && ReportCursor(d')
         == (if w.stage.MarkReportWrite? then w.stage.report.cursor
             else if w.stage == HoldFence(ToReport) && !Fenced(d, w.generation) then |w.memory.rows|
             else ReportCursor(d))
      && StatusCursor(d')
         == (if WritesStatusBack(w.stage) then HeldStatus(w.stage).value.cursor
             else if w.stage == HoldFence(ToReport) && !Fenced(d, w.generation) then |w.memory.rows|
             else if w.stage.Opening? then 0
             else StatusCursor(d))
  {
    hide Section, Turn, GoStep, Reported;
    if w.stage.BeatRead? {
      BeatTurn(p, d, w);
    } else if Sectioned(d, w) {
      ReportTurn(p, d, w);
      ReportedCursors(p, d, w);
    } else {
      PlainTurn(p, d, w);
      StepCursors(p, d, w);
    }
  }

  lemma ReportedCursors(p: Plan, d: Disk, w: Worker)
    ensures ReportCursor(Reported(p, d, w)) == StatusCursor(Reported(p, d, w)) == |w.memory.rows|
  {
  }

  lemma StepCursors(p: Plan, d: Disk, w: Worker)
    requires !Inside(w.stage) && !Sectioned(d, w)
    ensures
      var d' := GoStep(p, d, w).disk;
      && ReportCursor(d') == (if w.stage.MarkReportWrite? then w.stage.report.cursor else ReportCursor(d))
      && StatusCursor(d')
         == (if WritesStatusBack(w.stage) then HeldStatus(w.stage).value.cursor
             else if w.stage.Opening? then 0
             else StatusCursor(d))
  {
    hide Extend, LedgerSound, InterruptDue, FinalState, WriteAt, Fenced;
  }

  /** Before the run's first status nobody has done anything. */
  ghost predicate OpeningIsFirst(p: Plan, mode: Mode, s: State) {
    s == Workers.Created(p, mode) || forall w | w in s.workers :: !s.workers[w].stage.Opening?
  }

  lemma NeverOpening(p: Plan, d: Disk, w: Worker)
    requires !Inside(w.stage)
    ensures !Turn(p, d, w).worker.stage.Opening?
  {
    hide Turn, Section, GoStep, Committed;
    if w.stage.BeatRead? {
      BeatTurn(p, d, w);
    } else if w.stage.AtCommit? && Sectioned(d, w) {
      CommitTurn(p, d, w);
    } else if Sectioned(d, w) {
      ReportTurn(p, d, w);
    } else {
      PlainTurn(p, d, w);
      NoStepOpens(p, d, w);
    }
  }

  lemma NoStepOpens(p: Plan, d: Disk, w: Worker)
    ensures !GoStep(p, d, w).worker.stage.Opening?
  {
    hide Extend, LedgerSound, InterruptDue, FinalState, WriteAt, OpeningStatus;
  }

  lemma {:induction false} OpeningFirst(p: Plan, mode: Mode, ls: seq<Label>)
    requires AllExclusive(p, mode, ls)
    ensures OpeningIsFirst(p, mode, Course(p, mode, ls))
    decreases |ls|
  {
    hide Inv, Turn, AllExclusive, GoStep;
    if |ls| > 0 {
      ExclusivePrefix(p, mode, ls, |ls| - 1);
      var init, l := ls[..|ls| - 1], ls[|ls| - 1];
      var s := Course(p, mode, init);
      OpeningFirst(p, mode, init);
      CourseInv(p, mode, init);
      CreatedDocuments(p, mode);
      if Moves(s, l) {
        WorkersOutside(p, s, l.w);
        NeverOpening(p, s.disk, s.workers[l.w]);
      }
    }
  }

  lemma CreatedDocuments(p: Plan, mode: Mode)
    ensures
      var s := Workers.Created(p, mode);
      && s.workers.Keys == {0}
      && s.disk.status.Some? && s.disk.status.value.state == RunState.Created
      && CursorsAgree(s.disk) && Rows(s.disk) == []
  {
    CreatePrefix(p, None);
    PutAllIsAPrefix(Io(EMPTY_DISK, None, true), CreateWrites(p));
  }

  lemma LevelCursors(p: Plan, d: Disk)
    requires LedgersLevel(p, d)
    ensures |Logical(d)| == CheckpointCursor(d) == |Rows(d)|
    ensures Durable(d) == MemoryAt(p, |Rows(d)|, {})
  {
    DurableMemory(p, d);
    KeptLength(p, |Rows(d)|, {});
  }

  /** A commit that does not hold brings all five to the next key, wherever they were. */
  lemma CommitCursors(p: Plan, s: State, l: Label)
    requires Inv(p, s) && Commits(s, l)
    ensures
      var d, d', w := s.disk, NextTurn(p, s, l).disk, s.workers[l.w];
      && |Rows(d')| == |Rows(d)| + 1 && LedgersLevel(p, d')
      && (if Splits(w) then StatusCursor(d') == StatusCursor(d) && ReportCursor(d') == ReportCursor(d)
          else CursorsAgree(d'))
  {
    hide LedgersLevel, Committed, Turn, LedgerRows, StatusOf, ReportOf;
    var d, w := s.disk, s.workers[l.w];
    CommitTurn(p, d, w);
    CommitAdvances(p, d, w);
    LevelCursors(p, NextTurn(p, s, l).disk);
    CursorsOf(p, |Rows(d)| + 1, w.memory);
  }

  lemma CursorsOf(p: Plan, n: nat, m: Memory)
    ensures ReportOf(p, 1 + n, m).cursor == |m.rows| && StatusOf(p, 1 + n, m.rows).cursor == |m.rows|
  {
  }

  lemma ReporterKnows(p: Plan, s: State, w: nat)
    requires Inv(p, s) && w in s.workers && s.workers[w].stage == HoldFence(ToReport)
    requires !Fenced(s.disk, s.workers[w].generation)
    ensures |s.workers[w].memory.rows| == |Rows(s.disk)|
  {
    hide LedgersLevel;
    assert Holder(s.disk, s.workers[w]);
  }

  /** From agreement, a step leaves agreement if and only if it leaves no document behind. */
  lemma AgreementStep(p: Plan, mode: Mode, s: State, l: Label)
    requires Inv(p, s) && OpeningIsFirst(p, mode, s) && CursorsAgree(s.disk)
    ensures CursorsAgree(NextTurn(p, s, l).disk) <==> !LeavesBehind(s, l)
  {
    hide LedgersLevel, Turn, Knows, GoStep, MayResume, Logical, CheckpointCursor, Rows;
    if Commits(s, l) {
      CommitCursors(p, s, l);
    } else {
      OthersKeepTheLedgers(p, s, l);
      SameLedgerCursors(s.disk, NextTurn(p, s, l).disk);
      if Moves(s, l) {
        var w := s.workers[l.w];
        WorkersOutside(p, s, l.w);
        QuietCursors(p, s.disk, w);
        CreatedDocuments(p, mode);
        if w.stage == HoldFence(ToReport) && !Fenced(s.disk, w.generation) { ReporterKnows(p, s, l.w); }
      }
    }
  }

  lemma SameLedgerCursors(d: Disk, d': Disk)
    requires SameLedgers(d, d')
    ensures Rows(d) == Rows(d') && Logical(d) == Logical(d') && CheckpointCursor(d) == CheckpointCursor(d')
  {
  }

  ghost predicate AlwaysAgree(p: Plan, mode: Mode, ls: seq<Label>) {
    forall k | 0 <= k <= |ls| :: CursorsAgree(Course(p, mode, ls[..k]).disk)
  }

  ghost predicate NeverLeftBehind(p: Plan, mode: Mode, ls: seq<Label>) {
    forall k | 0 <= k < |ls| :: !LeavesBehind(Course(p, mode, ls[..k]), ls[k])
  }

  /** The five cursors agree in every state along a schedule if and only if no step of it writes
      back a status or a report that a commit has overtaken, or holds within a commit. */
  lemma CursorsAgreeIff(p: Plan, mode: Mode, ls: seq<Label>)
    requires AllExclusive(p, mode, ls)
    ensures AlwaysAgree(p, mode, ls) <==> NeverLeftBehind(p, mode, ls)
  {
    hide AllExclusive, LeavesBehind, CursorsAgree, Inv, OpeningIsFirst, NextTurn;
    forall k | 0 <= k < |ls| && CursorsAgree(Course(p, mode, ls[..k]).disk)
      ensures CursorsAgree(Course(p, mode, ls[..k + 1]).disk)
              <==> !LeavesBehind(Course(p, mode, ls[..k]), ls[k])
    {
      ExclusivePrefix(p, mode, ls, k);
      CourseInv(p, mode, ls[..k]);
      OpeningFirst(p, mode, ls[..k]);
      AgreementStep(p, mode, Course(p, mode, ls[..k]), ls[k]);
      assert ls[..k + 1][..k] == ls[..k];
    }
    if NeverLeftBehind(p, mode, ls) {
      forall k | 0 <= k <= |ls| ensures CursorsAgree(Course(p, mode, ls[..k]).disk) {
        AgreesSoFar(p, mode, ls, k);
      }
    } else {
      var k :| 0 <= k < |ls| && LeavesBehind(Course(p, mode, ls[..k]), ls[k]);
      assert !CursorsAgree(Course(p, mode, ls[..k]).disk) || !CursorsAgree(Course(p, mode, ls[..k + 1]).disk);
    }
  }

  lemma {:induction false} AgreesSoFar(p: Plan, mode: Mode, ls: seq<Label>, k: nat)
    requires k <= |ls|
    requires forall i | 0 <= i < |ls| && CursorsAgree(Course(p, mode, ls[..i]).disk) ::
      CursorsAgree(Course(p, mode, ls[..i + 1]).disk)
    ensures CursorsAgree(Course(p, mode, ls[..k]).disk)
    decreases k
  {
    hide CursorsAgree, NextTurn;
    if k > 0 {
      AgreesSoFar(p, mode, ls, k - 1);
    } else {
      CreatedDocuments(p, mode);
    }
  }

  // ---------------------------------------------------------- never ahead

  predicate WorkerNotAhead(d: Disk, w: Worker) {
    && (HeldStatus(w.stage).Some? ==> HeldStatus(w.stage).value.cursor <= |Rows(d)|)
    && (w.stage.MarkReportWrite? ==> w.stage.report.cursor <= |Rows(d)|)
  }

  ghost predicate NotAhead(s: State) {
    && StatusCursor(s.disk) <= |Rows(s.disk)| && ReportCursor(s.disk) <= |Rows(s.disk)|
    && forall w | w in s.workers :: WorkerNotAhead(s.disk, s.workers[w])
  }

  /** What a worker carries it has carried before or has just read. */
  lemma HeldTurn(p: Plan, d: Disk, w: Worker)
    requires !Inside(w.stage)
    ensures
      var stage := Turn(p, d, w).worker.stage;
      && (HeldStatus(stage).Some? ==>
            HeldStatus(stage).value.cursor
            == (if HeldStatus(w.stage).Some? then HeldStatus(w.stage).value.cursor else StatusCursor(d)))
      && (stage.MarkReportWrite? ==> stage.report.cursor == ReportCursor(d))
  {
    hide Turn, Section, GoStep, Committed;
    if w.stage.BeatRead? {
      BeatTurn(p, d, w);
    } else if w.stage.AtCommit? && Sectioned(d, w) {
      CommitTurn(p, d, w);
    } else if Sectioned(d, w) {
      ReportTurn(p, d, w);
    } else {
      PlainTurn(p, d, w);
      HeldStep(p, d, w);
    }
  }

  lemma HeldStep(p: Plan, d: Disk, w: Worker)
    requires !Inside(w.stage) && !Sectioned(d, w)
    ensures
      var stage := GoStep(p, d, w).worker.stage;
      && (HeldStatus(stage).Some? ==>
            HeldStatus(stage).value.cursor
            == (if HeldStatus(w.stage).Some? then HeldStatus(w.stage).value.cursor else StatusCursor(d)))
      && (stage.MarkReportWrite? ==> stage.report.cursor == ReportCursor(d))
  {
    hide Extend, LedgerSound, InterruptDue, OpeningStatus, FinalState, WriteAt, Fenced;
  }

  lemma NotAheadStep(p: Plan, s: State, l: Label)
    requires Inv(p, s) && NotAhead(s)
    ensures NotAhead(NextTurn(p, s, l))
  {
    hide LedgersLevel, Turn, Knows, GoStep, MayResume, Rows, Logical;
    var s' := NextTurn(p, s, l);
    if Moves(s, l) {
      var w := s.workers[l.w];
      WorkersOutside(p, s, l.w);
      HeldTurn(p, s.disk, w);
      if Commits(s, l) {
        CommitCursors(p, s, l);
      } else {
        OthersKeepTheLedgers(p, s, l);
        SameLedgerCursors(s.disk, s'.disk);
        QuietCursors(p, s.disk, w);
        if w.stage == HoldFence(ToReport) && !Fenced(s.disk, w.generation) { ReporterKnows(p, s, l.w); }
      }
    }
  }

  lemma {:induction false} CourseNotAhead(p: Plan, mode: Mode, ls: seq<Label>)
    requires AllExclusive(p, mode, ls)
    ensures NotAhead(Course(p, mode, ls))
    decreases |ls|
  {
    hide NotAhead, Inv, NextTurn, AllExclusive;
    if |ls| == 0 {
      CreatedNotAhead(p, mode);
    } else {
      ExclusivePrefix(p, mode, ls, |ls| - 1);
      CourseNotAhead(p, mode, ls[..|ls| - 1]);
      CourseInv(p, mode, ls[..|ls| - 1]);
      NotAheadStep(p, Course(p, mode, ls[..|ls| - 1]), ls[|ls| - 1]);
    }
  }

  lemma CreatedNotAhead(p: Plan, mode: Mode)
    ensures NotAhead(Workers.Created(p, mode))
  {
    CreatedDocuments(p, mode);
  }

  /** Nothing is torn: outcomes, attempts and checkpoint stand at one key in every state, and
      report and status at that key or an earlier one. */
  lemma NothingIsTorn(p: Plan, mode: Mode, ls: seq<Label>)
    requires AllExclusive(p, mode, ls)
    ensures
      var d := Course(p, mode, ls).disk;
      && |Logical(d)| == CheckpointCursor(d) == |Rows(d)| <= |p.keys|
      && Durable(d) == MemoryAt(p, |Rows(d)|, {})
      && StatusCursor(d) <= |Rows(d)| && ReportCursor(d) <= |Rows(d)|
  {
    hide Course, AllExclusive, Knows;
    CourseInv(p, mode, ls);
    CourseNotAhead(p, mode, ls);
    LevelCursors(p, Course(p, mode, ls).disk);
  }
}
