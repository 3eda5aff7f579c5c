/** The fence at work: a fence check and the writes it guards are one step, a heartbeat is one
    step, and every other read or write of a worker is a step of its own. What the lease
    generation then guarantees, and what the writers that look at no generation can still do. */
module Fencing {
  import opened Options
  import opened Ledger
  import opened Sessions
  import opened CrashResume
  import opened Workers
  import opened Lapses
  import S = Schedules

  // ---------------------------------------------- sections that nothing interrupts

  /** In the middle of a commit or of a heartbeat. */
  predicate Inside(stage: Stage) {
    stage.Writing? || stage.BeatWrite?
  }

  function Left(stage: Stage): nat {
    match stage
    case Writing(k) => if k < COMMIT_WRITES then COMMIT_WRITES + 1 - k else 1
    case BeatWrite(_) => 1
    case _ => 0
  }

  lemma InsideGoesOn(p: Plan, e: Effect)
    requires Inside(e.worker.stage)
    ensures Left(GoStep(p, e.disk, e.worker).worker.stage) < Left(e.worker.stage)
  {
    hide WriteAt, InterruptDue;
  }

  /** To the end of the section. */
  function Section(p: Plan, e: Effect): Effect
    decreases Left(e.worker.stage)
  {
    if Inside(e.worker.stage) then
      InsideGoesOn(p, e);
      Section(p, GoStep(p, e.disk, e.worker))
    else e
  }

  lemma SectionStep(p: Plan, e: Effect)
    requires Inside(e.worker.stage)
    ensures Section(p, e) == Section(p, GoStep(p, e.disk, e.worker))
  {
    hide GoStep;
    InsideGoesOn(p, e);
  }

  lemma SectionDone(p: Plan, e: Effect)
    requires !Inside(e.worker.stage)
    ensures Section(p, e) == e
  {
  }

  function Turn(p: Plan, d: Disk, w: Worker): Effect {
    Section(p, GoStep(p, d, w))
  }

  function NextTurn(p: Plan, s: State, l: Label): State {
    if l.Go? && l.w in s.workers then
      var e := Turn(p, s.disk, s.workers[l.w]);
      State(e.disk, s.workers[l.w := e.worker])
    else Workers.Next(p, s, l)
  }

  function Course(p: Plan, mode: Mode, ls: seq<Label>): State {
    if |ls| == 0 then Workers.Created(p, mode)
    else NextTurn(p, Course(p, mode, ls[..|ls| - 1]), ls[|ls| - 1])
  }

  /** A section is a number of single steps of one worker. */
  lemma {:induction false} SectionIsAlone(p: Plan, e: Effect) returns (k: nat)
    ensures Section(p, e) == S.Alone(p, e, k)
    decreases Left(e.worker.stage)
  {
    hide GoStep;
    k := 0;
    if Inside(e.worker.stage) {
      InsideGoesOn(p, e);
      k := SectionIsAlone(p, GoStep(p, e.disk, e.worker));
      k := k + 1;
    }
  }

  /** Every schedule of sections is a schedule of single reads and writes. */
  lemma {:induction false} SectionsAreSchedules(p: Plan, mode: Mode, ls: seq<Label>)
    returns (fine: seq<Label>)
    ensures Course(p, mode, ls) == Workers.Trace(p, mode, fine)
  {
    hide GoStep, Section, S.Alone;
    fine := [];
    if |ls| > 0 {
      var s, l := Course(p, mode, ls[..|ls| - 1]), ls[|ls| - 1];
      fine := SectionsAreSchedules(p, mode, ls[..|ls| - 1]);
      if Moves(s, l) {
        var e := Effect(s.disk, s.workers[l.w]);
        var k := SectionIsAlone(p, GoStep(p, e.disk, e.worker));
        FirstOfMany(p, e, k);
        S.TraceTurns(p, mode, fine, l.w, k + 1);
        fine := fine + S.Turns(l.w, k + 1);
      } else {
        S.TraceAdds(p, mode, fine, l);
        fine := fine + [l];
      }
    }
  }

  lemma FirstOfMany(p: Plan, e: Effect, k: nat)
    ensures S.Alone(p, e, k + 1) == S.Alone(p, GoStep(p, e.disk, e.worker), k)
  {
    hide GoStep;
  }

  lemma CourseSafe(p: Plan, mode: Mode, ls: seq<Label>)
    ensures Safe(p, Course(p, mode, ls))
  {
    hide Safe;
    var fine := SectionsAreSchedules(p, mode, ls);
    Workers.TraceSafe(p, mode, fine);
  }

  // --------------------------------------------------------------- invariants

  function Durable(d: Disk): Memory {
    Memory(Rows(d), Logical(d), Physical(d))
  }

  /** Outcomes, attempts and checkpoint are those of one commit, and nothing is torn. */
  ghost predicate LedgersLevel(p: Plan, d: Disk) {
    var n := |Rows(d)|;
    && n <= |p.keys| && d.lease.Some?
    && d.outcomes == (if n == 0 then None else Some(OutcomesOf(1 + n, MemoryAt(p, n, {}))))
    && d.attempts == (if n == 0 then None else Some(AttemptsOf(1 + n, MemoryAt(p, n, {}))))
    && d.checkpoint == (if n == 0 then None else Some(CheckpointOf(p, 1 + n, LedgerRows(p, n))))
  }

  lemma DurableMemory(p: Plan, d: Disk)
    requires LedgersLevel(p, d)
    ensures Durable(d) == MemoryAt(p, |Rows(d)|, {})
  {
    hide CheckpointOf;
    if |Rows(d)| == 0 { NothingYet(p); }
  }

  /** The worker may still reach a commit. */
  predicate CanCommit(stage: Stage) {
    stage in {Opening, LoadOutcomes, LoadAttempts, AtKey, AtCommit, BeatRead}
    || Inside(stage) || stage.HoldRead? || stage.HoldWrite? || stage.HoldFence?
  }

  /** What such a worker knows when it holds the lease. */
  ghost predicate Knows(p: Plan, d: Disk, w: Worker) {
    match w.stage
    case LoadOutcomes => true
    case LoadAttempts => w.memory == Memory(Rows(d), [], [])
    case AtCommit => Prepared(p, d, w)
    case HoldRead(_, goal) => if goal.ToCommit? then Prepared(p, d, w) else w.memory == Durable(d)
    case HoldWrite(_, goal, _) => if goal.ToCommit? then Prepared(p, d, w) else w.memory == Durable(d)
    case HoldFence(goal) => if goal.ToCommit? then Prepared(p, d, w) else w.memory == Durable(d)
    case _ => w.memory == Durable(d)
  }

  ghost predicate Prepared(p: Plan, d: Disk, w: Worker) {
    |Rows(d)| < |p.keys| && w.memory == Extend(p, Durable(d))
  }

  predicate Holder(d: Disk, w: Worker) {
    CanCommit(w.stage) && !Fenced(d, w.generation)
  }

  ghost predicate WorkerFits(p: Plan, d: Disk, w: Worker) {
    !Inside(w.stage) && (Holder(d, w) ==> Knows(p, d, w))
  }

  ghost predicate Inv(p: Plan, s: State) {
    && LedgersLevel(p, s.disk)
    && (forall w | w in s.workers :: WorkerFits(p, s.disk, s.workers[w]))
    && (forall v, w | v in s.workers && w in s.workers && v != w ::
          !(Holder(s.disk, s.workers[v]) && Holder(s.disk, s.workers[w])))
  }

  // --------------------------------------------------------- what a turn does

  /** A commit that the fence lets through. */
  predicate Commits(s: State, l: Label) {
    Moves(s, l) && s.workers[l.w].stage.AtCommit? && !Fenced(s.disk, s.workers[l.w].generation)
  }

  lemma CommittedNext(p: Plan, d: Disk, m: Memory, k: nat)
    requires k < COMMIT_WRITES
    ensures Apply(Committed(p, d, 1 + |m.rows|, m, k), CommitWrites(p, 1 + |m.rows|, m)[k])
            == Committed(p, d, 1 + |m.rows|, m, k + 1)
  {
    hide StatusOf, CheckpointOf, ReportOf, OutcomesOf, AttemptsOf;
  }

  predicate Splits(w: Worker) {
    w.mode.barrier == BeforeReport
  }

  /** How many writes the section after the commit's fence makes. */
  function CommitLength(w: Worker): nat {
    if Splits(w) then 3 else COMMIT_WRITES
  }

  /** The section after the commit's fence: all five writes, or the three before a barrier. */
  lemma {:induction false} CommitSection(p: Plan, d: Disk, w: Worker, k: nat)
    requires k < CommitLength(w)
    ensures
      Section(p, Effect(Committed(p, d, 1 + |w.memory.rows|, w.memory, k), At(w, Writing(k))))
      == Effect(Committed(p, d, 1 + |w.memory.rows|, w.memory, CommitLength(w)),
                At(w, if Splits(w) then HoldRead(2, ToReport) else BeatRead))
    decreases CommitLength(w) - k
  {
    hide GoStep, Committed, CommitWrites;
    var before := Effect(Committed(p, d, 1 + |w.memory.rows|, w.memory, k), At(w, Writing(k)));
    InsideGoesOn(p, before);
    WriteStep(p, before.disk, before.worker, k);
    CommittedNext(p, d, w.memory, k);
    if k + 1 < CommitLength(w) { CommitSection(p, d, w, k + 1); }
  }

  lemma WriteStep(p: Plan, d: Disk, w: Worker, k: nat)
    requires w.stage == Writing(k) && k < CommitLength(w)
    ensures GoStep(p, d, w)
            == Effect(Apply(d, CommitWrites(p, 1 + |w.memory.rows|, w.memory)[k]),
                      At(w, if k + 1 < CommitLength(w) then Writing(k + 1)
                            else if Splits(w) then HoldRead(2, ToReport) else BeatRead))
  {
    hide CommitWrites, GoHold, GoMark, GoFinal, OpeningStatus;
  }

  lemma ReportStep(p: Plan, d: Disk, w: Worker)
    requires w.stage == Writing(3) || w.stage == Writing(4)
    ensures GoStep(p, d, w)
            == Effect(Apply(d, WriteAt(p, w, w.stage.next)),
                      At(w, if w.stage == Writing(3) then Writing(4) else BeatRead))
  {
    hide WriteAt, GoHold, GoMark, GoFinal, OpeningStatus;
  }

  /** What the section after the fence behind that barrier leaves: report and status. */
  function Reported(p: Plan, d: Disk, w: Worker): Disk {
    d.(report := Some(if Splits(w) then SplitReport(p, w.memory) else ReportOf(p, 1 + |w.memory.rows|, w.memory)),
       status := Some(StatusOf(p, 1 + |w.memory.rows|, w.memory.rows)))
  }

  lemma ReportSection(p: Plan, d: Disk, w: Worker)
    requires w.stage == Writing(3)
    ensures Section(p, Effect(d, w)) == Effect(Reported(p, d, w), At(w, BeatRead))
  {
    hide GoStep, WriteAt, Reported, Section;
    var e1 := Effect(Apply(d, WriteAt(p, w, 3)), At(w, Writing(4)));
    ReportStep(p, d, w);
    SectionStep(p, Effect(d, w));
    ReportStep(p, e1.disk, e1.worker);
    SectionStep(p, e1);
    BothReported(p, d, w);
    SectionDone(p, Effect(Reported(p, d, w), At(w, BeatRead)));
  }

  lemma BothReported(p: Plan, d: Disk, w: Worker)
    requires w.stage == Writing(3)
    ensures Apply(Apply(d, WriteAt(p, w, 3)), WriteAt(p, At(w, Writing(4)), 4)) == Reported(p, d, w)
  {
    hide ReportOf, StatusOf, CheckpointOf, SplitReport;
  }

  /** The holder's commit. */
  lemma CommitTurn(p: Plan, d: Disk, w: Worker)
    requires w.stage == AtCommit && !Fenced(d, w.generation)
    ensures Turn(p, d, w)
            == Effect(Committed(p, d, 1 + |w.memory.rows|, w.memory, CommitLength(w)),
                      At(w, if Splits(w) then HoldRead(2, ToReport) else BeatRead))
  {
    hide Section, Committed;
    CommitSection(p, d, w, 0);
    NothingCommitted(p, d, w.memory);
  }

  lemma NothingCommitted(p: Plan, d: Disk, m: Memory)
    ensures Committed(p, d, 1 + |m.rows|, m, 0) == d
  {
  }

  /** The holder's commit moves the three ledgers one key on. */
  lemma CommitAdvances(p: Plan, d: Disk, w: Worker)
    requires LedgersLevel(p, d) && Prepared(p, d, w)
    ensures
      var n := |Rows(d)|;
      var d' := Committed(p, d, 1 + |w.memory.rows|, w.memory, CommitLength(w));
      && w.memory == MemoryAt(p, n + 1, {}) && |w.memory.rows| == n + 1
      && LedgersLevel(p, d') && Durable(d') == w.memory && d'.lease == d.lease
      && d'.report == (if Splits(w) then d.report else Some(ReportOf(p, 2 + n, w.memory)))
      && d'.status == (if Splits(w) then d.status else Some(StatusOf(p, 2 + n, w.memory.rows)))
  {
    hide Kept, ReportOf, StatusOf, CheckpointOf;
    DurableMemory(p, d);
    ExtendKeeps(p, |Rows(d)|, {});
  }

  /** The ledgers and the lease of two directories are the same. */
  predicate SameLedgers(d: Disk, d': Disk) {
    && d'.outcomes == d.outcomes && d'.attempts == d.attempts && d'.checkpoint == d.checkpoint
  }

  /** The generation a turn writes into the lease, other than a heartbeat's own. */
  function Writes(w: Worker): Option<nat> {
    match w.stage
    case MarkLeaseWrite(l) => Some(l.generation)
    case ClaimWrite(g) => Some(g)
    case _ => None
  }

  /** A heartbeat leaves the directory as it is. */
  lemma BeatTurn(p: Plan, d: Disk, w: Worker)
    requires w.stage == BeatRead
    ensures Turn(p, d, w) == Effect(d, AfterBeat(w))
  {
    hide GoHold, GoMark, GoFinal, OpeningStatus, WriteAt, Section;
    var e := GoStep(p, d, w);
    if Inside(e.worker.stage) { SectionStep(p, e); }
    SectionDone(p, Effect(d, AfterBeat(w)));
  }

  /** The second part of a split commit. */
  lemma ReportTurn(p: Plan, d: Disk, w: Worker)
    requires w.stage == HoldFence(ToReport) && !Fenced(d, w.generation)
    ensures Turn(p, d, w) == Effect(Reported(p, d, w), At(w, BeatRead))
  {
    hide Section, Reported, GoLoop, GoMark, GoFinal, OpeningStatus;
    ReportSection(p, d, At(w, Writing(3)));
    SameReported(p, d, w);
  }

  lemma SameReported(p: Plan, d: Disk, w: Worker)
    ensures Reported(p, d, At(w, Writing(3))) == Reported(p, d, w)
  {
    hide ReportOf, StatusOf, SplitReport;
  }

  /** The turns that run through a section. */
  predicate Sectioned(d: Disk, w: Worker) {
    || w.stage.BeatRead?
    || ((w.stage.AtCommit? || w.stage == HoldFence(ToReport)) && !Fenced(d, w.generation))
  }

  /** Every other turn is one read or write. */
  lemma PlainTurn(p: Plan, d: Disk, w: Worker)
    requires !Inside(w.stage) && !Sectioned(d, w)
    ensures Turn(p, d, w) == GoStep(p, d, w) && !Inside(GoStep(p, d, w).worker.stage)
  {
    hide WriteAt, OpeningStatus, InterruptDue, Extend, LedgerSound, FinalState;
  }

  /** A turn that is not the holder's commit leaves the ledgers alone. */
  lemma QuietTurn(p: Plan, d: Disk, w: Worker)
    requires !Inside(w.stage) && !(w.stage.AtCommit? && !Fenced(d, w.generation))
    ensures SameLedgers(d, Turn(p, d, w).disk)
    ensures Generation(Turn(p, d, w).disk) == (if Writes(w).Some? then Writes(w).value else Generation(d))
    ensures d.lease.Some? ==> Turn(p, d, w).disk.lease.Some?
    ensures !Inside(Turn(p, d, w).worker.stage)
  {
    hide Section, GoStep, Reported;
    if w.stage.BeatRead? {
      BeatTurn(p, d, w);
      NotInside(w);
    } else if Sectioned(d, w) {
      ReportTurn(p, d, w);
      ReportedKeeps(p, d, w);
    } else {
      PlainTurn(p, d, w);
      QuietStep(p, d, w);
    }
  }

  lemma NotInside(w: Worker)
    ensures !Inside(AfterBeat(w).stage)
  {
  }

  lemma ReportedKeeps(p: Plan, d: Disk, w: Worker)
    ensures SameLedgers(d, Reported(p, d, w)) && Reported(p, d, w).lease == d.lease
  {
    hide ReportOf, StatusOf, SplitReport;
  }

  lemma QuietStep(p: Plan, d: Disk, w: Worker)
    requires !Inside(w.stage)
    ensures SameLedgers(d, GoStep(p, d, w).disk)
    ensures Generation(GoStep(p, d, w).disk) == (if Writes(w).Some? then Writes(w).value else Generation(d))
    ensures d.lease.Some? ==> GoStep(p, d, w).disk.lease.Some?
  {
    hide WriteAt, OpeningStatus, InterruptDue, Extend, LedgerSound, FinalState, ReportOf;
  }

  // ----------------------------------------------------- what every turn keeps

  /** The lease generation this step writes belongs to no other worker that may still commit. */
  predicate Exclusive(s: State, l: Label) {
    Moves(s, l) && Writes(s.workers[l.w]).Some? ==>
      var g := Writes(s.workers[l.w]).value;
      (s.workers[l.w].stage.ClaimWrite? || g != Generation(s.disk)) ==>
        forall v | v in s.workers && v != l.w && CanCommit(s.workers[v].stage) ::
          s.workers[v].generation != g
  }

  lemma FitsCarries(p: Plan, d: Disk, d': Disk, w: Worker)
    requires SameLedgers(d, d') && WorkerFits(p, d, w)
    requires Holder(d', w) ==> Holder(d, w)
    ensures WorkerFits(p, d', w)
  {
  }

  lemma StepFits(p: Plan, d: Disk, w: Worker)
    requires LedgersLevel(p, d) && WorkerFits(p, d, w) && Writes(w).None? && !Sectioned(d, w)
    ensures
      var e := GoStep(p, d, w);
      Holder(e.disk, e.worker) ==> Holder(d, w) && Knows(p, d, e.worker)
  {
    hide Extend, LedgerSound, InterruptDue, OpeningStatus, OutcomesOf, AttemptsOf, CheckpointOf,
      MemoryAt, FinalState, WriteAt, InterruptReport, InterruptStatus, BlockStatus;
  }

  /** The worker itself, after a turn that is no commit and leaves the generation alone. */
  lemma TurnFits(p: Plan, d: Disk, w: Worker)
    requires LedgersLevel(p, d) && WorkerFits(p, d, w) && Writes(w).None?
    requires !(w.stage.AtCommit? && !Fenced(d, w.generation))
    ensures
      var e := Turn(p, d, w);
      WorkerFits(p, e.disk, e.worker) && (Holder(e.disk, e.worker) ==> Holder(d, w))
  {
    hide Section, GoStep, LedgersLevel, Reported;
    QuietTurn(p, d, w);
    var e := Turn(p, d, w);
    if w.stage.BeatRead? {
      BeatTurn(p, d, w);
    } else if Sectioned(d, w) {
      ReportTurn(p, d, w);
    } else {
      PlainTurn(p, d, w);
      StepFits(p, d, w);
    }
    SameKnowledge(p, d, e.disk, e.worker);
  }

  lemma SameKnowledge(p: Plan, d: Disk, d': Disk, w: Worker)
    requires SameLedgers(d, d')
    ensures Knows(p, d, w) <==> Knows(p, d', w)
  {
  }

  lemma CommitInv(p: Plan, s: State, l: Label)
    requires Inv(p, s) && Commits(s, l)
    ensures Inv(p, NextTurn(p, s, l))
  {
    hide Section, GoStep, LedgersLevel, Committed, Turn;
    var d, w := s.disk, s.workers[l.w];
    CommitTurn(p, d, w);
    CommitAdvances(p, d, w);
    var s' := NextTurn(p, s, l);
    forall v | v in s'.workers ensures WorkerFits(p, s'.disk, s'.workers[v]) {
      if v != l.w { assert !Holder(s'.disk, s'.workers[v]); }
    }
  }

  lemma QuietInv(p: Plan, s: State, l: Label)
    requires Inv(p, s) && Moves(s, l) && !Commits(s, l) && Writes(s.workers[l.w]).None?
    ensures Inv(p, NextTurn(p, s, l))
  {
    hide Section, GoStep, LedgersLevel, Turn, Knows;
    var d, w := s.disk, s.workers[l.w];
    assert WorkerFits(p, d, w);
    QuietTurn(p, d, w);
    TurnFits(p, d, w);
    var s' := NextTurn(p, s, l);
    LevelHasLease(p, d);
    LevelCarries(p, d, s'.disk);
    forall v | v in s'.workers
      ensures WorkerFits(p, s'.disk, s'.workers[v])
      ensures Holder(s'.disk, s'.workers[v]) ==> Holder(d, s.workers[v])
    {
      if v != l.w { FitsCarries(p, d, s'.disk, s.workers[v]); }
    }
  }

  lemma LevelHasLease(p: Plan, d: Disk)
    requires LedgersLevel(p, d)
    ensures d.lease.Some?
  {
  }

  lemma LevelCarries(p: Plan, d: Disk, d': Disk)
    requires LedgersLevel(p, d) && SameLedgers(d, d') && d'.lease.Some?
    ensures LedgersLevel(p, d')
  {
  }

  /** What the two writers of another generation leave. */
  lemma LeaseTurn(p: Plan, d: Disk, w: Worker)
    requires Writes(w).Some?
    ensures
      var e := Turn(p, d, w);
      && SameLedgers(d, e.disk) && e.disk.lease.Some? && Generation(e.disk) == Writes(w).value
      && e.worker == (if w.stage.ClaimWrite? then w.(generation := w.stage.generation, stage := LoadOutcomes)
                      else At(w, MarkRead))
  {
    hide Section, GoLoop, GoHold, GoFinal, OpeningStatus;
    SectionDone(p, GoStep(p, d, w));
  }

  lemma LeaseInv(p: Plan, s: State, l: Label)
    requires Inv(p, s) && Moves(s, l) && Writes(s.workers[l.w]).Some? && Exclusive(s, l)
    ensures Inv(p, NextTurn(p, s, l))
  {
    hide Section, GoStep, LedgersLevel, Turn, Durable, Extend;
    var d, w := s.disk, s.workers[l.w];
    LeaseTurn(p, d, w);
    var s' := NextTurn(p, s, l);
    LevelCarries(p, d, s'.disk);
    forall v | v in s'.workers
      ensures WorkerFits(p, s'.disk, s'.workers[v])
      ensures Holder(s'.disk, s'.workers[v]) && v != l.w ==>
        !w.stage.ClaimWrite? && Holder(d, s.workers[v])
    {
      if v != l.w { FitsCarries(p, d, s'.disk, s.workers[v]); }
    }
  }

  lemma NextInv(p: Plan, s: State, l: Label)
    requires Inv(p, s) && Exclusive(s, l)
    ensures Inv(p, NextTurn(p, s, l))
  {
    hide LedgersLevel, NextTurn, Knows, Exclusive;
    if Moves(s, l) {
      if Commits(s, l) {
        CommitInv(p, s, l);
      } else if Writes(s.workers[l.w]).None? {
        QuietInv(p, s, l);
      } else {
        LeaseInv(p, s, l);
      }
    } else {
      StillInv(p, s, l);
    }
  }

  /** A crash stops a worker; a newcomer stands before its claim or its block. */
  lemma StillInv(p: Plan, s: State, l: Label)
    requires Inv(p, s) && !Moves(s, l)
    ensures Inv(p, NextTurn(p, s, l)) && NextTurn(p, s, l).disk == s.disk
  {
    hide LedgersLevel, Knows, MayResume, GoStep;
  }

  lemma CreatedInv(p: Plan, mode: Mode)
    ensures Inv(p, Workers.Created(p, mode))
  {
    hide OpeningStatus;
    CreatePrefix(p, None);
    PutAllIsAPrefix(Io(EMPTY_DISK, None, true), CreateWrites(p));
  }

  // --------------------------------------------------------- the resume lock

  predicate LockFree(s: State) {
    forall w | w in s.workers && w != 0 :: s.workers[w].stage.Stopped?
  }

  /** A resume call holds the resume lock from before it reads the status until it ends or its
      process dies; the run call, worker 0, never takes it. */
  ghost predicate Locked(p: Plan, mode: Mode, ls: seq<Label>) {
    forall k | 0 <= k < |ls| && (ls[k].Resume? || ls[k].Drift?) :: LockFree(Course(p, mode, ls[..k]))
  }

  /** Every lease written along the schedule is exclusive. */
  ghost predicate AllExclusive(p: Plan, mode: Mode, ls: seq<Label>) {
    forall k | 0 <= k < |ls| :: Exclusive(Course(p, mode, ls[..k]), ls[k])
  }

  predicate BeforeTheMark(stage: Stage) {
    CanCommit(stage) || stage.MarkLease? || stage.MarkLeaseWrite?
  }

  predicate ResumeStage(stage: Stage) {
    stage in {Claiming, LoadOutcomes, LoadAttempts, AtKey, AtCommit, BeatRead, Stopped}
    || stage.ClaimWrite? || stage.BlockWrite?
  }

  predicate RunStage(stage: Stage) {
    stage !in {Claiming, LoadOutcomes, LoadAttempts} && !stage.ClaimWrite? && !stage.BlockWrite?
  }

  predicate RunFits(d: Disk, w: Worker) {
    && w.isRun && w.generation == 1 && RunStage(w.stage)
    && (w.stage.MarkLeaseWrite? ==> 1 <= w.stage.lease.generation <= Generation(d))
  }

  predicate ResumeFits(d: Disk, w: Worker, first: Worker) {
    && !w.isRun && w.mode == PLAIN && ResumeStage(w.stage)
    && (w.stage.ClaimWrite? ==> w.stage.generation > Generation(d))
    && (CanCommit(w.stage) && BeforeTheMark(first.stage) ==> w.generation == Generation(d))
  }

  /** What holds while one resume call at a time is at work. */
  ghost predicate LockInv(s: State) {
    && Generation(s.disk) >= 1 && 0 in s.workers && RunFits(s.disk, s.workers[0])
    && (forall w | w in s.workers && w != 0 :: ResumeFits(s.disk, s.workers[w], s.workers[0]))
    && (forall v, w | v in s.workers && w in s.workers && v != 0 && w != 0 && v != w ::
          s.workers[v].stage.Stopped? || s.workers[w].stage.Stopped?)
  }

  lemma RunTurn(p: Plan, d: Disk, w: Worker)
    requires RunFits(d, w) && !Inside(w.stage) && d.lease.Some? && Generation(d) >= 1
    ensures
      var e := Turn(p, d, w);
      && e.worker.isRun && e.worker.generation == 1 && RunStage(e.worker.stage)
      && (BeforeTheMark(e.worker.stage) ==> BeforeTheMark(w.stage) && Writes(w).None?)
      && (e.worker.stage.MarkLeaseWrite? ==> e.worker.stage.lease.generation == Generation(d))
  {
    hide Section, Turn, GoStep;
    if w.stage.BeatRead? {
      BeatTurn(p, d, w);
    } else if w.stage.AtCommit? && Sectioned(d, w) {
      CommitTurn(p, d, w);
    } else if Sectioned(d, w) {
      ReportTurn(p, d, w);
    } else {
      PlainTurn(p, d, w);
      RunStep(p, d, w);
    }
  }

  lemma RunStep(p: Plan, d: Disk, w: Worker)
    requires RunFits(d, w) && !Inside(w.stage) && !Sectioned(d, w)
    ensures
      var e := GoStep(p, d, w);
      && e.worker.isRun && e.worker.generation == 1 && RunStage(e.worker.stage)
      && (BeforeTheMark(e.worker.stage) ==> BeforeTheMark(w.stage) && Writes(w).None?)
      && (e.worker.stage.MarkLeaseWrite? ==> e.worker.stage.lease.generation == Generation(d))
  {
    hide Extend, LedgerSound, InterruptDue, OpeningStatus, FinalState, WriteAt, InterruptReport,
      InterruptStatus, BlockStatus;
  }

  lemma ResumeTurn(p: Plan, d: Disk, w: Worker, first: Worker)
    requires ResumeFits(d, w, first) && !Inside(w.stage) && d.lease.Some?
    ensures
      var e := Turn(p, d, w);
      && !e.worker.isRun && e.worker.mode == PLAIN && ResumeStage(e.worker.stage)
      && (e.worker.stage.ClaimWrite? ==>
            w.stage.Claiming? && e.worker.stage.generation == Generation(d) + 1)
      && (CanCommit(e.worker.stage) ==>
            if w.stage.ClaimWrite? then e.worker.generation == w.stage.generation
            else CanCommit(w.stage) && e.worker.generation == w.generation)
      && (w.stage.Stopped? ==> e.worker.stage.Stopped?)
      && !w.stage.MarkLeaseWrite?
  {
    hide Section, Turn, GoStep;
    if w.stage.BeatRead? {
      BeatTurn(p, d, w);
    } else if w.stage.AtCommit? && Sectioned(d, w) {
      CommitTurn(p, d, w);
    } else {
      PlainTurn(p, d, w);
      ResumeStep(p, d, w);
    }
  }

  lemma ResumeStep(p: Plan, d: Disk, w: Worker)
    requires !w.isRun && w.mode == PLAIN && ResumeStage(w.stage) && d.lease.Some? && !Sectioned(d, w)
    ensures
      var e := GoStep(p, d, w);
      && !e.worker.isRun && e.worker.mode == PLAIN && ResumeStage(e.worker.stage)
      && (e.worker.stage.ClaimWrite? ==>
            w.stage.Claiming? && e.worker.stage.generation == Generation(d) + 1)
      && (CanCommit(e.worker.stage) ==>
            if w.stage.ClaimWrite? then e.worker.generation == w.stage.generation
            else CanCommit(w.stage) && e.worker.generation == w.generation)
      && (w.stage.Stopped? ==> e.worker.stage.Stopped?)
  {
    hide Extend, LedgerSound, OpeningStatus, FinalState, WriteAt, InterruptReport,
      InterruptStatus, BlockStatus;
  }

  /** The generation after a turn. */
  lemma TurnGeneration(p: Plan, d: Disk, w: Worker)
    requires !Inside(w.stage)
    ensures Generation(Turn(p, d, w).disk) == (if Writes(w).Some? then Writes(w).value else Generation(d))
    ensures d.lease.Some? ==> Turn(p, d, w).disk.lease.Some?
  {
    hide Turn, Committed;
    if w.stage.AtCommit? && !Fenced(d, w.generation) {
      CommitTurn(p, d, w);
      CommitKeepsTheLease(p, d, w);
    } else {
      QuietTurn(p, d, w);
    }
  }

  lemma CommitKeepsTheLease(p: Plan, d: Disk, w: Worker)
    ensures Committed(p, d, 1 + |w.memory.rows|, w.memory, CommitLength(w)).lease == d.lease
  {
  }

  lemma LockExclusive(s: State, l: Label)
    requires LockInv(s)
    ensures Exclusive(s, l)
  {
  }

  lemma LockGoes(p: Plan, s: State, l: Label)
    requires LockInv(s) && Moves(s, l) && s.disk.lease.Some? && !Inside(s.workers[l.w].stage)
    ensures LockInv(NextTurn(p, s, l))
  {
    hide Turn;
    var w := s.workers[l.w];
    TurnGeneration(p, s.disk, w);
    if l.w == 0 {
      RunTurn(p, s.disk, w);
    } else {
      ResumeTurn(p, s.disk, w, s.workers[0]);
    }
  }

  lemma LockStays(p: Plan, s: State, l: Label)
    requires LockInv(s) && !Moves(s, l) && (l.Resume? || l.Drift? ==> LockFree(s))
    ensures LockInv(NextTurn(p, s, l))
  {
    hide MayResume, GoStep;
  }

  lemma CreatedLock(p: Plan, mode: Mode)
    ensures LockInv(Workers.Created(p, mode))
  {
    hide OpeningStatus;
    CreatePrefix(p, None);
    PutAllIsAPrefix(Io(EMPTY_DISK, None, true), CreateWrites(p));
  }

  lemma {:induction false} LockedInv(p: Plan, mode: Mode, ls: seq<Label>)
    requires Locked(p, mode, ls)
    ensures LockInv(Course(p, mode, ls)) && Inv(p, Course(p, mode, ls))
    decreases |ls|
  {
    hide LockInv, Inv, LockFree, NextTurn, LedgersLevel;
    if |ls| == 0 {
      CreatedLock(p, mode);
      CreatedInv(p, mode);
    } else {
      var init, l := ls[..|ls| - 1], ls[|ls| - 1];
      LockedPrefix(p, mode, ls, |ls| - 1);
      LockedInv(p, mode, init);
      var s := Course(p, mode, init);
      LockExclusive(s, l);
      NextInv(p, s, l);
      if Moves(s, l) {
        WorkersOutside(p, s, l.w);
        LockGoes(p, s, l);
      } else {
        LockStays(p, s, l);
      }
    }
  }

  lemma WorkersOutside(p: Plan, s: State, w: nat)
    requires Inv(p, s) && w in s.workers
    ensures !Inside(s.workers[w].stage) && s.disk.lease.Some?
  {
    hide Knows;
    LevelHasLease(p, s.disk);
  }

  lemma LockedPrefix(p: Plan, mode: Mode, ls: seq<Label>, n: nat)
    requires Locked(p, mode, ls) && n <= |ls|
    ensures Locked(p, mode, ls[..n])
  {
    hide LockFree, Course;
    forall k | 0 <= k < n && (ls[k].Resume? || ls[k].Drift?) ensures LockFree(Course(p, mode, ls[..n][..k])) {
      assert ls[..n][..k] == ls[..k];
    }
  }

  /** The lock is enough: one resume call at a time writes no lease that is not exclusive. */
  lemma LockedIsExclusive(p: Plan, mode: Mode, ls: seq<Label>)
    requires Locked(p, mode, ls)
    ensures AllExclusive(p, mode, ls)
  {
    hide LockInv, Inv, Exclusive, Course, LockFree;
    forall k | 0 <= k < |ls| ensures Exclusive(Course(p, mode, ls[..k]), ls[k]) {
      LockedPrefix(p, mode, ls, k);
      LockedInv(p, mode, ls[..k]);
      LockExclusive(Course(p, mode, ls[..k]), ls[k]);
    }
  }

  lemma ExclusivePrefix(p: Plan, mode: Mode, ls: seq<Label>, n: nat)
    requires AllExclusive(p, mode, ls) && n <= |ls|
    ensures AllExclusive(p, mode, ls[..n])
  {
    hide Exclusive, Course;
    forall k | 0 <= k < n ensures Exclusive(Course(p, mode, ls[..n][..k]), ls[..n][k]) {
      assert ls[..n][..k] == ls[..k];
    }
  }

  lemma {:induction false} CourseInv(p: Plan, mode: Mode, ls: seq<Label>)
    requires AllExclusive(p, mode, ls)
    ensures Inv(p, Course(p, mode, ls))
    decreases |ls|
  {
    hide Inv, NextTurn, Exclusive;
    if |ls| == 0 {
      CreatedInv(p, mode);
    } else {
      ExclusivePrefix(p, mode, ls, |ls| - 1);
      CourseInv(p, mode, ls[..|ls| - 1]);
      NextInv(p, Course(p, mode, ls[..|ls| - 1]), ls[|ls| - 1]);
    }
  }

  // ------------------------------------------------------------ the theorems

  /** The fencing theorem. The ledgers change only by an accepted commit, that is by a worker
      whose generation is the lease's; its memory is then the durable ledger, one key further,
      and becomes the durable ledger. No other worker could have committed in its place. */
  lemma OnlyTheHolderCommits(p: Plan, mode: Mode, ls: seq<Label>, l: Label)
    requires AllExclusive(p, mode, ls)
    ensures
      var s := Course(p, mode, ls);
      var d, d', n := s.disk, NextTurn(p, s, l).disk, |Rows(s.disk)|;
      && LedgersLevel(p, d) && LedgersLevel(p, d')
      && (if Commits(s, l) then
            && n < |p.keys|
            && Rows(d') == Rows(d) + [RowAt(p, n)]
            && Logical(d') == Logical(d) + [AttemptAt(p, n)]
            && s.workers[l.w].memory == Durable(d')
            && forall v | v in s.workers && v != l.w && CanCommit(s.workers[v].stage) ::
                 Fenced(d, s.workers[v].generation)
          else SameLedgers(d, d'))
  {
    hide Course, NextTurn, LedgersLevel, Knows, Extend;
    var s := Course(p, mode, ls);
    CourseInv(p, mode, ls);
    if Commits(s, l) {
      CommitAdds(p, s, l);
    } else {
      OthersKeepTheLedgers(p, s, l);
    }
  }

  lemma CommitAdds(p: Plan, s: State, l: Label)
    requires Inv(p, s) && Commits(s, l)
    ensures
      var d, d', n := s.disk, NextTurn(p, s, l).disk, |Rows(s.disk)|;
      && n < |p.keys| && LedgersLevel(p, d')
      && Rows(d') == Rows(d) + [RowAt(p, n)] && Logical(d') == Logical(d) + [AttemptAt(p, n)]
      && s.workers[l.w].memory == Durable(d')
  {
    hide LedgersLevel, Committed, Turn, LedgerRows;
    var d, w := s.disk, s.workers[l.w];
    CommitTurn(p, d, w);
    CommitAdvances(p, d, w);
    assert w.memory == Extend(p, Durable(d));
  }

  lemma OthersKeepTheLedgers(p: Plan, s: State, l: Label)
    requires Inv(p, s) && !Commits(s, l)
    ensures SameLedgers(s.disk, NextTurn(p, s, l).disk) && LedgersLevel(p, NextTurn(p, s, l).disk)
  {
    hide LedgersLevel, Turn, Knows, GoStep, MayResume;
    LevelHasLease(p, s.disk);
    if Moves(s, l) {
      QuietTurn(p, s.disk, s.workers[l.w]);
    }
    LevelCarries(p, s.disk, NextTurn(p, s, l).disk);
  }

  /** No step of any worker, reclaimed or not, takes a row or an attempt away. */
  lemma {:induction false} LedgerNeverRegresses(p: Plan, mode: Mode, ls: seq<Label>, i: nat, j: nat)
    requires AllExclusive(p, mode, ls) && i <= j <= |ls|
    ensures Rows(Course(p, mode, ls[..i]).disk) <= Rows(Course(p, mode, ls[..j]).disk)
    ensures Logical(Course(p, mode, ls[..i]).disk) <= Logical(Course(p, mode, ls[..j]).disk)
    decreases j
  {
    hide AllExclusive, Commits, NextTurn, LedgersLevel;
    if i < j {
      LedgerNeverRegresses(p, mode, ls, i, j - 1);
      ExclusivePrefix(p, mode, ls, j - 1);
      OnlyTheHolderCommits(p, mode, ls[..j - 1], ls[j - 1]);
      assert ls[..j][..j - 1] == ls[..j - 1];
    }
  }

  /** One resume call at a time: a turn raises the generation if and only if it is a claim, and
      lowers it if and only if it is the run worker's marker writing back a lease that it read
      before a claim. */
  lemma OnlyTheMarkerHandsBack(p: Plan, mode: Mode, ls: seq<Label>, l: Label)
    requires Locked(p, mode, ls)
    ensures
      var s := Course(p, mode, ls);
      var before, after := Generation(s.disk), Generation(NextTurn(p, s, l).disk);
      && (after > before <==> Moves(s, l) && l.w != 0 && s.workers[l.w].stage.ClaimWrite?)
      && (after < before <==>
            Moves(s, l) && l.w == 0 && s.workers[0].stage.MarkLeaseWrite?
            && s.workers[0].stage.lease.generation < before)
  {
    hide Course, Turn, Inv, GoStep, MayResume;
    var s := Course(p, mode, ls);
    LockedInv(p, mode, ls);
    if Moves(s, l) {
      WorkersOutside(p, s, l.w);
      TurnGeneration(p, s.disk, s.workers[l.w]);
    }
  }

  /** Lease, report and status as a worker without the lease leaves them. */
  function Unguarded(p: Plan, d: Disk, w: Worker): Disk {
    match w.stage
    case ClaimWrite(g) => d.(lease := Some(Lease(g, false)))
    case MarkLeaseWrite(l) => d.(lease := Some(l.(interrupted := true)))
    case MarkReportWrite(_, r) => d.(report := Some(InterruptReport(r)))
    case MarkStatus(s) => d.(status := Some(InterruptStatus(s)))
    case HoldWrite(_, _, s) => d.(status := Some(s))
    case FinalWrite(s) => d.(status := Some(s))
    case BlockWrite(s) => d.(status := Some(BlockStatus(s)))
    case Opening => d.(status := Some(OpeningStatus(p, Running, 1)))
    case _ => d
  }

  /** What a worker that does not hold the lease can still do: write back what it has read. No
      commit, no second part of a commit and no heartbeat of it reaches the directory. */
  lemma StaleWorkersOnlyWriteBack(p: Plan, mode: Mode, ls: seq<Label>, l: Label)
    requires AllExclusive(p, mode, ls) && Moves(Course(p, mode, ls), l)
    requires
      var s := Course(p, mode, ls);
      Fenced(s.disk, s.workers[l.w].generation)
    ensures
      var s := Course(p, mode, ls);
      var d := NextTurn(p, s, l).disk;
      d == Unguarded(p, s.disk, s.workers[l.w]) && SameLedgers(s.disk, d)
  {
    hide Course, Turn, Inv, AllExclusive, GoStep;
    var s := Course(p, mode, ls);
    CourseInv(p, mode, ls);
    WorkersOutside(p, s, l.w);
    var w := s.workers[l.w];
    if w.stage.BeatRead? {
      BeatTurn(p, s.disk, w);
    } else {
      PlainTurn(p, s.disk, w);
      StaleStep(p, s.disk, w);
    }
  }

  lemma StaleStep(p: Plan, d: Disk, w: Worker)
    requires Fenced(d, w.generation) && !Inside(w.stage)
    ensures GoStep(p, d, w).disk == Unguarded(p, d, w)
  {
    hide Extend, LedgerSound, InterruptDue, OpeningStatus, FinalState, WriteAt, InterruptReport,
      InterruptStatus, BlockStatus;
  }

  // ------------------------------------------------- without any discipline

  lemma {:induction false} SectionEnds(p: Plan, e: Effect)
    ensures !Inside(Section(p, e).worker.stage)
    decreases Left(e.worker.stage)
  {
    hide GoStep;
    if Inside(e.worker.stage) {
      InsideGoesOn(p, e);
      SectionEnds(p, GoStep(p, e.disk, e.worker));
    }
  }

  lemma {:induction false} NobodyInside(p: Plan, mode: Mode, ls: seq<Label>)
    ensures forall w | w in Course(p, mode, ls).workers :: !Inside(Course(p, mode, ls).workers[w].stage)
    decreases |ls|
  {
    hide Section, GoStep, MayResume;
    if |ls| > 0 {
      var s, l := Course(p, mode, ls[..|ls| - 1]), ls[|ls| - 1];
      NobodyInside(p, mode, ls[..|ls| - 1]);
      if Moves(s, l) { SectionEnds(p, GoStep(p, s.disk, s.workers[l.w])); }
    }
  }

  lemma RowsAfterTurn(p: Plan, s: State, l: Label)
    requires Moves(s, l) ==> !Inside(s.workers[l.w].stage)
    ensures Rows(NextTurn(p, s, l).disk) == (if Commits(s, l) then s.workers[l.w].memory.rows else Rows(s.disk))
  {
    hide Turn, GoStep, MayResume;
    if Moves(s, l) {
      if Commits(s, l) {
        CommitTurn(p, s.disk, s.workers[l.w]);
      } else {
        QuietTurn(p, s.disk, s.workers[l.w]);
      }
    }
  }

  /** In any schedule at all, locked or not, a turn takes rows away if and only if the fence lets
      a commit through whose worker holds fewer rows than there are. */
  lemma RowsLostByCommitsExactly(p: Plan, mode: Mode, ls: seq<Label>, l: Label)
    ensures
      var s := Course(p, mode, ls);
      !(Rows(s.disk) <= Rows(NextTurn(p, s, l).disk)) <==>
        Commits(s, l) && |s.workers[l.w].memory.rows| < |Rows(s.disk)|
  {
    hide Course, NextTurn, Commits, OutcomesOf;
    var s := Course(p, mode, ls);
    CourseSafe(p, mode, ls);
    NobodyInside(p, mode, ls);
    NoRowsYet(p);
    RowsAfterTurn(p, s, l);
    if Commits(s, l) {
      CommitMoves(s, l);
      SafeMemoryRows(p, s.workers[l.w]);
      LedgersCompare(p, Rows(s.disk), s.workers[l.w].memory.rows);
    }
  }

  lemma CommitMoves(s: State, l: Label)
    requires Commits(s, l)
    ensures Moves(s, l)
  {
  }
}
