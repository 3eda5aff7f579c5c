/** Any number of workers on one run directory, one step per file read or write. Workers
    of different processes overlap freely, and each may die between any two steps. */
module Workers {
  import opened Options
  import opened Ledger
  import opened Sessions
  import opened CrashResume

  /** Where a worker stands. A stage that carries a document carries what it has read. */
  datatype Stage =
    | Opening                          // run: about to write the first running status
    | Claiming                         // resume: about to read the lease
    | ClaimWrite(generation: nat)
    | LoadOutcomes
    | LoadAttempts
    | AtKey                            // loop head: fence, then process the next key
    | AtCommit                         // fence of the commit
    | Writing(next: nat)               // the five writes of the commit
    | HoldRead(rounds: nat, goal: Goal)   // barrier: the status is read and written back twice
    | HoldWrite(rounds: nat, goal: Goal, status: StatusDoc)
    | HoldFence(goal: Goal)               // the fence after a barrier
    | BeatRead                         // heartbeat: read the lease, then write it back
    | BeatWrite(lease: Lease)
    | MarkLease                        // interrupt marker
    | MarkLeaseWrite(lease: Lease)
    | MarkRead
    | MarkReport(status: StatusDoc)
    | MarkReportWrite(status: StatusDoc, report: ReportDoc)
    | MarkStatus(status: StatusDoc)
    | FinalStatus                      // end of a run: terminal status if not there yet
    | FinalReport(status: StatusDoc)
    | FinalWrite(status: StatusDoc)
    | BlockWrite(status: StatusDoc)    // drifted resume: about to mark the run blocked
    | Stopped

  /** What follows a barrier: the key is processed, its commit begins, or its report is written. */
  datatype Goal = ToProcess | ToCommit | ToReport

  /** Where a run worker holds: before a key, before its commit, or between the checkpoint and
      the report of the commit. */
  datatype Barrier = NoBarrier | BeforeKey | BeforeCommit | BeforeReport

  datatype Mode = Mode(interrupt: Option<int>, barrier: Barrier)

  const PLAIN := Mode(None, NoBarrier)

  datatype Worker = Worker(
    isRun: bool, generation: nat, memory: Memory, mode: Mode, stage: Stage)

  datatype State = State(disk: Disk, workers: map<nat, Worker>)

  datatype Label = Go(w: nat) | Crash(w: nat) | Resume(w: nat) | Drift(w: nat)

  datatype Effect = Effect(disk: Disk, worker: Worker)

  function FinalState(rows: seq<Row>): RunState {
    if CountOf(rows, Retryable) > 0 then Blocked else Completed
  }

  predicate InterruptDue(w: Worker) {
    w.isRun && w.mode.interrupt.Some? && |w.memory.rows| > 0 && |w.memory.rows| >= w.mode.interrupt.value
  }

  /** After a heartbeat: the interrupt point, or the next key. */
  function AfterBeat(w: Worker): Worker {
    w.(stage := if InterruptDue(w) then MarkLease else AtKey)
  }

  function At(w: Worker, stage: Stage): Worker {
    w.(stage := stage)
  }

  /** The next key is processed in memory. */
  function Processed(p: Plan, w: Worker): Worker
    requires |w.memory.rows| < |p.keys|
  {
    w.(memory := Extend(p, w.memory),
       stage := if w.mode.barrier == BeforeCommit then HoldRead(2, ToCommit) else AtCommit)
  }

  /** The report of a split commit is built from an empty list of logical attempts. */
  function SplitReport(p: Plan, m: Memory): ReportDoc {
    ReportOf(p, 1 + |m.rows|, m).(logicalCount := 0)
  }

  /** The k-th write of the worker's commit. */
  function WriteAt(p: Plan, w: Worker, k: nat): Write
    requires k < COMMIT_WRITES
  {
    if k == 3 && w.mode.barrier == BeforeReport then PutReport(SplitReport(p, w.memory))
    else CommitWrites(p, 1 + |w.memory.rows|, w.memory)[k]
  }

  function GoHold(p: Plan, d: Disk, w: Worker): Effect
    requires w.stage.HoldRead? || w.stage.HoldWrite? || w.stage.HoldFence?
  {
    match w.stage
    case HoldRead(n, goal) =>
      if n == 0 then Effect(d, At(w, HoldFence(goal)))
      else if d.status.None? then Effect(d, At(w, HoldRead(n - 1, goal)))
      else Effect(d, At(w, HoldWrite(n, goal, d.status.value)))
    case HoldWrite(n, goal, s) =>
      Effect(Apply(d, PutStatus(s)), At(w, HoldRead(if n == 0 then 0 else n - 1, goal)))
    case HoldFence(goal) =>
      if Fenced(d, w.generation) || (goal.ToProcess? && |w.memory.rows| >= |p.keys|)
      then Effect(d, At(w, Stopped))
      else match goal
        case ToProcess => Effect(d, Processed(p, w))
        case ToCommit => Effect(d, At(w, AtCommit))
        case ToReport => Effect(d, At(w, Writing(3)))
  }

  function GoLoop(p: Plan, d: Disk, w: Worker): Effect
    requires w.stage in {AtKey, AtCommit, BeatRead} || w.stage.Writing? || w.stage.BeatWrite?
  {
    match w.stage
    case AtKey =>
      if |w.memory.rows| >= |p.keys| then
        Effect(d, At(w, if w.isRun then FinalStatus else Stopped))
      else if Fenced(d, w.generation) then Effect(d, At(w, Stopped))
      else if w.mode.barrier == BeforeKey then Effect(d, At(w, HoldRead(2, ToProcess)))
      else Effect(d, Processed(p, w))
    case AtCommit =>
      Effect(d, At(w, if Fenced(d, w.generation) then Stopped else Writing(0)))
    case Writing(k) =>
      if k >= COMMIT_WRITES then Effect(d, At(w, Stopped))
      else
        Effect(Apply(d, WriteAt(p, w, k)),
               At(w, if k + 1 == COMMIT_WRITES then BeatRead
                     else if k == 2 && w.mode.barrier == BeforeReport then HoldRead(2, ToReport)
                     else Writing(k + 1)))
    case BeatRead =>
      if d.lease.Some? && d.lease.value.generation == w.generation
      then Effect(d, At(w, BeatWrite(d.lease.value)))
      else Effect(d, AfterBeat(w))
    case BeatWrite(l) => Effect(Apply(d, PutLease(l)), AfterBeat(w))
  }

  function GoMark(d: Disk, w: Worker): Effect
    requires w.stage in {MarkLease, MarkRead} || w.stage.MarkLeaseWrite? || w.stage.MarkReport?
      || w.stage.MarkReportWrite? || w.stage.MarkStatus?
  {
    match w.stage
    case MarkLease =>
      Effect(d, At(w, if d.lease.Some? then MarkLeaseWrite(d.lease.value) else MarkRead))
    case MarkLeaseWrite(l) => Effect(Apply(d, PutLease(l.(interrupted := true))), At(w, MarkRead))
    case MarkRead =>
      Effect(d, At(w, if d.status.Some? then MarkReport(d.status.value) else Stopped))
    case MarkReport(s) =>
      Effect(d, At(w, if d.report.Some? then MarkReportWrite(s, d.report.value) else MarkStatus(s)))
    case MarkReportWrite(s, r) => Effect(Apply(d, PutReport(InterruptReport(r))), At(w, MarkStatus(s)))
    case MarkStatus(s) => Effect(Apply(d, PutStatus(InterruptStatus(s))), At(w, Stopped))
  }

  function GoFinal(p: Plan, d: Disk, w: Worker): Effect
    requires w.stage.FinalStatus? || w.stage.FinalReport? || w.stage.FinalWrite?
  {
    match w.stage
    case FinalStatus =>
      if LedgerSound(p, w.memory.rows) && d.status.Some?
         && d.status.value.state != FinalState(w.memory.rows)
      then Effect(d, At(w, FinalReport(d.status.value)))
      else Effect(d, At(w, Stopped))
    case FinalReport(s) =>
      if d.report.None? then Effect(d, At(w, Stopped))
      else
        Effect(d, At(w, FinalWrite(s.(
          state := FinalState(w.memory.rows), completion := Some(d.report.value.completion)))))
    case FinalWrite(s) => Effect(Apply(d, PutStatus(s)), At(w, Stopped))
  }

  /** One step of one worker. */
  function GoStep(p: Plan, d: Disk, w: Worker): Effect {
    match w.stage
    case Opening => Effect(Apply(d, PutStatus(OpeningStatus(p, Running, 1))), At(w, BeatRead))
    case Claiming =>
      Effect(d, At(w, ClaimWrite((if d.lease.Some? then d.lease.value.generation else 1) + 1)))
    case ClaimWrite(g) =>
      Effect(Apply(d, PutLease(Lease(g, false))), w.(generation := g, stage := LoadOutcomes))
    case LoadOutcomes => Effect(d, w.(memory := Memory(Rows(d), [], []), stage := LoadAttempts))
    case LoadAttempts =>
      Effect(d, w.(memory := Memory(w.memory.rows, Logical(d), Physical(d)), stage := AtKey))
    case AtKey => GoLoop(p, d, w)
    case AtCommit => GoLoop(p, d, w)
    case Writing(_) => GoLoop(p, d, w)
    case HoldRead(_, _) => GoHold(p, d, w)
    case HoldWrite(_, _, _) => GoHold(p, d, w)
    case HoldFence(_) => GoHold(p, d, w)
    case BeatRead => GoLoop(p, d, w)
    case BeatWrite(_) => GoLoop(p, d, w)
    case MarkLease => GoMark(d, w)
    case MarkLeaseWrite(_) => GoMark(d, w)
    case MarkRead => GoMark(d, w)
    case MarkReport(_) => GoMark(d, w)
    case MarkReportWrite(_, _) => GoMark(d, w)
    case MarkStatus(_) => GoMark(d, w)
    case FinalStatus => GoFinal(p, d, w)
    case FinalReport(_) => GoFinal(p, d, w)
    case FinalWrite(_) => GoFinal(p, d, w)
    case BlockWrite(s) => Effect(Apply(d, PutStatus(BlockStatus(s))), At(w, Stopped))
    case Stopped => Effect(d, w)
  }

  function RunWorker(mode: Mode): Worker {
    Worker(true, 1, EMPTY_MEMORY, mode, Opening)
  }

  function ResumeWorker(stage: Stage): Worker {
    Worker(false, 0, EMPTY_MEMORY, PLAIN, stage)
  }

  predicate MayResume(p: Plan, d: Disk) {
    && d.status.Some? && d.status.value.state in {Running, Interrupted}
    && d.preflight == Some(p.fingerprints)
  }

  function Next(p: Plan, s: State, l: Label): State {
    match l
    case Go(w) =>
      if w !in s.workers then s
      else
        var e := GoStep(p, s.disk, s.workers[w]);
        State(e.disk, s.workers[w := e.worker])
    case Crash(w) =>
      if w !in s.workers then s else s.(workers := s.workers[w := At(s.workers[w], Stopped)])
    case Resume(w) =>
      if w in s.workers || !MayResume(p, s.disk) then s
      else s.(workers := s.workers[w := ResumeWorker(Claiming)])
    case Drift(w) =>
      if w in s.workers || s.disk.status.None? then s
      else if s.disk.status.value.state !in {Running, Interrupted} then s
      else s.(workers := s.workers[w := ResumeWorker(BlockWrite(s.disk.status.value))])
  }

  /** A created directory with its run worker. */
  function Created(p: Plan, mode: Mode): State {
    State(ApplyAll(EMPTY_DISK, CreateWrites(p)), map[0 := RunWorker(mode)])
  }

  function Trace(p: Plan, mode: Mode, ls: seq<Label>): State {
    if |ls| == 0 then Created(p, mode)
    else Next(p, Trace(p, mode, ls[..|ls| - 1]), ls[|ls| - 1])
  }

  // ------------------------------------------------------ what is always true

  /** Every attempt row is the deterministic one of its index. */
  ghost predicate Genuine(p: Plan, attempts: seq<Attempt>) {
    forall a | a in attempts :: a.index < |p.keys| && a == AttemptAt(p, a.index)
  }

  ghost predicate MemorySafe(p: Plan, m: Memory) {
    && |m.rows| <= |p.keys| && m.rows == LedgerRows(p, |m.rows|)
    && Genuine(p, m.logical) && m.physical == Sources(m.logical)
  }

  ghost predicate OutcomesSafe(p: Plan, o: OutcomesDoc) {
    1 <= |o.rows| <= |p.keys| && o.rows == LedgerRows(p, |o.rows|) && o.revision == 1 + |o.rows|
  }

  ghost predicate CheckpointSafe(p: Plan, c: CheckpointDoc) {
    1 <= c.cursor <= |p.keys| && c == CheckpointOf(p, 1 + c.cursor, LedgerRows(p, c.cursor))
  }

  ghost predicate AttemptsSafe(p: Plan, a: AttemptsDoc) {
    Genuine(p, a.logical) && a.physical == Sources(a.logical) && 2 <= a.revision <= 1 + |p.keys|
  }

  ghost predicate ReportSafe(p: Plan, r: ReportDoc) {
    1 <= r.cursor <= |p.keys| &&
    var base := ReportOf(p, 1 + r.cursor, Memory(LedgerRows(p, r.cursor), [], []));
    Core(r) == base || Core(r) == InterruptReport(base)
  }

  /** The status of some commit, or an opening one, whatever its label. */
  ghost predicate StatusSafe(p: Plan, s: StatusDoc) {
    s.cursor <= |p.keys| &&
    var base := StatusOf(p, 1 + s.cursor, LedgerRows(p, s.cursor));
    s.(state := base.state, completion := base.completion)
    in {base, base.(revision := 0, cursor := 0, counts := Tally([]))}
  }

  ghost predicate DiskSafe(p: Plan, d: Disk) {
    && (d.outcomes.Some? ==> OutcomesSafe(p, d.outcomes.value))
    && (d.attempts.Some? ==> AttemptsSafe(p, d.attempts.value))
    && (d.checkpoint.Some? ==> CheckpointSafe(p, d.checkpoint.value))
    && (d.report.Some? ==> ReportSafe(p, d.report.value))
    && (d.status.Some? ==> StatusSafe(p, d.status.value))
  }

  ghost predicate WorkerSafe(p: Plan, w: Worker) {
    && MemorySafe(p, w.memory)
    && (w.stage.AtCommit? || w.stage.Writing? ==> |w.memory.rows| > 0)
    && ((w.stage.HoldRead? || w.stage.HoldWrite? || w.stage.HoldFence?) && !w.stage.goal.ToProcess?
        ==> |w.memory.rows| > 0)
    && (w.stage.MarkReport? || w.stage.MarkReportWrite? || w.stage.MarkStatus?
        || w.stage.FinalReport? || w.stage.FinalWrite? || w.stage.BlockWrite? || w.stage.HoldWrite?
        ==> StatusSafe(p, w.stage.status))
    && (w.stage.MarkReportWrite? ==> ReportSafe(p, w.stage.report))
  }

  ghost predicate Safe(p: Plan, s: State) {
    DiskSafe(p, s.disk) && forall w | w in s.workers :: WorkerSafe(p, s.workers[w])
  }

  lemma ExtendSafe(p: Plan, m: Memory)
    requires MemorySafe(p, m) && |m.rows| < |p.keys|
    ensures MemorySafe(p, Extend(p, m)) && |Extend(p, m).rows| == |m.rows| + 1
  {
    LedgerExtends(p, |m.rows|);
    var logical := Extend(p, m).logical;
    assert logical[..|logical| - 1] == m.logical;
  }

  lemma CommitWriteSafe(p: Plan, d: Disk, m: Memory, k: nat)
    requires DiskSafe(p, d) && MemorySafe(p, m) && |m.rows| > 0 && k < COMMIT_WRITES
    ensures DiskSafe(p, Apply(d, CommitWrites(p, 1 + |m.rows|, m)[k]))
  {
    hide StatusOf, CheckpointOf, ReportOf, OutcomesSafe, AttemptsSafe, CheckpointSafe, ReportSafe,
      StatusSafe, MemorySafe;
    LedgersAreSafe(p, m);
    if k == 2 {
      CheckpointOfIsSafe(p, |m.rows|);
    } else if k == 3 {
      ReportOfIsSafe(p, m);
    } else if k == 4 {
      StatusOfIsSafe(p, |m.rows|);
    }
  }

  lemma WriteAtSafe(p: Plan, d: Disk, w: Worker, k: nat)
    requires DiskSafe(p, d) && MemorySafe(p, w.memory) && |w.memory.rows| > 0 && k < COMMIT_WRITES
    ensures DiskSafe(p, Apply(d, WriteAt(p, w, k)))
  {
    hide CommitWrites, MemorySafe, ReportSafe, OutcomesSafe, AttemptsSafe, CheckpointSafe, StatusSafe,
      SplitReport;
    CommitWriteSafe(p, d, w.memory, k);
    SplitReportIsSafe(p, w.memory);
  }

  lemma SplitReportIsSafe(p: Plan, m: Memory)
    requires MemorySafe(p, m) && |m.rows| > 0
    ensures ReportSafe(p, SplitReport(p, m))
  {
    hide Genuine, Sources;
  }

  lemma LedgersAreSafe(p: Plan, m: Memory)
    requires MemorySafe(p, m) && |m.rows| > 0
    ensures OutcomesSafe(p, OutcomesOf(1 + |m.rows|, m)) && AttemptsSafe(p, AttemptsOf(1 + |m.rows|, m))
    ensures |m.rows| <= |p.keys| && m.rows == LedgerRows(p, |m.rows|)
  {
    hide Genuine, Sources;
  }

  lemma CheckpointOfIsSafe(p: Plan, n: nat)
    requires 1 <= n <= |p.keys|
    ensures CheckpointSafe(p, CheckpointOf(p, 1 + n, LedgerRows(p, n)))
  {
  }

  lemma ReportOfIsSafe(p: Plan, m: Memory)
    requires MemorySafe(p, m) && |m.rows| > 0
    ensures ReportSafe(p, ReportOf(p, 1 + |m.rows|, m))
  {
    hide Genuine, Sources;
  }

  lemma StatusOfIsSafe(p: Plan, n: nat)
    requires n <= |p.keys|
    ensures StatusSafe(p, StatusOf(p, 1 + n, LedgerRows(p, n)))
  {
  }

  lemma OpeningIsSafe(p: Plan)
    ensures StatusSafe(p, OpeningStatus(p, RunState.Created, 0))
    ensures StatusSafe(p, OpeningStatus(p, Running, 1))
  {
    assert LedgerRows(p, 0) == [];
  }

  lemma RelabelledSafe(p: Plan, s: StatusDoc, state: RunState, completion: Option<Completion>)
    requires StatusSafe(p, s)
    ensures StatusSafe(p, s.(state := state, completion := completion))
  {
    hide StatusOf;
  }

  lemma InterruptedReportSafe(p: Plan, r: ReportDoc)
    requires ReportSafe(p, r)
    ensures ReportSafe(p, InterruptReport(r))
  {
    hide ReportOf;
  }

  lemma GoLoopSafe(p: Plan, d: Disk, w: Worker)
    requires w.stage in {AtKey, AtCommit, BeatRead} || w.stage.Writing? || w.stage.BeatWrite?
    requires DiskSafe(p, d) && WorkerSafe(p, w)
    ensures DiskSafe(p, GoLoop(p, d, w).disk) && WorkerSafe(p, GoLoop(p, d, w).worker)
  {
    hide StatusSafe, ReportSafe, CheckpointSafe, OutcomesSafe, AttemptsSafe, MemorySafe,
      Extend, WriteAt;
    if w.stage.AtKey? && |w.memory.rows| < |p.keys| { ExtendSafe(p, w.memory); }
    if w.stage.Writing? && w.stage.next < COMMIT_WRITES {
      WriteAtSafe(p, d, w, w.stage.next);
    }
  }

  lemma GoHoldSafe(p: Plan, d: Disk, w: Worker)
    requires w.stage.HoldRead? || w.stage.HoldWrite? || w.stage.HoldFence?
    requires DiskSafe(p, d) && WorkerSafe(p, w)
    ensures DiskSafe(p, GoHold(p, d, w).disk) && WorkerSafe(p, GoHold(p, d, w).worker)
  {
    hide StatusSafe, ReportSafe, CheckpointSafe, OutcomesSafe, AttemptsSafe, MemorySafe, Extend;
    if |w.memory.rows| < |p.keys| { ExtendSafe(p, w.memory); }
  }

  lemma GoMarkSafe(p: Plan, d: Disk, w: Worker)
    requires w.stage in {MarkLease, MarkRead} || w.stage.MarkLeaseWrite? || w.stage.MarkReport?
      || w.stage.MarkReportWrite? || w.stage.MarkStatus?
    requires DiskSafe(p, d) && WorkerSafe(p, w)
    ensures DiskSafe(p, GoMark(d, w).disk) && WorkerSafe(p, GoMark(d, w).worker)
  {
    hide StatusSafe, ReportSafe, CheckpointSafe, OutcomesSafe, AttemptsSafe, MemorySafe;
    if w.stage.MarkReportWrite? { InterruptedReportSafe(p, w.stage.report); }
    if w.stage.MarkStatus? {
      RelabelledSafe(p, w.stage.status, Interrupted, Some(INTERRUPTED_COMPLETION));
    }
  }

  lemma GoFinalSafe(p: Plan, d: Disk, w: Worker)
    requires w.stage.FinalStatus? || w.stage.FinalReport? || w.stage.FinalWrite?
    requires DiskSafe(p, d) && WorkerSafe(p, w)
    ensures DiskSafe(p, GoFinal(p, d, w).disk) && WorkerSafe(p, GoFinal(p, d, w).worker)
  {
    hide StatusSafe, ReportSafe, CheckpointSafe, OutcomesSafe, AttemptsSafe, MemorySafe,
      LedgerSound;
    if w.stage.FinalReport? && d.report.Some? {
      RelabelledSafe(p, w.stage.status, FinalState(w.memory.rows),
                     Some(d.report.value.completion));
    }
  }

  lemma GoSafe(p: Plan, d: Disk, w: Worker)
    requires DiskSafe(p, d) && WorkerSafe(p, w)
    ensures DiskSafe(p, GoStep(p, d, w).disk) && WorkerSafe(p, GoStep(p, d, w).worker)
  {
    hide StatusSafe, ReportSafe, CheckpointSafe, Genuine, OpeningStatus,
      GoLoop, GoMark, GoFinal, GoHold;
    match w.stage
    case Opening => OpeningIsSafe(p);
    case LoadOutcomes => assert LedgerRows(p, 0) == []; NothingIsGenuine(p);
    case LoadAttempts => NothingIsGenuine(p);
    case BlockWrite(s) => RelabelledSafe(p, s, Blocked, s.completion);
    case Claiming =>
    case ClaimWrite(_) =>
    case Stopped =>
    case _ =>
      if w.stage in {AtKey, AtCommit, BeatRead} || w.stage.Writing? || w.stage.BeatWrite? {
        GoLoopSafe(p, d, w);
      } else if w.stage.FinalStatus? || w.stage.FinalReport? || w.stage.FinalWrite? {
        GoFinalSafe(p, d, w);
      } else if w.stage.HoldRead? || w.stage.HoldWrite? || w.stage.HoldFence? {
        GoHoldSafe(p, d, w);
      } else {
        GoMarkSafe(p, d, w);
      }
  }

  lemma NothingIsGenuine(p: Plan)
    ensures Genuine(p, []) && Sources([]) == []
  {
  }

  lemma {:induction false} TraceSafe(p: Plan, mode: Mode, ls: seq<Label>)
    ensures Safe(p, Trace(p, mode, ls))
  {
    hide DiskSafe, WorkerSafe, GoStep;
    if |ls| == 0 {
      CreatedSafe(p, mode);
    } else {
      var s, l := Trace(p, mode, ls[..|ls| - 1]), ls[|ls| - 1];
      TraceSafe(p, mode, ls[..|ls| - 1]);
      match l
      case Go(w) => if w in s.workers { GoSafe(p, s.disk, s.workers[w]); }
      case Crash(w) => if w in s.workers { CrashSafe(p, s.workers[w]); }
      case Resume(_) => NewcomerSafe(p, s.disk);
      case Drift(_) => NewcomerSafe(p, s.disk);
    }
  }

  lemma CreatedSafe(p: Plan, mode: Mode)
    ensures Safe(p, Created(p, mode))
  {
    hide OpeningStatus, StatusSafe;
    CreatePrefix(p, None);
    PutAllIsAPrefix(Io(EMPTY_DISK, None, true), CreateWrites(p));
    OpeningIsSafe(p);
    NothingIsGenuine(p);
    assert LedgerRows(p, 0) == [];
  }

  lemma CrashSafe(p: Plan, w: Worker)
    requires WorkerSafe(p, w)
    ensures WorkerSafe(p, At(w, Stopped))
  {
  }

  lemma NewcomerSafe(p: Plan, d: Disk)
    requires DiskSafe(p, d)
    ensures WorkerSafe(p, ResumeWorker(Claiming))
    ensures d.status.Some? ==> WorkerSafe(p, ResumeWorker(BlockWrite(d.status.value)))
  {
    NothingIsGenuine(p);
    assert LedgerRows(p, 0) == [];
  }

  /** Prefix safety: under every interleaving of single reads and writes by any number of
      live and stale workers, the outcomes file is a prefix of the one deterministic
      ledger, without a duplicate key, under the revision of its length; the checkpoint is
      the one of some commit; and no attempt row is foreign. */
  lemma PrefixSafety(p: Plan, mode: Mode, ls: seq<Label>)
    requires p.Valid()
    ensures
      var d := Trace(p, mode, ls).disk;
      && |Rows(d)| <= |p.keys| && Rows(d) == LedgerRows(p, |Rows(d)|)
      && |KeysOf(Rows(d))| == |Rows(d)|
      && (d.outcomes.Some? ==> d.outcomes.value.revision == 1 + |Rows(d)|)
      && (d.checkpoint.Some? ==> CheckpointSafe(p, d.checkpoint.value))
      && (d.report.Some? ==> ReportSafe(p, d.report.value))
      && (d.status.Some? ==> StatusSafe(p, d.status.value))
      && Genuine(p, Logical(d)) && Physical(d) == Sources(Logical(d))
  {
    hide CheckpointSafe, ReportSafe, StatusSafe;
    TraceSafe(p, mode, ls);
    var d := Trace(p, mode, ls).disk;
    assert LedgerRows(p, 0) == [];
    LedgerConserves(p, |Rows(d)|);
  }

  /** A heartbeat writes back a lease of the worker's own generation, and no other, under every
      interleaving: what it read under another one it leaves alone. */
  lemma {:induction false} HeartbeatIsItsOwn(p: Plan, mode: Mode, ls: seq<Label>, w: nat)
    ensures
      var s := Trace(p, mode, ls);
      w in s.workers && s.workers[w].stage.BeatWrite? ==>
        s.workers[w].stage.lease.generation == s.workers[w].generation
  {
    hide Next;
    if |ls| > 0 {
      HeartbeatIsItsOwn(p, mode, ls[..|ls| - 1], w);
      NextBeat(p, Trace(p, mode, ls[..|ls| - 1]), ls[|ls| - 1], w);
    }
  }

  /** A worker comes to a heartbeat's write only with a lease of its generation. */
  lemma NextBeat(p: Plan, s: State, l: Label, w: nat)
    requires w in s.workers && s.workers[w].stage.BeatWrite? ==>
      s.workers[w].stage.lease.generation == s.workers[w].generation
    ensures
      var s' := Next(p, s, l);
      w in s'.workers && s'.workers[w].stage.BeatWrite? ==>
        s'.workers[w].stage.lease.generation == s'.workers[w].generation
  {
    hide GoHold, GoMark, GoFinal, Extend, OpeningStatus, Apply, WriteAt;
    if l == Go(w) && w in s.workers { StepBeat(p, s.disk, s.workers[w]); }
  }

  lemma StepBeat(p: Plan, d: Disk, w: Worker)
    ensures
      var w' := GoStep(p, d, w).worker;
      w'.stage.BeatWrite? ==> w'.stage.lease.generation == w'.generation && d.lease == Some(w'.stage.lease)
  {
    hide Extend, OpeningStatus, Apply, WriteAt, LedgerSound;
  }
}
