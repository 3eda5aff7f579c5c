/** Particular schedules of the workers. A worker that is scheduled alone does exactly what
    the session functions say, a resume that is let through heals whatever an interleaving
    left behind, and three schedules of one run worker and one resume worker show what the
    fence does not prevent when checks and writes are separate steps. */
module Schedules {
  import opened Options
  import opened Ledger
  import opened Sessions
  import opened CrashResume
  import opened Workers

  // ----------------------------------------------------- one worker, k steps

  function Alone(p: Plan, e: Effect, k: nat): Effect
    decreases k
  {
    if k == 0 then e else Alone(p, GoStep(p, e.disk, e.worker), k - 1)
  }

  lemma {:induction false} AloneAdds(p: Plan, e: Effect, j: nat, k: nat)
    ensures Alone(p, e, j + k) == Alone(p, Alone(p, e, j), k)
    decreases j
  {
    hide GoStep;
    if j > 0 {
      AloneAdds(p, GoStep(p, e.disk, e.worker), j - 1, k);
      assert j + k - 1 == (j - 1) + k;
    }
  }

  lemma AloneNext(p: Plan, e: Effect, k: nat)
    ensures Alone(p, e, k + 1) == GoStep(p, Alone(p, e, k).disk, Alone(p, e, k).worker)
  {
    AloneAdds(p, e, k, 1);
  }

  /** The first j writes of a commit. */
  lemma {:induction false} WritesAlone(p: Plan, d: Disk, w: Worker, j: nat)
    requires w.stage == Writing(0) && j <= COMMIT_WRITES && w.mode.barrier == NoBarrier
    ensures
      Alone(p, Effect(d, w), j)
      == Effect(Committed(p, d, 1 + |w.memory.rows|, w.memory, j),
                At(w, if j == COMMIT_WRITES then BeatRead else Writing(j)))
  {
    hide OutcomesOf, AttemptsOf, CheckpointOf, ReportOf, StatusOf, GoMark, GoFinal, GoHold,
      OpeningStatus;
    if j > 0 {
      WritesAlone(p, d, w, j - 1);
      AloneNext(p, Effect(d, w), j - 1);
    }
  }

  predicate Holds(d: Disk, w: Worker) {
    d.lease.Some? && d.lease.value.generation == w.generation
  }

  const KEY_STEPS: nat := 9   // fence, fence, five writes, heartbeat read and write

  /** One key by a worker that holds the lease. */
  lemma KeyAlone(p: Plan, d: Disk, w: Worker)
    requires w.stage == AtKey && |w.memory.rows| < |p.keys| && Holds(d, w)
    requires w.mode.barrier == NoBarrier
    ensures
      var w' := w.(memory := Extend(p, w.memory));
      Alone(p, Effect(d, w), KEY_STEPS)
      == Effect(Committed(p, d, 1 + |w'.memory.rows|, w'.memory, 5), AfterBeat(w'))
  {
    hide Extend, Committed, GoStep;
    var w1 := w.(memory := Extend(p, w.memory));
    var e0 := Effect(d, w);
    BothFences(p, d, w);
    WritesAlone(p, d, At(w1, Writing(0)), 5);
    AloneAdds(p, e0, 2, 5);
    var d2 := Committed(p, d, 1 + |w1.memory.rows|, w1.memory, 5);
    CommitKeepsLease(p, d, w1.memory);
    BeatAlone(p, d2, At(w1, BeatRead));
    AloneAdds(p, e0, 7, 2);
  }

  lemma BothFences(p: Plan, d: Disk, w: Worker)
    requires w.stage == AtKey && |w.memory.rows| < |p.keys| && Holds(d, w)
    requires w.mode.barrier == NoBarrier
    ensures Alone(p, Effect(d, w), 2)
            == Effect(d, w.(memory := Extend(p, w.memory), stage := Writing(0)))
  {
    hide Extend, GoHold, GoMark, GoFinal, OpeningStatus;
    AloneNext(p, Effect(d, w), 0);
    AloneNext(p, Effect(d, w), 1);
  }

  lemma BeatAlone(p: Plan, d: Disk, w: Worker)
    requires w.stage == BeatRead && Holds(d, w)
    ensures Alone(p, Effect(d, w), 2) == Effect(d, AfterBeat(w))
  {
    hide GoHold, GoMark, GoFinal, OpeningStatus;
    AloneNext(p, Effect(d, w), 0);
    assert Alone(p, Effect(d, w), 1) == Effect(d, At(w, BeatWrite(d.lease.value)));
    AloneNext(p, Effect(d, w), 1);
    assert Apply(d, PutLease(d.lease.value)) == d;
  }

  lemma CommitKeepsLease(p: Plan, d: Disk, m: Memory)
    ensures Committed(p, d, 1 + |m.rows|, m, 5).lease == d.lease
    ensures Committed(p, d, 1 + |m.rows|, m, 5).report.Some?
    ensures Committed(p, d, 1 + |m.rows|, m, 5).status.Some?
  {
  }

  const MARK_STEPS: nat := 6

  lemma MarkAlone(p: Plan, d: Disk, w: Worker)
    requires w.stage == MarkLease && d.lease.Some? && d.report.Some? && d.status.Some?
    ensures Alone(p, Effect(d, w), MARK_STEPS)
            == Effect(ApplyAll(d, InterruptWrites(d)), At(w, Stopped))
  {
    hide GoStep, InterruptWrites, ApplyAll;
    var e := Effect(d, w);
    var d1 := d.(lease := Some(d.lease.value.(interrupted := true)));
    MarkLeaseAlone(p, d, w);
    MarkDocumentsAlone(p, d1, At(w, MarkRead));
    AloneAdds(p, e, 2, 4);
    MarkerDisk(d);
  }

  lemma MarkLeaseAlone(p: Plan, d: Disk, w: Worker)
    requires w.stage == MarkLease && d.lease.Some?
    ensures Alone(p, Effect(d, w), 2)
            == Effect(d.(lease := Some(d.lease.value.(interrupted := true))), At(w, MarkRead))
  {
    hide GoLoop, GoFinal, GoHold, OpeningStatus;
    AloneNext(p, Effect(d, w), 0);
    AloneNext(p, Effect(d, w), 1);
  }

  lemma MarkDocumentsAlone(p: Plan, d: Disk, w: Worker)
    requires w.stage == MarkRead && d.report.Some? && d.status.Some?
    ensures Alone(p, Effect(d, w), 4)
            == Effect(d.(report := Some(InterruptReport(d.report.value)),
                         status := Some(InterruptStatus(d.status.value))), At(w, Stopped))
  {
    hide GoStep, Alone;
    var e := Effect(d, w);
    AloneNone(p, e);
    AloneNext(p, e, 0);
    MarkStep(p, d, w);
    AloneNext(p, e, 1);
    MarkStep(p, d, At(w, MarkReport(d.status.value)));
    AloneNext(p, e, 2);
    MarkStep(p, d, At(w, MarkReportWrite(d.status.value, d.report.value)));
    AloneNext(p, e, 3);
    MarkStep(p, d.(report := Some(InterruptReport(d.report.value))), At(w, MarkStatus(d.status.value)));
  }

  lemma AloneNone(p: Plan, e: Effect)
    ensures Alone(p, e, 0) == e
  {
  }

  lemma MarkStep(p: Plan, d: Disk, w: Worker)
    requires w.stage == MarkRead || w.stage.MarkReport? || w.stage.MarkReportWrite? || w.stage.MarkStatus?
    ensures GoStep(p, d, w) == GoMark(d, w)
  {
    hide GoMark, GoLoop, GoFinal, GoHold, OpeningStatus;
  }

  /** The key loop of a worker that runs alone is the loop of the sessions. */
  lemma {:induction false} LoopAlone(p: Plan, d: Disk, w: Worker) returns (k: nat)
    requires w.stage == AtKey && Holds(d, w) && (w.isRun || w.mode.interrupt.None?)
    requires w.mode.barrier == NoBarrier
    ensures
      var s := Drive(p, Io(d, None, true), w.memory, w.generation, w.mode.interrupt);
      var e := Alone(p, Effect(d, w), k);
      && e.disk == s.io.disk && s.end in {Finished, InterruptedEnd}
      && e.worker == w.(memory := s.memory,
                        stage := if s.end == InterruptedEnd then Stopped else AtKey)
      && (w.mode.interrupt.None? ==> s.end == Finished)
      && (s.end == Finished ==> |s.memory.rows| >= |p.keys| && Holds(s.io.disk, w))
    decreases |p.keys| - |w.memory.rows|
  {
    hide Committed, CommitWrites, InterruptWrites, PutAll, ApplyAll, GoStep, Extend;
    k := 0;
    if |w.memory.rows| < |p.keys| {
      var m' := Extend(p, w.memory);
      var w' := w.(memory := m');
      var n := |w.memory.rows|;
      assert |m'.rows| == n + 1 by { ExtendGrows(p, w.memory); }
      KeyAlone(p, d, w);
      var io := Io(d, None, true);
      var d' := Committed(p, d, 2 + n, m', 5);
      PutAllIsAPrefix(io, CommitWrites(p, 2 + n, m'));
      CommitPrefix(p, d, 2 + n, m', 5);
      WholeCommit(p, 2 + n, m');
      CommitKeepsLease(p, d, m');
      DriveStep(p, io, w.memory, w.generation, w.mode.interrupt);
      k := KEY_STEPS;
      if InterruptDue(w') {
        MarkAlone(p, d', AfterBeat(w'));
        PutAllIsAPrefix(Io(d', None, true), InterruptWrites(d'));
        AloneAdds(p, Effect(d, w), k, MARK_STEPS);
        k := k + MARK_STEPS;
      } else {
        var k' := LoopAlone(p, d', w');
        AloneAdds(p, Effect(d, w), k, k');
        k := k + k';
      }
    }
  }

  lemma ExtendGrows(p: Plan, m: Memory)
    requires |m.rows| < |p.keys|
    ensures |Extend(p, m).rows| == |m.rows| + 1
  {
  }

  lemma WholeCommit(p: Plan, revision: nat, m: Memory)
    ensures CommitWrites(p, revision, m)[..5] == CommitWrites(p, revision, m)
  {
  }

  /** A resume worker scheduled alone is one resume call. */
  lemma ResumeAlone(p: Plan, d: Disk) returns (k: nat)
    requires MayResume(p, d)
    ensures
      var e := Alone(p, Effect(d, ResumeWorker(Claiming)), k);
      e.disk == Sessions.Resume(p, d, false, None).io.disk && e.worker.stage == Stopped
  {
    hide Drive, GoLoop;
    var e := Effect(d, ResumeWorker(Claiming));
    var g := (if d.lease.Some? then d.lease.value.generation else 1) + 1;
    var d1 := d.(lease := Some(Lease(g, false)));
    var w := Worker(false, g, Memory(Rows(d1), Logical(d1), Physical(d1)), PLAIN, AtKey);
    AloneNext(p, e, 0);
    AloneNext(p, e, 1);
    AloneNext(p, e, 2);
    AloneNext(p, e, 3);
    assert Alone(p, e, 4) == Effect(d1, w);
    var k' := LoopAlone(p, d1, w);
    AloneAdds(p, e, 4, k');
    k := 4 + k';
    AloneNext(p, e, k);
    LoopExit(p, Alone(p, e, k));
    k := k + 1;
  }

  lemma LoopExit(p: Plan, e: Effect)
    requires e.worker.stage == AtKey && |e.worker.memory.rows| >= |p.keys| && !e.worker.isRun
    ensures GoStep(p, e.disk, e.worker) == Effect(e.disk, At(e.worker, Stopped))
  {
  }

  // -------------------------------------------------- a whole run, and its barriers

  /** The end of a run, scheduled alone, is the finalization. */
  lemma FinalAlone(p: Plan, d: Disk, w: Worker)
    requires w.stage == FinalStatus
    ensures Alone(p, Effect(d, w), 3)
            == Effect(Finalize(p, Io(d, None, true), w.memory).io.disk, At(w, Stopped))
  {
    hide LedgerSound, GoStep, GoFinal, Alone, CountOf, Finalize;
    var e := Effect(d, w);
    AloneNone(p, e);
    AloneNext(p, e, 0);
    AloneNext(p, e, 1);
    AloneNext(p, e, 2);
    var e1 := FinalOr(p, e);
    var e2 := FinalOr(p, e1);
    FinalStep(p, d, w);
    FinalStep(p, e1.disk, e1.worker);
    FinalStep(p, e2.disk, e2.worker);
    ThreeFinalSteps(p, d, w);
    FinalizeStepwise(p, d, w);
  }

  /** A step of the finalization, or nothing once the worker has stopped. */
  function FinalOr(p: Plan, e: Effect): Effect
    requires e.worker.stage == Stopped || e.worker.stage.FinalStatus? || e.worker.stage.FinalReport?
      || e.worker.stage.FinalWrite?
    ensures
      var stage := FinalOr(p, e).worker.stage;
      stage == Stopped || stage.FinalReport? || stage.FinalWrite?
  {
    if e.worker.stage == Stopped then e else GoFinal(p, e.disk, e.worker)
  }

  lemma ThreeFinalSteps(p: Plan, d: Disk, w: Worker)
    requires w.stage == FinalStatus
    ensures FinalOr(p, FinalOr(p, FinalOr(p, Effect(d, w))))
            == Effect(if LedgerSound(p, w.memory.rows) && d.status.Some? && d.report.Some?
                         && d.status.value.state != FinalState(w.memory.rows)
                      then d.(status := Some(d.status.value.(state := FinalState(w.memory.rows),
                                                             completion := Some(d.report.value.completion))))
                      else d, At(w, Stopped))
  {
    hide LedgerSound, FinalState;
  }

  lemma FinalStep(p: Plan, d: Disk, w: Worker)
    requires w.stage == Stopped || w.stage.FinalStatus? || w.stage.FinalReport? || w.stage.FinalWrite?
    ensures GoStep(p, d, w) == FinalOr(p, Effect(d, w))
  {
    hide GoFinal, GoLoop, GoMark, GoHold, OpeningStatus;
  }

  /** Finalization, by the documents it finds. */
  lemma FinalizeStepwise(p: Plan, d: Disk, w: Worker)
    ensures Finalize(p, Io(d, None, true), w.memory).io.disk
            == (if LedgerSound(p, w.memory.rows) && d.status.Some? && d.report.Some?
                   && d.status.value.state != FinalState(w.memory.rows)
                then d.(status := Some(d.status.value.(state := FinalState(w.memory.rows),
                                                       completion := Some(d.report.value.completion))))
                else d)
  {
    hide LedgerSound, CountOf;
  }

  /** A run worker scheduled alone executes the created directory as the session does. */
  lemma RunAlone(p: Plan, mode: Mode) returns (k: nat)
    requires mode.barrier == NoBarrier
    ensures
      var d := Workers.Created(p, mode).disk;
      var e := Alone(p, Effect(d, RunWorker(mode)), k);
      e.disk == Execute(p, Io(d, None, true), mode.interrupt).io.disk && e.worker.stage == Stopped
  {
    hide Drive, GoStep, OpeningStatus, Finalize, Alone;
    var d := Workers.Created(p, mode).disk;
    var e := Effect(d, RunWorker(mode));
    var w := Worker(true, 1, EMPTY_MEMORY, mode, AtKey);
    FirstSteps(p, mode);
    k := LoopAlone(p, Started(p), w);
    var s := Drive(p, Io(Started(p), None, true), EMPTY_MEMORY, 1, mode.interrupt);
    AloneAdds(p, e, 3, k);
    k := 3 + k;
    StartedOpened(p, mode);
    if s.end == Finished {
      AloneNext(p, e, k);
      LoopDone(p, Alone(p, e, k));
      FinalAlone(p, s.io.disk, w.(memory := s.memory, stage := FinalStatus));
      AloneAdds(p, e, k + 1, 3);
      k := k + 1 + 3;
    }
    DriveUnlimited(p, Io(Started(p), None, true), EMPTY_MEMORY, 1, mode.interrupt);
  }

  /** A process that never dies goes on not dying. */
  lemma {:induction false} DriveUnlimited(p: Plan, io: Io, m: Memory, generation: nat, interrupt: Option<int>)
    requires io.alive && io.fuse.None?
    ensures
      var s := Drive(p, io, m, generation, interrupt);
      s.io.alive && s.io.fuse.None?
    decreases |p.keys| - |m.rows|
  {
    hide PutAll, CommitWrites, Extend, InterruptWrites;
    if |m.rows| < |p.keys| && !Fenced(io.disk, generation) {
      var m' := Extend(p, m);
      ExtendGrows(p, m);
      PutAllIsAPrefix(io, CommitWrites(p, 2 + |m.rows|, m'));
      DriveStep(p, io, m, generation, interrupt);
      var io' := PutAll(io, CommitWrites(p, 2 + |m.rows|, m'));
      if interrupt.Some? && |m.rows| + 1 >= interrupt.value {
        PutAllIsAPrefix(io', InterruptWrites(io'.disk));
      } else {
        DriveUnlimited(p, io', m', generation, interrupt);
      }
    }
  }

  lemma LoopDone(p: Plan, e: Effect)
    requires e.worker.stage == AtKey && |e.worker.memory.rows| >= |p.keys| && e.worker.isRun
    ensures GoStep(p, e.disk, e.worker) == Effect(e.disk, At(e.worker, FinalStatus))
  {
  }

  lemma StartedOpened(p: Plan, mode: Mode)
    ensures Workers.Created(p, mode).disk.(status := Some(OpeningStatus(p, Running, 1))) == Started(p)
    ensures Workers.Created(p, mode).disk.lease == Some(Lease(1, false))
  {
    hide OpeningStatus;
    CreatedDisk(p);
  }

  lemma FirstSteps(p: Plan, mode: Mode)
    ensures Alone(p, Effect(Workers.Created(p, mode).disk, RunWorker(mode)), 3)
            == Effect(Started(p), Worker(true, 1, EMPTY_MEMORY, mode, AtKey))
  {
    hide OpeningStatus, GoHold, GoMark, GoFinal;
    StartedOpened(p, mode);
    var e := Effect(Workers.Created(p, mode).disk, RunWorker(mode));
    var w := Worker(true, 1, EMPTY_MEMORY, mode, BeatRead);
    AloneNext(p, e, 0);
    assert Alone(p, e, 1) == Effect(Started(p), w);
    BeatAlone(p, Started(p), w);
    AloneAdds(p, e, 1, 2);
  }

  /** A hold writes the status back twice, and comes to its fence with the directory as it was. */
  lemma HoldAlone(p: Plan, d: Disk, w: Worker)
    requires w.stage.HoldRead? && w.stage.rounds == 2 && d.status.Some?
    ensures Alone(p, Effect(d, w), 1) == Effect(d, At(w, HoldWrite(2, w.stage.goal, d.status.value)))
    ensures Alone(p, Effect(d, w), 3) == Effect(d, At(w, HoldWrite(1, w.stage.goal, d.status.value)))
    ensures Alone(p, Effect(d, w), 5) == Effect(d, At(w, HoldFence(w.stage.goal)))
  {
    hide GoLoop, GoMark, GoFinal, OpeningStatus, Alone;
    var e, s := Effect(d, w), d.status.value;
    assert Apply(d, PutStatus(s)) == d;
    AloneNone(p, e);
    AloneNext(p, e, 0);
    AloneNext(p, e, 1);
    AloneNext(p, e, 2);
    AloneNext(p, e, 3);
    AloneNext(p, e, 4);
  }

  /** Without a status it writes nothing. */
  lemma HoldWithoutStatus(p: Plan, d: Disk, w: Worker)
    requires w.stage.HoldRead? && w.stage.rounds == 2 && d.status.None?
    ensures Alone(p, Effect(d, w), 3) == Effect(d, At(w, HoldFence(w.stage.goal)))
  {
    hide GoLoop, GoMark, GoFinal, OpeningStatus, Alone;
    var e := Effect(d, w);
    AloneNone(p, e);
    AloneNext(p, e, 0);
    AloneNext(p, e, 1);
    AloneNext(p, e, 2);
  }

  const HELD_STEPS: nat := 15   // the nine of a key, five of the hold, and the fence behind it

  /** What one key leaves: the commit, whose report lacks the logical attempt count if it was split. */
  function KeyCommitted(p: Plan, d: Disk, w: Worker): Disk {
    var d' := Committed(p, d, 1 + |w.memory.rows|, w.memory, 5);
    if w.mode.barrier == BeforeReport then d'.(report := Some(SplitReport(p, w.memory))) else d'
  }

  /** One key by a worker that holds the lease and stops at a barrier, wherever the barrier is. */
  lemma HeldKeyAlone(p: Plan, d: Disk, w: Worker)
    requires w.stage == AtKey && |w.memory.rows| < |p.keys| && Holds(d, w) && d.status.Some?
    requires w.mode.barrier != NoBarrier
    ensures
      var w' := w.(memory := Extend(p, w.memory));
      Alone(p, Effect(d, w), HELD_STEPS) == Effect(KeyCommitted(p, d, w'), AfterBeat(w'))
  {
    hide Extend, Committed, GoStep, Alone, KeyCommitted;
    var e, w' := Effect(d, w), w.(memory := Extend(p, w.memory));
    if w.mode.barrier == BeforeReport {
      AloneAdds(p, e, 5, 10);
      SplitBegins(p, d, w);
      SplitCommitted(p, d, w');
      SplitEnds(p, Committed(p, d, 1 + |w'.memory.rows|, w'.memory, 3), At(w', HoldRead(2, ToReport)));
    } else {
      AloneAdds(p, e, 8, 7);
      HeldBeforeCommit(p, d, w);
      CommitAndBeat(p, d, w');
      WholeCommitted(p, d, w');
    }
  }

  /** Key or commit barrier: eight steps to the first write. */
  lemma HeldBeforeCommit(p: Plan, d: Disk, w: Worker)
    requires w.stage == AtKey && |w.memory.rows| < |p.keys| && Holds(d, w) && d.status.Some?
    requires w.mode.barrier == BeforeKey || w.mode.barrier == BeforeCommit
    ensures Alone(p, Effect(d, w), 8)
            == Effect(d, w.(memory := Extend(p, w.memory), stage := Writing(0)))
  {
    hide Extend, GoMark, GoFinal, OpeningStatus, Alone;
    var e := Effect(d, w);
    var before := w.mode.barrier == BeforeKey;
    var held := if before then At(w, HoldRead(2, ToProcess))
                else w.(memory := Extend(p, w.memory), stage := HoldRead(2, ToCommit));
    AloneNone(p, e);
    AloneNext(p, e, 0);
    assert Alone(p, e, 1) == Effect(d, held);
    HoldAlone(p, d, held);
    AloneAdds(p, e, 1, 5);
    AloneNext(p, e, 6);
    AloneNext(p, e, 7);
  }

  /** The five writes and the heartbeat of a commit that is not split. */
  lemma CommitAndBeat(p: Plan, d: Disk, w: Worker)
    requires Holds(d, w) && w.mode.barrier != BeforeReport
    ensures Alone(p, Effect(d, At(w, Writing(0))), 7)
            == Effect(Committed(p, d, 1 + |w.memory.rows|, w.memory, 5), AfterBeat(w))
  {
    hide Committed, GoStep, Alone;
    UnsplitWrites(p, d, At(w, Writing(0)), 5);
    AloneAdds(p, Effect(d, At(w, Writing(0))), 5, 2);
    CommitKeepsLease(p, d, w.memory);
    BeatAlone(p, Committed(p, d, 1 + |w.memory.rows|, w.memory, 5), At(w, BeatRead));
  }

  lemma {:induction false} UnsplitWrites(p: Plan, d: Disk, w: Worker, j: nat)
    requires w.stage == Writing(0) && w.mode.barrier != BeforeReport && j <= COMMIT_WRITES
    ensures Alone(p, Effect(d, w), j)
            == Effect(Committed(p, d, 1 + |w.memory.rows|, w.memory, j),
                      At(w, if j == COMMIT_WRITES then BeatRead else Writing(j)))
  {
    hide OutcomesOf, AttemptsOf, CheckpointOf, ReportOf, StatusOf, GoMark, GoFinal, GoHold, OpeningStatus;
    if j > 0 {
      UnsplitWrites(p, d, w, j - 1);
      AloneNext(p, Effect(d, w), j - 1);
    }
  }

  /** The split commit: both fences and three writes, then the hold. */
  lemma SplitBegins(p: Plan, d: Disk, w: Worker)
    requires w.stage == AtKey && |w.memory.rows| < |p.keys| && Holds(d, w) && w.mode.barrier == BeforeReport
    ensures
      var w' := w.(memory := Extend(p, w.memory));
      Alone(p, Effect(d, w), 5)
      == Effect(Committed(p, d, 1 + |w'.memory.rows|, w'.memory, 3), At(w', HoldRead(2, ToReport)))
  {
    hide Extend, GoHold, GoMark, GoFinal, OpeningStatus, Alone, OutcomesOf, AttemptsOf, CheckpointOf, ReportOf,
      StatusOf;
    var e := Effect(d, w);
    AloneNone(p, e);
    AloneNext(p, e, 0);
    AloneNext(p, e, 1);
    AloneNext(p, e, 2);
    AloneNext(p, e, 3);
    AloneNext(p, e, 4);
  }

  /** The hold, the fence, report and status, and the heartbeat. */
  lemma SplitEnds(p: Plan, d: Disk, w: Worker)
    requires w.stage == HoldRead(2, ToReport) && Holds(d, w) && d.status.Some? && w.mode.barrier == BeforeReport
    ensures Alone(p, Effect(d, w), 10)
            == Effect(d.(report := Some(SplitReport(p, w.memory)),
                         status := Some(StatusOf(p, 1 + |w.memory.rows|, w.memory.rows))), AfterBeat(w))
  {
    hide GoMark, GoFinal, OpeningStatus, Alone, OutcomesOf, AttemptsOf, CheckpointOf, ReportOf, StatusOf, SplitReport;
    var e := Effect(d, w);
    var d' := d.(report := Some(SplitReport(p, w.memory)),
                 status := Some(StatusOf(p, 1 + |w.memory.rows|, w.memory.rows)));
    HoldAlone(p, d, w);
    AloneNext(p, e, 5);
    AloneNext(p, e, 6);
    AloneNext(p, e, 7);
    assert Alone(p, e, 8) == Effect(d', At(w, BeatRead));
    BeatAlone(p, d', At(w, BeatRead));
    AloneAdds(p, e, 8, 2);
  }

  lemma SplitCommitted(p: Plan, d: Disk, w: Worker)
    requires w.mode.barrier == BeforeReport
    ensures
      var d3 := Committed(p, d, 1 + |w.memory.rows|, w.memory, 3);
      && d3.lease == d.lease && d3.status == d.status
      && KeyCommitted(p, d, w) == d3.(report := Some(SplitReport(p, w.memory)),
                                      status := Some(StatusOf(p, 1 + |w.memory.rows|, w.memory.rows)))
  {
    hide ReportOf, StatusOf, CheckpointOf, SplitReport;
  }

  lemma WholeCommitted(p: Plan, d: Disk, w: Worker)
    requires w.mode.barrier != BeforeReport
    ensures KeyCommitted(p, d, w) == Committed(p, d, 1 + |w.memory.rows|, w.memory, 5)
  {
  }

  // -------------------------------------------------------- healing a run

  /** The five documents are those of a full ledger held in m. */
  predicate FullCommit(p: Plan, d: Disk, m: Memory) {
    var n := |p.keys|;
    && m.rows == LedgerRows(p, n)
    && d.outcomes == Some(OutcomesOf(1 + n, m)) && d.attempts == Some(AttemptsOf(1 + n, m))
    && d.checkpoint == Some(CheckpointOf(p, 1 + n, m.rows))
    && d.report == Some(ReportOf(p, 1 + n, m)) && d.status == Some(StatusOf(p, 1 + n, m.rows))
  }

  lemma {:induction false} LoopCompletes(p: Plan, d: Disk, m: Memory, generation: nat)
    requires MemorySafe(p, m) && |m.rows| < |p.keys| && !Fenced(d, generation)
    ensures
      var s := Drive(p, Io(d, None, true), m, generation, None);
      s.end == Finished && FullCommit(p, s.io.disk, s.memory)
    decreases |p.keys| - |m.rows|
  {
    hide CommitWrites, PutAll, ApplyAll, Extend, MemorySafe, OutcomesOf, AttemptsOf, CheckpointOf,
      ReportOf, StatusOf;
    var io, n, m' := Io(d, None, true), |m.rows|, Extend(p, m);
    ExtendSafe(p, m);
    DriveStep(p, io, m, generation, None);
    PutAllIsAPrefix(io, CommitWrites(p, 2 + n, m'));
    CommitPrefix(p, d, 2 + n, m', 5);
    WholeCommit(p, 2 + n, m');
    var d' := Committed(p, d, 2 + n, m', 5);
    if n + 1 < |p.keys| {
      LoopCompletes(p, d', m', generation);
    } else {
      SafeRows(p, m');
    }
  }

  lemma SafeRows(p: Plan, m: Memory)
    requires MemorySafe(p, m)
    ensures m.rows == LedgerRows(p, |m.rows|)
  {
  }

  lemma LoadedSafe(p: Plan, d: Disk)
    requires DiskSafe(p, d)
    ensures MemorySafe(p, Memory(Rows(d), Logical(d), Physical(d)))
  {
    NothingIsGenuine(p);
    assert LedgerRows(p, 0) == [];
  }

  lemma ResumeCompletes(p: Plan, d: Disk)
    requires DiskSafe(p, d) && MayResume(p, d) && |Rows(d)| < |p.keys|
    ensures
      var s := Sessions.Resume(p, d, false, None);
      s.end == Finished && FullCommit(p, s.io.disk, s.memory)
  {
    hide Drive, DiskSafe, MemorySafe, OutcomesOf, AttemptsOf, CheckpointOf, ReportOf, StatusOf;
    var g := (if d.lease.Some? then d.lease.value.generation else 1) + 1;
    LoadedSafe(p, d);
    LoopCompletes(p, d.(lease := Some(Lease(g, false))), Memory(Rows(d), Logical(d), Physical(d)), g);
  }

  /** Whatever any interleaving of workers left behind, one resume that is let through, finds
      keys left and is disturbed by nobody makes outcomes, checkpoint, status and the
      report's ledger those of an uninterrupted run. */
  lemma ResumeHeals(p: Plan, mode: Mode, ls: seq<Label>)
    requires p.Valid() && MayResume(p, Trace(p, mode, ls).disk)
    requires |Rows(Trace(p, mode, ls).disk)| < |p.keys|
    ensures
      var d := Sessions.Resume(p, Trace(p, mode, ls).disk, false, None).io.disk;
      var u := After(p, UNINTERRUPTED, []);
      && d.outcomes == u.outcomes && d.checkpoint == u.checkpoint && d.status == u.status
      && d.report.Some? && u.report.Some? && Core(d.report.value) == Core(u.report.value)
  {
    hide Trace, DiskSafe, Sessions.Resume, After, CheckpointOf, StatusOf, JustCommitted;
    var before := Trace(p, mode, ls).disk;
    TraceSafe(p, mode, ls);
    ResumeCompletes(p, before);
    UninterruptedRun(p);
    FullDocuments(p, After(p, UNINTERRUPTED, []));
    SameCore(p, Sessions.Resume(p, before, false, None).memory, MemoryAt(p, |p.keys|, {}));
  }

  lemma FullDocuments(p: Plan, u: Disk)
    requires |p.keys| > 0 && JustCommitted(p, u, {}, |p.keys|)
    ensures FullCommit(p, u, MemoryAt(p, |p.keys|, {}))
  {
    hide Kept, ReportOf, StatusOf, CheckpointOf;
  }

  lemma SameCore(p: Plan, m: Memory, m': Memory)
    requires m.rows == m'.rows
    ensures Core(ReportOf(p, 1 + |p.keys|, m)) == Core(ReportOf(p, 1 + |p.keys|, m'))
  {
  }

  // ------------------------------------------------------------ three schedules

  function Turns(w: nat, k: nat): seq<Label> {
    seq(k, _ => Label.Go(w))
  }

  lemma TraceAdds(p: Plan, mode: Mode, ls: seq<Label>, l: Label)
    ensures Trace(p, mode, ls + [l]) == Next(p, Trace(p, mode, ls), l)
  {
    assert (ls + [l])[..|ls|] == ls;
  }

  lemma {:induction false} TraceTurns(p: Plan, mode: Mode, ls: seq<Label>, w: nat, k: nat)
    requires w in Trace(p, mode, ls).workers
    ensures
      var s := Trace(p, mode, ls);
      var e := Alone(p, Effect(s.disk, s.workers[w]), k);
      Trace(p, mode, ls + Turns(w, k)) == State(e.disk, s.workers[w := e.worker])
    decreases k
  {
    hide GoStep;
    var s := Trace(p, mode, ls);
    if k == 0 {
      assert ls + Turns(w, 0) == ls;
      assert s.workers[w := s.workers[w]] == s.workers;
    } else {
      TraceTurns(p, mode, ls, w, k - 1);
      AloneNext(p, Effect(s.disk, s.workers[w]), k - 1);
      assert ls + Turns(w, k) == (ls + Turns(w, k - 1)) + [Label.Go(w)];
      TraceAdds(p, mode, ls + Turns(w, k - 1), Label.Go(w));
    }
  }

  /** The directory under a run worker that has written its first running status. */
  function Started(p: Plan): Disk {
    EMPTY_DISK.(request := true, preflight := Some(p.fingerprints), lease := Some(Lease(1, false)),
                status := Some(OpeningStatus(p, Running, 1)))
  }

  lemma CreatedDisk(p: Plan)
    ensures Workers.Created(p, PLAIN).disk
            == Started(p).(status := Some(OpeningStatus(p, RunState.Created, 0)))
  {
    hide OpeningStatus;
    CreatePrefix(p, None);
    PutAllIsAPrefix(Io(EMPTY_DISK, None, true), CreateWrites(p));
  }

  /** The run worker up to the moment before its first commit write, past both fences. */
  lemma PoisedToWrite(p: Plan)
    requires |p.keys| > 0
    ensures Trace(p, PLAIN, Turns(0, 5))
            == State(Started(p), map[0 := Worker(true, 1, Extend(p, EMPTY_MEMORY), PLAIN, Writing(0))])
  {
    hide OpeningStatus, Extend, GoHold, GoMark, GoFinal;
    var s0 := Workers.Created(p, PLAIN);
    CreatedDisk(p);
    var e := Effect(s0.disk, s0.workers[0]);
    var w := Worker(true, 1, EMPTY_MEMORY, PLAIN, BeatRead);
    AloneNext(p, e, 0);
    assert Alone(p, e, 1) == Effect(Started(p), w);
    AloneNext(p, e, 1);
    assert Alone(p, e, 2) == Effect(Started(p), At(w, BeatWrite(Lease(1, false))));
    AloneNext(p, e, 2);
    assert Alone(p, e, 3) == Effect(Started(p), At(w, AtKey));
    AloneNext(p, e, 3);
    AloneNext(p, e, 4);
    TraceTurns(p, PLAIN, [], 0, 5);
    assert [] + Turns(0, 5) == Turns(0, 5);
  }

  /** A check and the write it guards are two steps: a run worker that passed the fence of
      its first commit and is then overtaken by a whole resume takes a complete ledger back
      to one row, under a status that still says the run is over. */
  lemma LedgerCanRegress(p: Plan) returns (ls: seq<Label>)
    requires p.Valid() && |p.keys| >= 2
    ensures
      var d, d' := Trace(p, PLAIN, ls).disk, Trace(p, PLAIN, ls + [Label.Go(0)]).disk;
      && Rows(d) == LedgerRows(p, |p.keys|) && Rows(d') == LedgerRows(p, 1)
      && d.status == d'.status && d.status.Some?
      && d.status.value.state in {Completed, Blocked}
  {
    hide Trace, GoStep, Reclaim, CheckpointOf, ReportOf, OpeningStatus, Sessions.Resume, Alone, Extend, Started,
      MayResume, DiskSafe;
    var d := Started(p);
    var l1 := Turns(0, 5) + [Label.Resume(1)];
    PoisedToWrite(p);
    StartedMayResume(p);
    TraceAdds(p, PLAIN, Turns(0, 5), Label.Resume(1));
    var k := ResumeAlone(p, d);
    TraceTurns(p, PLAIN, l1, 1, k);
    ls := l1 + Turns(1, k);
    TraceAdds(p, PLAIN, ls, Label.Go(0));
    ResumeCompletes(p, d);
    FirstRow(p);
    var w := Worker(true, 1, Extend(p, EMPTY_MEMORY), PLAIN, Writing(0));
    FirstWrite(p, Trace(p, PLAIN, ls).disk, w);
  }

  lemma StartedMayResume(p: Plan)
    ensures MayResume(p, Started(p)) && DiskSafe(p, Started(p)) && Rows(Started(p)) == []
  {
    hide StatusSafe;
    OpeningIsSafe(p);
  }

  lemma FirstRow(p: Plan)
    requires |p.keys| > 0
    ensures Extend(p, EMPTY_MEMORY).rows == LedgerRows(p, 1)
  {
    LedgerExtends(p, 0);
    assert LedgerRows(p, 0) == [];
  }

  lemma FirstWrite(p: Plan, d: Disk, w: Worker)
    requires w.stage == Writing(0) && w.mode.barrier == NoBarrier
    ensures GoStep(p, d, w)
            == Effect(d.(outcomes := Some(OutcomesOf(1 + |w.memory.rows|, w.memory))),
                      At(w, Writing(1)))
  {
  }

  /** A heartbeat is a read and a write: one that reads before a reclaim and writes after it
      hands the lease back. The reclaiming resume is fenced out without writing a document
      and the run worker goes on as the holder. */
  lemma HeartbeatHandsTheLeaseBack(p: Plan) returns (ls: seq<Label>)
    requires |p.keys| > 0
    ensures
      var s := Trace(p, PLAIN, ls);
      && s.workers.Keys == {0, 1}
      && s.workers[1].generation == 2 && s.workers[1].stage == Stopped
      && s.workers[0].stage == AtKey && Holds(s.disk, s.workers[0])
      && s.disk == Started(p)
  {
    hide Trace, OpeningStatus, GoStep;
    var d := Started(p);
    var w := Worker(true, 1, EMPTY_MEMORY, PLAIN, BeatWrite(Lease(1, false)));
    BeatPending(p);
    StartedMayResume(p);
    var l0 := Turns(0, 2);
    TraceAdds(p, PLAIN, l0, Label.Resume(1));
    var l1 := l0 + [Label.Resume(1)];
    Claimed(p);
    TraceTurns(p, PLAIN, l1, 1, 2);
    var l2 := l1 + Turns(1, 2);
    var claimed := d.(lease := Some(Lease(2, false)));
    var w1 := Worker(false, 2, EMPTY_MEMORY, PLAIN, LoadOutcomes);
    assert Trace(p, PLAIN, l2) == State(claimed, map[0 := w, 1 := w1]);
    TraceAdds(p, PLAIN, l2, Label.Go(0));
    var l3 := l2 + [Label.Go(0)];
    BeatLands(p, claimed, w);
    assert Trace(p, PLAIN, l3) == State(d, map[0 := At(w, AtKey), 1 := w1]);
    TraceTurns(p, PLAIN, l3, 1, 3);
    FencedOnArrival(p, w1);
    ls := l3 + Turns(1, 3);
  }

  lemma BeatPending(p: Plan)
    ensures Trace(p, PLAIN, Turns(0, 2))
            == State(Started(p),
                     map[0 := Worker(true, 1, EMPTY_MEMORY, PLAIN, BeatWrite(Lease(1, false)))])
  {
    hide OpeningStatus, GoHold, GoMark, GoFinal;
    var s0 := Workers.Created(p, PLAIN);
    CreatedDisk(p);
    var e := Effect(s0.disk, s0.workers[0]);
    AloneNext(p, e, 0);
    assert Alone(p, e, 1) == Effect(Started(p), Worker(true, 1, EMPTY_MEMORY, PLAIN, BeatRead));
    AloneNext(p, e, 1);
    TraceTurns(p, PLAIN, [], 0, 2);
    assert [] + Turns(0, 2) == Turns(0, 2);
  }

  lemma Claimed(p: Plan)
    ensures Alone(p, Effect(Started(p), ResumeWorker(Claiming)), 2)
            == Effect(Started(p).(lease := Some(Lease(2, false))),
                      Worker(false, 2, EMPTY_MEMORY, PLAIN, LoadOutcomes))
  {
    hide OpeningStatus, GoLoop, GoHold, GoMark, GoFinal;
    var e := Effect(Started(p), ResumeWorker(Claiming));
    AloneNext(p, e, 0);
    AloneNext(p, e, 1);
  }

  lemma BeatLands(p: Plan, d: Disk, w: Worker)
    requires w.stage.BeatWrite? && !InterruptDue(w)
    ensures GoStep(p, d, w) == Effect(d.(lease := Some(w.stage.lease)), At(w, AtKey))
  {
  }

  lemma FencedOnArrival(p: Plan, w: Worker)
    requires |p.keys| > 0 && w.stage == LoadOutcomes && w.generation == 2
    ensures
      var e := Alone(p, Effect(Started(p), w), 3);
      && e.disk == Started(p) && e.worker.stage == Stopped && e.worker.generation == 2
  {
    hide OpeningStatus, Extend, GoHold, GoMark, GoFinal;
    var e := Effect(Started(p), w);
    AloneNext(p, e, 0);
    assert Alone(p, e, 1) == Effect(Started(p), w.(memory := EMPTY_MEMORY, stage := LoadAttempts));
    AloneNext(p, e, 1);
    assert Alone(p, e, 2) == Effect(Started(p), w.(memory := EMPTY_MEMORY, stage := AtKey));
    AloneNext(p, e, 2);
  }

  /** A resume reads outcomes and attempts separately: a commit that lands in between makes
      it process a key again and record its attempt twice. */
  lemma AttemptCanBeRecordedTwice(p: Plan) returns (ls: seq<Label>)
    requires |p.keys| > 0
    ensures
      var d := Trace(p, PLAIN, ls).disk;
      Rows(d) == LedgerRows(p, 1) && Logical(d) == [AttemptAt(p, 0), AttemptAt(p, 0)]
  {
    hide Trace, Started, GoStep, Committed, Alone, Extend;
    var d1, m := Started(p).(lease := Some(Lease(2, false))), Extend(p, EMPTY_MEMORY);
    var w, w1 := Worker(true, 1, m, PLAIN, Writing(0)), Worker(false, 2, EMPTY_MEMORY, PLAIN, LoadAttempts);
    var l2 := HalfLoaded(p);
    WritesAlone(p, d1, w, 2);
    TraceTurns(p, PLAIN, l2, 0, 2);
    var l3 := l2 + Turns(0, 2);
    FirstExtend(p);
    var d2 := Committed(p, d1, 2, m, 2);
    TwoWrites(p, d1, m);
    LoadsAndCommits(p, d2, w1);
    TraceTurns(p, PLAIN, l3, 1, 5);
    ls := l3 + Turns(1, 5);
  }

  lemma FirstExtend(p: Plan)
    requires |p.keys| > 0
    ensures
      var m := Extend(p, EMPTY_MEMORY);
      && m.rows == LedgerRows(p, 1) && |m.rows| == 1 && m.logical == [AttemptAt(p, 0)]
    ensures Extend(p, Memory([], [AttemptAt(p, 0)], Extend(p, EMPTY_MEMORY).physical)).rows == LedgerRows(p, 1)
    ensures Extend(p, Memory([], [AttemptAt(p, 0)], Extend(p, EMPTY_MEMORY).physical)).logical
            == [AttemptAt(p, 0), AttemptAt(p, 0)]
  {
    FirstRow(p);
  }

  /** A run worker past its fences, and a resume worker between its two loads. */
  lemma HalfLoaded(p: Plan) returns (ls: seq<Label>)
    requires |p.keys| > 0
    ensures Trace(p, PLAIN, ls)
            == State(Started(p).(lease := Some(Lease(2, false))),
                     map[0 := Worker(true, 1, Extend(p, EMPTY_MEMORY), PLAIN, Writing(0)),
                         1 := Worker(false, 2, EMPTY_MEMORY, PLAIN, LoadAttempts)])
  {
    hide Trace, OpeningStatus, GoStep, Alone, Extend;
    PoisedToWrite(p);
    StartedMayResume(p);
    var l0 := Turns(0, 5);
    TraceAdds(p, PLAIN, l0, Label.Resume(1));
    var l1 := l0 + [Label.Resume(1)];
    TraceTurns(p, PLAIN, l1, 1, 3);
    ClaimedAndLoaded(p);
    ls := l1 + Turns(1, 3);
  }

  lemma ClaimedAndLoaded(p: Plan)
    ensures Alone(p, Effect(Started(p), ResumeWorker(Claiming)), 3)
            == Effect(Started(p).(lease := Some(Lease(2, false))),
                      Worker(false, 2, EMPTY_MEMORY, PLAIN, LoadAttempts))
  {
    hide OpeningStatus, GoLoop, GoHold, GoMark, GoFinal;
    Claimed(p);
    AloneNext(p, Effect(Started(p), ResumeWorker(Claiming)), 2);
  }

  lemma LoadsAndCommits(p: Plan, d: Disk, w: Worker)
    requires |p.keys| > 0 && w.stage == LoadAttempts && w.memory == EMPTY_MEMORY && Holds(d, w)
    requires w.mode.barrier == NoBarrier
    ensures
      var e := Alone(p, Effect(d, w), 5);
      var m := Extend(p, Memory([], Logical(d), Physical(d)));
      && e.disk.outcomes == Some(OutcomesOf(2, m))
      && e.disk.attempts == Some(AttemptsOf(2, m))
  {
    hide GoStep, Alone, Committed, Extend;
    var e := Effect(d, w);
    var loaded := Memory([], Logical(d), Physical(d));
    var m := Extend(p, loaded);
    ExtendGrows(p, loaded);
    LoadStep(p, d, w);
    BothFences(p, d, w.(memory := loaded, stage := AtKey));
    AloneAdds(p, e, 1, 2);
    var w' := w.(memory := m, stage := Writing(0));
    assert Alone(p, e, 3) == Effect(d, w');
    WritesAlone(p, d, w', 2);
    AloneAdds(p, e, 3, 2);
    TwoWrites(p, d, m);
  }

  lemma LoadStep(p: Plan, d: Disk, w: Worker)
    requires w.stage == LoadAttempts
    ensures Alone(p, Effect(d, w), 1)
            == Effect(d, w.(memory := Memory(w.memory.rows, Logical(d), Physical(d)), stage := AtKey))
  {
    hide GoLoop, GoHold, GoMark, GoFinal, OpeningStatus;
    AloneNext(p, Effect(d, w), 0);
  }

  lemma TwoWrites(p: Plan, d: Disk, m: Memory)
    ensures Committed(p, d, 1 + |m.rows|, m, 2).outcomes == Some(OutcomesOf(1 + |m.rows|, m))
    ensures Committed(p, d, 1 + |m.rows|, m, 2).attempts == Some(AttemptsOf(1 + |m.rows|, m))
    ensures Committed(p, d, 1 + |m.rows|, m, 2).lease == d.lease
  {
  }
}
