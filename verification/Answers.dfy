/** What a run or resume call on a root is answered, case by case, and when it returns a run. */
module Answers {
  import opened Options
  import opened Ledger
  import opened Sessions
  import opened Idempotency
  import C = CrashResume
  import Gate

  // --------------------------------------------------- the tuple in the status

  /** The status, if there is one, carries this run fingerprint. */
  predicate StatusOfTuple(d: Disk, run: string) {
    d.status.Some? ==> d.status.value.run == run
  }

  predicate WritesTuple(w: Write, run: string) {
    w.PutStatus? ==> w.status.run == run
  }

  lemma {:induction false} PutAllTuple(io: Io, ws: seq<Write>, run: string)
    requires StatusOfTuple(io.disk, run) && forall w | w in ws :: WritesTuple(w, run)
    ensures StatusOfTuple(PutAll(io, ws).disk, run)
  {
    if |ws| > 0 {
      PutAllTuple(io, ws[..|ws| - 1], run);
      assert ws[|ws| - 1] in ws;
    }
  }

  lemma CommitWritesTuple(p: Plan, revision: nat, m: Memory)
    ensures forall w | w in CommitWrites(p, revision, m) :: WritesTuple(w, p.fingerprints.run)
  {
  }

  lemma MarkWritesTuple(d: Disk, run: string)
    requires StatusOfTuple(d, run)
    ensures forall w | w in InterruptWrites(d) :: WritesTuple(w, run)
  {
  }

  lemma {:induction false} DriveTuple(p: Plan, io: Io, m: Memory, generation: nat, interrupt: Option<int>)
    requires StatusOfTuple(io.disk, p.fingerprints.run)
    ensures StatusOfTuple(Drive(p, io, m, generation, interrupt).io.disk, p.fingerprints.run)
    decreases |p.keys| - |m.rows|
  {
    hide PutAll, CommitWrites, InterruptWrites, Extend, StatusOfTuple;
    if |m.rows| < |p.keys| && !Fenced(io.disk, generation) {
      var m', run := Extend(p, m), p.fingerprints.run;
      ExtendOne(p, m);
      var ws := CommitWrites(p, 2 + |m.rows|, m');
      CommitWritesTuple(p, 2 + |m.rows|, m');
      PutAllTuple(io, ws, run);
      var io' := PutAll(io, ws);
      if io'.alive {
        if interrupt.Some? && |m'.rows| >= interrupt.value {
          MarkWritesTuple(io'.disk, run);
          PutAllTuple(io', InterruptWrites(io'.disk), run);
        } else {
          DriveTuple(p, io', m', generation, interrupt);
        }
      }
    }
  }

  lemma RunFreshTuple(p: Plan, fuse: Option<nat>, interrupt: Option<int>)
    ensures StatusOfTuple(RunFresh(p, fuse, interrupt).io.disk, p.fingerprints.run)
  {
    hide Drive, PutAll, LedgerSound;
    var io := PutAll(Io(EMPTY_DISK, fuse, true), CreateWrites(p));
    PutAllTuple(Io(EMPTY_DISK, fuse, true), CreateWrites(p), p.fingerprints.run);
    if io.alive {
      var generation := if io.disk.lease.Some? then io.disk.lease.value.generation else 1;
      var io1 := Put(io, PutStatus(OpeningStatus(p, Running, 1)));
      if io1.alive { DriveTuple(p, io1, EMPTY_MEMORY, generation, interrupt); }
    }
  }

  lemma ResumeTuple(p: Plan, d: Disk, keyBound: bool, fuse: Option<nat>, run: string)
    requires StatusOfTuple(d, run) && (d.preflight.Some? ==> d.preflight.value.run == run)
    ensures StatusOfTuple(Resume(p, d, keyBound, fuse).io.disk, run)
  {
    hide Drive;
    if d.status.Some? && d.status.value.state in {Running, Interrupted} && d.preflight == Some(p.fingerprints) {
      var g := (if d.lease.Some? then d.lease.value.generation else 1) + 1;
      var io := Put(Io(d, fuse, true), PutLease(Lease(g, false)));
      if io.alive {
        DriveTuple(p, io, Memory(Rows(io.disk), Logical(io.disk), Physical(io.disk)), g, None);
      }
    }
  }

  /** A directory with a status has a preflight, and the two carry one run fingerprint. */
  predicate OneTuple(d: Disk) {
    d.status.Some? ==> d.preflight.Some? && d.status.value.run == d.preflight.value.run
  }

  ghost predicate AllOneTuple(root: Root) {
    forall id | id in root.runs :: OneTuple(root.runs[id])
  }

  lemma StepOneTuple(root: Root, c: Call)
    requires Inv(root) && AllOneTuple(root)
    ensures AllOneTuple(Step(root, c).root)
  {
    hide RunFresh, RunId, Resume;
    if c.RunCall? {
      RunFreshTuple(c.plan, c.fault.Fuse(), c.interrupt);
      FreshPreflight(c.plan, c.fault.Fuse(), c.interrupt);
    } else if c.runId in root.runs {
      var d := root.runs[c.runId];
      var bound := c.presented.Some? && c.presented.value in root.bindings
        && root.bindings[c.presented.value].runId == c.runId;
      ResumeKeeps(c.plan, d, bound, c.fault.Fuse());
      if d.preflight.Some? { ResumeTuple(c.plan, d, bound, c.fault.Fuse(), d.preflight.value.run); }
    }
  }

  lemma FreshPreflight(p: Plan, fuse: Option<nat>, interrupt: Option<int>)
    ensures
      var d := RunFresh(p, fuse, interrupt).io.disk;
      d.status.Some? ==> d.preflight == Some(p.fingerprints)
  {
    hide Execute, OpeningStatus, PutAll;
    var io := PutAll(Io(EMPTY_DISK, fuse, true), CreateWrites(p));
    CreateKnows(p, fuse);
    if io.alive { ExecuteKeeps(p, io, interrupt); }
  }

  lemma {:induction false} AfterOneTuple(calls: seq<Call>)
    ensures AllOneTuple(After(calls)) && Inv(After(calls))
  {
    hide Step, AllOneTuple, Inv;
    if |calls| == 0 {
      NoRuns();
    } else {
      AfterOneTuple(calls[..|calls| - 1]);
      StepOneTuple(After(calls[..|calls| - 1]), calls[|calls| - 1]);
    }
    AfterInv(calls);
  }

  lemma NoRuns()
    ensures AllOneTuple(EMPTY_ROOT)
  {
  }

  // ------------------------------------------------------ when the loop finishes

  /** The process has this many writes left. */
  predicate Lasts(fuse: Option<nat>, writes: nat) {
    fuse.None? || fuse.value >= writes
  }

  /** A loop that no interrupt stops finishes exactly when the process completes five writes for
      every key that is left, and dies otherwise. */
  lemma {:induction false} DriveFinishesIff(p: Plan, io: Io, m: Memory, generation: nat)
    requires io.alive && !Fenced(io.disk, generation)
    ensures
      var s := Drive(p, io, m, generation, None);
      var left := if |m.rows| < |p.keys| then |p.keys| - |m.rows| else 0;
      && s.end == (if Lasts(io.fuse, 5 * left) then Finished else Died)
      && (s.end == Finished && left > 0 ==> s.io.disk.report.Some?)
      && (s.end == Finished ==>
            s.io.fuse == if io.fuse.None? then None else Some(io.fuse.value - 5 * left))
      && (left == 0 ==> s.io == io)
      && (s.end == Finished ==> s.io.disk.lease == io.disk.lease)
    decreases |p.keys| - |m.rows|
  {
    hide PutAll, CommitWrites, Extend, InterruptWrites;
    if |m.rows| < |p.keys| {
      var m' := Extend(p, m);
      ExtendOne(p, m);
      var ws := CommitWrites(p, 2 + |m.rows|, m');
      FiveWrites(p, 2 + |m.rows|, m');
      PutAllIsAPrefix(io, ws);
      DriveStep(p, io, m, generation, None);
      var io' := PutAll(io, ws);
      CommitWhole(p, io, 2 + |m.rows|, m');
      if io'.alive {
        CommitReports(p, io, 2 + |m.rows|, m');
        DriveFinishesIff(p, io', m', generation);
      }
    }
  }

  lemma CommitWhole(p: Plan, io: Io, revision: nat, m: Memory)
    requires io.alive
    ensures
      var io' := PutAll(io, CommitWrites(p, revision, m));
      && io'.alive == Lasts(io.fuse, 5)
      && (io'.alive ==> io'.disk == C.Committed(p, io.disk, revision, m, 5))
      && (io'.alive && io.fuse.Some? ==> io'.fuse == Some(io.fuse.value - 5))
      && (io.fuse.None? ==> io'.fuse.None?)
  {
    hide PutAll, ApplyAll, ReportOf, StatusOf, CheckpointOf, OutcomesOf, AttemptsOf;
    var ws := CommitWrites(p, revision, m);
    FiveWrites(p, revision, m);
    PutAllIsAPrefix(io, ws);
    C.CommitPrefix(p, io.disk, revision, m, 5);
    assert ws[..5] == ws;
  }

  // ------------------------------------------------------------- resume, answered

  /** The presented idempotency key is bound to the run that is resumed. */
  predicate KeyBound(root: Root, c: Call)
    requires c.ResumeCall?
  {
    c.presented.Some? && c.presented.value in root.bindings && root.bindings[c.presented.value].runId == c.runId
  }

  /** No resume returns a run of another tuple. */
  lemma ResumeReturnsItsTuple(calls: seq<Call>, c: Call)
    requires c.ResumeCall?
    ensures
      var root := After(calls);
      ResumeAt(root, c).answer.Returned? ==>
        && ResumeAt(root, c).answer.runId == c.runId && c.runId in root.runs
        && root.runs[c.runId].preflight.Some?
        && root.runs[c.runId].preflight.value.run == c.plan.fingerprints.run
  {
    hide After, Reclaim;
    AfterOneTuple(calls);
  }

  /** A resume of a completed run changes nothing; it returns the run if and only if the tuple is
      the run's and there is a report, and is a conflict whenever the tuple is another one. */
  lemma CompletedAnswers(calls: seq<Call>, c: Call)
    requires c.ResumeCall? && c.runId in After(calls).runs
    requires
      var d := After(calls).runs[c.runId];
      d.status.Some? && d.status.value.state == Completed
    ensures
      var root := After(calls);
      var d := root.runs[c.runId];
      && d.preflight.Some?
      && ResumeAt(root, c)
         == Reply(root, if d.preflight.value.run != c.plan.fingerprints.run then Refused(Conflict)
                        else if d.report.None? then Refused(NoReport)
                        else Returned(c.runId))
  {
    hide After, Reclaim;
    AfterOneTuple(calls);
    var root := After(calls);
    assert root.runs[c.runId := root.runs[c.runId]] == root.runs;
  }

  /** A resume of a run that is not open is refused without a change: it does not exist or has no
      status, it never reached its first running status, or it is blocked or failed. */
  lemma ClosedAnswers(calls: seq<Call>, c: Call)
    requires c.ResumeCall?
    ensures
      var root := After(calls);
      var r := ResumeAt(root, c);
      && (c.runId !in root.runs || root.runs[c.runId].status.None? ==> r == Reply(root, Refused(NotFound)))
      && (c.runId in root.runs && root.runs[c.runId].status.Some? ==>
            var state := root.runs[c.runId].status.value.state;
            && (state == RunState.Created ==> r == Reply(root, Refused(NotResumable)))
            && (state == Blocked || state == FailedRun ==> r == Reply(root, Refused(Terminal))))
  {
    hide After, Reclaim;
    var root := After(calls);
    if c.runId in root.runs { assert root.runs[c.runId := root.runs[c.runId]] == root.runs; }
  }

  /** A resume of an open run with another tuple. With the run's own key it is a conflict and
      changes nothing. Without it the run is marked blocked, and nothing else of it changes; only a
      process that dies before that write leaves the run as it was. */
  lemma DriftAnswers(calls: seq<Call>, c: Call)
    requires c.ResumeCall? && c.runId in After(calls).runs && Open(After(calls).runs[c.runId])
    requires After(calls).runs[c.runId].preflight != Some(c.plan.fingerprints)
    ensures
      var root := After(calls);
      var d := root.runs[c.runId];
      var blocked := d.(status := Some(d.status.value.(state := Blocked)));
      ResumeAt(root, c)
      == (if KeyBound(root, c) then Reply(root, Refused(Conflict))
          else if !Lasts(c.fault.Fuse(), 1) then Reply(root, Refused(Died))
          else Reply(root.(runs := root.runs[c.runId := blocked]), Refused(DriftBlocked)))
  {
    hide After, Reclaim;
    AfterOneTuple(calls);
    var root := After(calls);
    assert root.runs[c.runId := root.runs[c.runId]] == root.runs;
  }

  /** The generation a reclaim takes: one more than the lease's, and 2 without a lease. */
  function Claimed(d: Disk): nat {
    1 + if d.lease.Some? then d.lease.value.generation else 1
  }

  /** A resume of an open run with its own tuple returns the run if and only if the process
      completes the claim and five writes for every key without an outcome, and a report is there
      in the end; it dies when the writes do not suffice. If it lives, the lease is of the next
      generation. The other runs and the bindings stay. */
  lemma ReclaimAnswers(calls: seq<Call>, c: Call)
    requires c.ResumeCall? && c.runId in After(calls).runs && Open(After(calls).runs[c.runId])
    requires After(calls).runs[c.runId].preflight == Some(c.plan.fingerprints)
    ensures
      var root := After(calls);
      var d, r := root.runs[c.runId], ResumeAt(root, c);
      var left := if |Rows(d)| < |c.plan.keys| then |c.plan.keys| - |Rows(d)| else 0;
      && r.answer == (if !Lasts(c.fault.Fuse(), 1 + 5 * left) then Refused(Died)
                      else if left == 0 && d.report.None? then Refused(NoReport)
                      else Returned(c.runId))
      && (r.answer != Refused(Died) ==> r.root.runs[c.runId].lease == Some(Lease(Claimed(d), false)))
      && r.root.bindings == root.bindings
      && (forall id | id in root.runs && id != c.runId :: id in r.root.runs && r.root.runs[id] == root.runs[id])
      && r.root.runs.Keys == root.runs.Keys
  {
    hide After, Drive;
    AfterOneTuple(calls);
    var root := After(calls);
    var d := root.runs[c.runId];
    var g := (if d.lease.Some? then d.lease.value.generation else 1) + 1;
    var io := Put(Io(d, c.fault.Fuse(), true), PutLease(Lease(g, false)));
    if io.alive {
      DriveFinishesIff(c.plan, io, Memory(Rows(d), Logical(d), Physical(d)), g);
    }
  }

  // --------------------------------------------------------------- run, answered

  /** A run call whose key is bound answers from the binding and changes nothing. */
  lemma BoundAnswers(calls: seq<Call>, c: Call)
    requires c.RunCall? && c.key in After(calls).bindings
    ensures
      var root := After(calls);
      var b := root.bindings[c.key];
      Run(root, c) == Reply(root, if b.fingerprint == c.plan.fingerprints.run then Returned(b.runId)
                                  else Refused(Conflict))
  {
    hide After, RunNew;
    AfterInv(calls);
  }

  /** A run call with a new key whose id exists: it is bound to that run if the run has a report
      and its tuple is the same, and is a conflict otherwise. */
  lemma ExistingAnswers(calls: seq<Call>, c: Call)
    requires c.RunCall? && c.key !in After(calls).bindings && RunId(c.plan.fingerprints.run) in After(calls).runs
    ensures
      var root, run := After(calls), c.plan.fingerprints.run;
      var id := RunId(run);
      var d := root.runs[id];
      Run(root, c)
      == (if !(d.report.Some? && d.preflight.Some? && d.preflight.value.run == run)
          then Reply(root, Refused(Conflict))
          else if !Lasts(c.fault.Fuse(), 1) then Reply(root, Refused(Died))
          else Reply(root.(bindings := root.bindings[c.key := Binding(id, run)]), Returned(id)))
  {
    hide After, RunNew, RunId;
    AfterInv(calls);
  }

  const RUN_WRITES: nat := 6   // request, preflight, lease, two statuses, and the binding

  /** A run call with a new key and a new id, and no interrupt point. It returns its id and is bound
      to it if and only if the process completes the six writes around the loop and five for every
      key; else the directory stays unbound as the death left it, except that an error raised at
      the very first write leaves nothing. */
  lemma NewRunAnswers(calls: seq<Call>, c: Call)
    requires c.RunCall? && c.interrupt.None? && c.plan.Valid() && |c.plan.keys| > 0
    requires c.key !in After(calls).bindings && RunId(c.plan.fingerprints.run) !in After(calls).runs
    ensures
      var root, run, fuse := After(calls), c.plan.fingerprints.run, c.fault.Fuse();
      var id := RunId(run);
      var made := root.(runs := root.runs[id := C.After(c.plan, C.Start(fuse, None), [])]);
      Run(root, c)
      == (if c.fault == Raises(0) then Reply(root, Refused(Died))
          else if Lasts(fuse, RUN_WRITES + 5 * |c.plan.keys|)
          then Reply(made.(bindings := root.bindings[c.key := Binding(id, run)]), Returned(id))
          else Reply(made, Refused(Died)))
  {
    hide After, RunId, RunFresh, C.JustCommitted;
    FreshEnds(c.plan, c.fault.Fuse());
    RunFreshKnows(c.plan, c.fault.Fuse(), None);
  }

  lemma FreshEnds(p: Plan, fuse: Option<nat>)
    requires p.Valid() && |p.keys| > 0
    ensures
      var s := RunFresh(p, fuse, None);
      var writes := RUN_WRITES - 1 + 5 * |p.keys|;
      && s.end == (if Lasts(fuse, writes) then Finished else Died)
      && (s.end == Finished ==> s.io.fuse == if fuse.None? then None else Some(fuse.value - writes))
      && (s.io.disk.request <==> fuse != Some(0))
      && (s.end == Finished ==> s.io.disk.lease == Some(Lease(1, false)))
      && s.io.disk == C.After(p, C.Start(fuse, None), [])
  {
    hide Drive, LedgerSound, OpeningStatus, C.JustCommitted, C.Settled, PutAll, Finalize, C.Kept, C.MemoryAt;
    C.CreatePrefix(p, fuse);
    RequestFirst(p, fuse);
    var io := PutAll(Io(EMPTY_DISK, fuse, true), CreateWrites(p));
    if io.alive {
      var io1 := Put(io, PutStatus(OpeningStatus(p, Running, 1)));
      if io1.alive {
        DriveFinishesIff(p, io1, EMPTY_MEMORY, 1);
        var s := Drive(p, io1, EMPTY_MEMORY, 1, None);
        DriveKeeps(p, io1, EMPTY_MEMORY, 1, None);
        if s.end == Finished {
          C.OpeningSettles(p, io1.disk, OpeningStatus(p, Running, 1));
          C.NothingYet(p);
          C.DriveFinishes(p, io1, 1, None, {}, C.Level(0));
          LevelNone(p);
          C.FinalizeIdle(p, s.io, {});
          FinalizeKeeps(p, s.io, s.memory);
        }
      }
    }
  }

  lemma LevelNone(p: Plan)
    ensures C.MemoryAt(p, 0, {}) == EMPTY_MEMORY && C.Level(0).outcomes == 0
  {
    C.NothingYet(p);
  }

  /** The request is the first file of a directory. */
  lemma RequestFirst(p: Plan, fuse: Option<nat>)
    ensures PutAll(Io(EMPTY_DISK, fuse, true), CreateWrites(p)).disk.request <==> fuse != Some(0)
  {
    hide PutAll, OpeningStatus;
    var io, ws := Io(EMPTY_DISK, fuse, true), CreateWrites(p);
    assert ws[..0] == [] && ws[..4] == ws;
    PutAllNone(io);
    PutAllStep(io, ws, 0);
    PutAllStep(io, ws, 1);
    PutAllStep(io, ws, 2);
    PutAllStep(io, ws, 3);
  }

  /** Run ids are "checkpoint-" and the first 24 digits: two fingerprints of at least that length
      share an id if and only if they share those digits. */
  lemma RunIdsAgreeIff(a: string, b: string)
    requires |a| >= 24 && |b| >= 24
    ensures RunId(a) == "checkpoint-" + a[..24]
    ensures RunId(a) == RunId(b) <==> a[..24] == b[..24]
  {
    assert RunId(a)[11..] == a[..24] && RunId(b)[11..] == b[..24];
  }

  // ------------------------------------------------------- the end of a run, spelled out

  /** The end of a run: a fault when a key is missing, foreign or repeated; else it is finished if
      the status says what the rows say, and if not the status gets their state and the completion
      of the report, nothing else of it changing. */
  lemma FinalizeExactly(p: Plan, io: Io, m: Memory)
    requires io.alive
    ensures
      var s := Finalize(p, io, m);
      var state := if exists r | r in m.rows :: r.outcome == Retryable then Blocked else Completed;
      if !((forall i, j | 0 <= i < j < |m.rows| :: m.rows[i].key != m.rows[j].key)
           && (forall key :: key in p.keys <==> exists r | r in m.rows :: r.key == key))
      then s == Session(io, m, LedgerFault)
      else if io.disk.status.None? then s == Session(io, m, NotFound)
      else if io.disk.report.None? then s == Session(io, m, NoReport)
      else if io.disk.status.value.state == state then s == Session(io, m, Finished)
      else if !Lasts(io.fuse, 1) then s.end == Died && s.io.disk == io.disk
      else s.end == Finished && s.io.disk == io.disk.(status := Some(io.disk.status.value.(
             state := state, completion := Some(io.disk.report.value.completion))))
  {
    hide KeysOf;
    Gate.RowsDistinctIff(m.rows);
    KeysAgree(p, m.rows);
    RetryableCounted(m.rows);
  }

  lemma KeysAgree(p: Plan, rows: seq<Row>)
    ensures KeysOf(rows) == SetOf(p.keys) <==>
      forall key :: key in p.keys <==> exists r | r in rows :: r.key == key
  {
    forall key ensures key in KeysOf(rows) <==> exists r | r in rows :: r.key == key {}
    forall key ensures key in SetOf(p.keys) <==> key in p.keys {}
  }

  lemma {:induction false} RetryableCounted(rows: seq<Row>)
    ensures CountOf(rows, Retryable) > 0 <==> exists r | r in rows :: r.outcome == Retryable
  {
    if |rows| > 0 {
      RetryableCounted(rows[..|rows| - 1]);
      assert rows == rows[..|rows| - 1] + [rows[|rows| - 1]];
    }
  }

  /** The interrupt marker on any directory: the lease is marked if it is there; report and status
      are relabelled, the report if it is there, but only when there is a status; the rest stays. */
  lemma MarkerLeaves(d: Disk)
    ensures ApplyAll(d, InterruptWrites(d)) == d.(
      lease := if d.lease.Some? then Some(Lease(d.lease.value.generation, true)) else None,
      report := if d.report.Some? && d.status.Some?
                then Some(d.report.value.(state := Interrupted, completion := INTERRUPTED_COMPLETION))
                else d.report,
      status := if d.status.Some?
                then Some(d.status.value.(state := Interrupted, completion := Some(INTERRUPTED_COMPLETION)))
                else None)
  {
    hide ApplyAll;
    var a := if d.lease.Some? then [PutLease(d.lease.value.(interrupted := true))] else [];
    var b := if d.report.Some? && d.status.Some? then [PutReport(InterruptReport(d.report.value))] else [];
    var c := if d.status.Some? then [PutStatus(InterruptStatus(d.status.value))] else [];
    ApplyAllAppends(d, a + b, c);
    ApplyAllAppends(d, a, b);
    if d.lease.Some? { ApplyOne(d, a[0]); } else { ApplyNone(d); }
    var d1 := ApplyAll(d, a);
    if d.report.Some? && d.status.Some? { ApplyOne(d1, b[0]); } else { ApplyNone(d1); }
    var d2 := ApplyAll(d1, b);
    if d.status.Some? { ApplyOne(d2, c[0]); } else { ApplyNone(d2); }
  }

  lemma {:induction false} ApplyAllAppends(d: Disk, a: seq<Write>, b: seq<Write>)
    ensures ApplyAll(d, a + b) == ApplyAll(ApplyAll(d, a), b)
  {
    hide Apply;
    if |b| == 0 {
      assert a + b == a;
    } else {
      var init, last := b[..|b| - 1], b[|b| - 1];
      ApplyAllAppends(d, a, init);
      assert (a + b)[..|a + b| - 1] == a + init && (a + b)[|a + b| - 1] == last;
    }
  }

  lemma ApplyOne(d: Disk, w: Write)
    ensures ApplyAll(d, [w]) == Apply(d, w)
  {
    assert [w][..0] == [];
  }

  lemma ApplyNone(d: Disk)
    ensures ApplyAll(d, []) == d
  {
  }

  /** The report's conservation flag: the ledger is not full yet, or it has one row for every
      selected key, and no other. */
  lemma PartitionExactly(p: Plan, rows: seq<Row>)
    ensures PartitionHolds(p, rows) <==>
      || |rows| < |p.keys|
      || (&& |rows| == |p.keys|
          && (forall i, j | 0 <= i < j < |rows| :: rows[i].key != rows[j].key)
          && (forall key :: key in p.keys <==> exists r | r in rows :: r.key == key))
  {
    hide KeysOf, TerminalCount, PendingCount, AcceptedKeys, ExcludedKeys;
    Gate.RowsDistinctIff(rows);
    CountsSumToLength(rows);
    KeysSplit(rows);
    KeysAgree(p, rows);
    if |rows| >= |p.keys| {
      assert p.keys[..|p.keys|] == p.keys;
    }
  }

  // --------------------------------------------- what an undisturbed run leaves behind

  /** An undisturbed run writes one outcome and one attempt row for every selected key, in order
      and with what processing that key gives, and all five documents are those of the last key. */
  lemma UninterruptedDocuments(p: Plan)
    requires p.Valid() && |p.keys| > 0
    ensures
      var d, n := RunFresh(p, None, None).io.disk, |p.keys|;
      && d.request && d.preflight == Some(p.fingerprints) && d.lease == Some(Lease(1, false))
      && d.outcomes.Some? && d.outcomes.value.revision == 1 + n && |Rows(d)| == n
      && (forall i | 0 <= i < n ::
            Rows(d)[i].key == p.keys[i] && Rows(d)[i].index == i
            && Rows(d)[i].outcome == p.process(p.keys[i], i).outcome)
      && d.attempts.Some? && d.attempts.value.revision == 1 + n && |Logical(d)| == n
      && (forall i | 0 <= i < n ::
            Logical(d)[i].key == p.keys[i] && Logical(d)[i].index == i
            && Logical(d)[i].sources == p.process(p.keys[i], i).sources)
      && Physical(d) == C.Sources(Logical(d))
      && d.checkpoint == Some(CheckpointOf(p, 1 + n, Rows(d)))
      && d.report == Some(ReportOf(p, 1 + n, Memory(Rows(d), Logical(d), Physical(d))))
      && d.status == Some(StatusOf(p, 1 + n, Rows(d)))
  {
    hide ReportOf, StatusOf, CheckpointOf;
    C.UninterruptedRun(p);
    NothingTorn(p, |p.keys|);
    FreshEnds(p, None);
  }

  lemma {:induction false} NothingTorn(p: Plan, n: nat)
    requires n <= |p.keys|
    ensures C.Kept(p, n, {}) == seq(n, i requires 0 <= i < n => AttemptAt(p, i))
  {
    if n > 0 { NothingTorn(p, n - 1); }
  }

  // ------------------------------------------------------- an interrupted run, answered

  /** The number of keys after which a loop stops that begins with `from` keys and has this interrupt point. */
  function StopAt(from: nat, interrupt: int): nat {
    if interrupt <= from then from + 1 else interrupt
  }

  /** A directory whose marker carries every label. */
  predicate Marked(d: Disk, generation: nat) {
    && d.lease == Some(Lease(generation, true))
    && d.report.Some? && d.report.value.state == Interrupted && d.report.value.completion == INTERRUPTED_COMPLETION
    && d.status.Some? && d.status.value.state == Interrupted
    && d.status.value.completion == Some(INTERRUPTED_COMPLETION)
  }

  /** A loop with an interrupt point stops right after the first commit that reaches it, marks the
      three documents, and needs those three writes more; a point past the last key is as none. */
  lemma {:induction false} DriveInterrupts(p: Plan, io: Io, m: Memory, generation: nat, interrupt: int)
    requires io.alive && io.disk.lease == Some(Lease(generation, false)) && |m.rows| < |p.keys|
    ensures
      var s, stop := Drive(p, io, m, generation, Some(interrupt)), StopAt(|m.rows|, interrupt);
      var writes := 5 * (stop - |m.rows|) + 3;
      && (stop > |p.keys| ==> s == Drive(p, io, m, generation, None))
      && (stop <= |p.keys| ==>
            && s.end == (if Lasts(io.fuse, writes) then InterruptedEnd else Died)
            && (s.end == InterruptedEnd ==>
                  && s.io.fuse == (if io.fuse.None? then None else Some(io.fuse.value - writes))
                  && Marked(s.io.disk, generation) && |Rows(s.io.disk)| == stop))
    decreases |p.keys| - |m.rows|
  {
    hide PutAll, CommitWrites, Extend, InterruptWrites, ReportOf, StatusOf, CheckpointOf, ApplyAll, Marked;
    var m' := Extend(p, m);
    ExtendOne(p, m);
    DriveStep(p, io, m, generation, Some(interrupt));
    DriveStep(p, io, m, generation, None);
    CommitWhole(p, io, 2 + |m.rows|, m');
    var io' := PutAll(io, CommitWrites(p, 2 + |m.rows|, m'));
    if io'.alive {
      if |m'.rows| >= interrupt {
        MarkWhole(io', generation);
      } else if |m'.rows| < |p.keys| {
        DriveInterrupts(p, io', m', generation, interrupt);
      }
    }
  }

  lemma MarkWhole(io: Io, generation: nat)
    requires io.alive && io.disk.lease == Some(Lease(generation, false))
    requires io.disk.report.Some? && io.disk.status.Some?
    ensures
      var io' := PutAll(io, InterruptWrites(io.disk));
      && io'.alive == Lasts(io.fuse, 3)
      && (io'.alive ==>
            && io'.fuse == (if io.fuse.None? then None else Some(io.fuse.value - 3))
            && Marked(io'.disk, generation) && io'.disk.outcomes == io.disk.outcomes)
  {
    hide PutAll, ApplyAll;
    var ws := InterruptWrites(io.disk);
    PutAllIsAPrefix(io, ws);
    MarkerLeaves(io.disk);
  }

  /** A run call with a new key, a new id and an interrupt point. With a point past the last key it
      is as without one. Else it is bound and returned too, if the process completes the writes
      around the loop, five for every key up to the point and the three of the marker: the
      directory is marked and has exactly the outcomes up to the point. */
  lemma InterruptedAnswers(calls: seq<Call>, c: Call)
    requires c.RunCall? && c.interrupt.Some? && c.plan.Valid() && |c.plan.keys| > 0
    requires c.key !in After(calls).bindings && RunId(c.plan.fingerprints.run) !in After(calls).runs
    ensures
      var root, run, fuse := After(calls), c.plan.fingerprints.run, c.fault.Fuse();
      var id, stop, r := RunId(run), StopAt(0, c.interrupt.value), Run(root, c);
      && (stop > |c.plan.keys| ==> r == Run(root, c.(interrupt := None)))
      && (stop <= |c.plan.keys| ==>
            if Lasts(fuse, RUN_WRITES + 3 + 5 * stop) then
              && r.answer == Returned(id)
              && r.root.bindings == root.bindings[c.key := Binding(id, run)]
              && r.root.runs.Keys == root.runs.Keys + {id}
              && (forall other | other in root.runs :: r.root.runs[other] == root.runs[other])
              && Marked(r.root.runs[id], 1) && Rows(r.root.runs[id]) == LedgerRows(c.plan, stop)
            else r.answer == Refused(Died) && r.root.bindings == root.bindings)
  {
    hide After, RunId, RunFresh, Marked;
    FreshInterrupts(c.plan, c.fault.Fuse(), c.interrupt.value);
    RunFreshKnows(c.plan, c.fault.Fuse(), c.interrupt);
  }

  lemma FreshInterrupts(p: Plan, fuse: Option<nat>, interrupt: int)
    requires p.Valid() && |p.keys| > 0
    ensures
      var s, stop := RunFresh(p, fuse, Some(interrupt)), StopAt(0, interrupt);
      var writes := RUN_WRITES + 2 + 5 * stop;
      && (stop > |p.keys| ==> s == RunFresh(p, fuse, None))
      && (stop <= |p.keys| ==>
            && s.end == (if Lasts(fuse, writes) then InterruptedEnd else Died)
            && (s.end == InterruptedEnd ==>
                  && s.io.fuse == (if fuse.None? then None else Some(fuse.value - writes))
                  && Marked(s.io.disk, 1) && Rows(s.io.disk) == LedgerRows(p, stop)))
  {
    hide Drive, OpeningStatus, PutAll, Finalize, Marked, LedgerRows;
    C.CreatePrefix(p, fuse);
    FreshRows(p, fuse, Some(interrupt));
    var io := PutAll(Io(EMPTY_DISK, fuse, true), CreateWrites(p));
    if io.alive {
      var io1 := Put(io, PutStatus(OpeningStatus(p, Running, 1)));
      if io1.alive { DriveInterrupts(p, io1, EMPTY_MEMORY, 1, interrupt); }
    }
  }

  /** Wherever a fresh run ends, its outcomes are those of the first keys. */
  lemma FreshRows(p: Plan, fuse: Option<nat>, interrupt: Option<int>)
    ensures
      var d := RunFresh(p, fuse, interrupt).io.disk;
      |Rows(d)| <= |p.keys| && Rows(d) == LedgerRows(p, |Rows(d)|)
  {
    hide RunFresh, C.AccountOf;
    C.TornWriteAccounting(p, C.Start(fuse, interrupt), []);
  }
}
