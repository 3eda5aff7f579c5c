/** Three schedules in which commits and heartbeats are single steps and one resume call at a
    time is at work, and a writer that looks at no generation still undoes something: a drifted
    resume sets the status back, the interrupt marker hands the lease back, and it takes the
    gate's verdict back for good. */
module Stale {
  import opened Options
  import opened Ledger
  import opened Sessions
  import opened CrashResume
  import opened Workers
  import opened Lapses
  import opened Fencing
  import L = Lagging
  import S = Schedules
  import Gate

  // ------------------------------------------------------ one worker, k turns

  function TurnsAlone(p: Plan, e: Effect, k: nat): Effect
    decreases k
  {
    if k == 0 then e else TurnsAlone(p, Turn(p, e.disk, e.worker), k - 1)
  }

  lemma {:induction false} TurnsAloneNext(p: Plan, e: Effect, k: nat)
    ensures
      var e' := TurnsAlone(p, e, k);
      TurnsAlone(p, e, k + 1) == Turn(p, e'.disk, e'.worker)
    decreases k
  {
    hide Turn;
    if k > 0 {
      TurnsAloneNext(p, Turn(p, e.disk, e.worker), k - 1);
    } else {
      assert TurnsAlone(p, e, 1) == TurnsAlone(p, Turn(p, e.disk, e.worker), 0);
    }
  }

  lemma CourseAdds(p: Plan, mode: Mode, ls: seq<Label>, l: Label)
    ensures Course(p, mode, ls + [l]) == NextTurn(p, Course(p, mode, ls), l)
  {
    assert (ls + [l])[..|ls|] == ls;
  }

  lemma {:induction false} CourseTurns(p: Plan, mode: Mode, ls: seq<Label>, w: nat, k: nat)
    requires w in Course(p, mode, ls).workers
    ensures
      var s := Course(p, mode, ls);
      var e := TurnsAlone(p, Effect(s.disk, s.workers[w]), k);
      Course(p, mode, ls + S.Turns(w, k)) == State(e.disk, s.workers[w := e.worker])
    decreases k
  {
    hide Turn;
    var s := Course(p, mode, ls);
    if k == 0 {
      assert ls + S.Turns(w, 0) == ls;
      assert s.workers[w := s.workers[w]] == s.workers;
    } else {
      CourseTurns(p, mode, ls, w, k - 1);
      TurnsAloneNext(p, Effect(s.disk, s.workers[w]), k - 1);
      assert ls + S.Turns(w, k) == (ls + S.Turns(w, k - 1)) + [Label.Go(w)];
      CourseAdds(p, mode, ls + S.Turns(w, k - 1), Label.Go(w));
    }
  }

  /** A section ends within any number of single steps that ends outside it. */
  lemma {:induction false} SectionWithin(p: Plan, e: Effect, k: nat) returns (j: nat)
    requires !Inside(S.Alone(p, e, k).worker.stage)
    ensures j <= k && Section(p, e) == S.Alone(p, e, j)
    decreases k
  {
    hide GoStep;
    j := 0;
    if Inside(e.worker.stage) {
      InsideGoesOn(p, e);
      j := SectionWithin(p, GoStep(p, e.disk, e.worker), k - 1);
      j := j + 1;
    }
  }

  /** Single steps of a worker that is scheduled alone are turns, when they end outside. */
  lemma {:induction false} StepsAreTurns(p: Plan, e: Effect, k: nat) returns (m: nat)
    requires !Inside(S.Alone(p, e, k).worker.stage)
    ensures TurnsAlone(p, e, m) == S.Alone(p, e, k)
    decreases k
  {
    hide GoStep, Section;
    m := 0;
    if k > 0 {
      var e1 := GoStep(p, e.disk, e.worker);
      var j := SectionWithin(p, e1, k - 1);
      S.AloneAdds(p, e1, j, k - 1 - j);
      assert j + (k - 1 - j) == k - 1;
      m := StepsAreTurns(p, Section(p, e1), k - 1 - j);
      m := m + 1;
    }
  }

  // ------------------------------------------------------ the first commit

  function FirstWorker(p: Plan, mode: Mode, stage: Stage): Worker
    requires |p.keys| > 0
  {
    Worker(true, 1, Extend(p, EMPTY_MEMORY), mode, stage)
  }

  function Once(p: Plan): Disk
    requires |p.keys| > 0
  {
    Committed(p, S.Started(p), 2, Extend(p, EMPTY_MEMORY), 5)
  }

  /** The run worker on its way to the first key. */
  lemma ToTheFirstKey(p: Plan, mode: Mode)
    requires mode.barrier == NoBarrier
    ensures TurnsAlone(p, Effect(Workers.Created(p, mode).disk, RunWorker(mode)), 2)
            == Effect(S.Started(p), Worker(true, 1, EMPTY_MEMORY, mode, AtKey))
  {
    hide OpeningStatus, Turn, TurnsAlone;
    var e := Effect(Workers.Created(p, mode).disk, RunWorker(mode));
    var w := Worker(true, 1, EMPTY_MEMORY, mode, BeatRead);
    OpeningTurn(p, mode);
    BeatTurn(p, S.Started(p), w);
    NoTurns(p, e);
    TurnsAloneNext(p, e, 0);
    TurnsAloneNext(p, e, 1);
  }

  lemma NoTurns(p: Plan, e: Effect)
    ensures TurnsAlone(p, e, 0) == e
  {
  }

  lemma OpeningTurn(p: Plan, mode: Mode)
    ensures Turn(p, Workers.Created(p, mode).disk, RunWorker(mode))
            == Effect(S.Started(p), Worker(true, 1, EMPTY_MEMORY, mode, BeatRead))
  {
    hide OpeningStatus, GoLoop, GoHold, GoMark, GoFinal, Section;
    S.CreatedDisk(p);
    PlainTurn(p, Workers.Created(p, mode).disk, RunWorker(mode));
  }

  lemma KeyTurn(p: Plan, d: Disk, w: Worker)
    requires w.stage == AtKey && |w.memory.rows| < |p.keys| && !Fenced(d, w.generation)
    requires w.mode.barrier == NoBarrier
    ensures Turn(p, d, w) == Effect(d, w.(memory := Extend(p, w.memory), stage := AtCommit))
  {
    hide Extend, Section, GoHold, GoMark, GoFinal, OpeningStatus;
    PlainTurn(p, d, w);
  }

  /** One key: processed, committed, heartbeat. */
  lemma KeyTurns(p: Plan, d: Disk, w: Worker)
    requires w.stage == AtKey && |w.memory.rows| < |p.keys| && !Fenced(d, w.generation)
    requires w.mode.barrier == NoBarrier
    ensures
      var w' := w.(memory := Extend(p, w.memory));
      TurnsAlone(p, Effect(d, w), 3)
      == Effect(Committed(p, d, 1 + |w'.memory.rows|, w'.memory, 5), AfterBeat(w'))
  {
    hide Turn, TurnsAlone, Extend, Committed;
    var e := Effect(d, w);
    var w' := w.(memory := Extend(p, w.memory), stage := AtCommit);
    var d' := Committed(p, d, 1 + |w'.memory.rows|, w'.memory, 5);
    KeyTurn(p, d, w);
    CommitTurn(p, d, w');
    BeatTurn(p, d', At(w', BeatRead));
    NoTurns(p, e);
    TurnsAloneNext(p, e, 0);
    TurnsAloneNext(p, e, 1);
    TurnsAloneNext(p, e, 2);
  }

  // -------------------------------------------------------------- the lock

  lemma LockedAdds(p: Plan, mode: Mode, ls: seq<Label>, l: Label)
    requires Locked(p, mode, ls) && (l.Resume? || l.Drift? ==> LockFree(Course(p, mode, ls)))
    ensures Locked(p, mode, ls + [l])
  {
    hide LockFree, Course;
    var all := ls + [l];
    forall k | 0 <= k < |all| && (all[k].Resume? || all[k].Drift?) ensures LockFree(Course(p, mode, all[..k])) {
      assert all[..k] == ls[..k];
      if k == |ls| { assert ls[..k] == ls; }
    }
  }

  lemma {:induction false} LockedTurns(p: Plan, mode: Mode, ls: seq<Label>, w: nat, k: nat)
    requires Locked(p, mode, ls)
    ensures Locked(p, mode, ls + S.Turns(w, k))
    decreases k
  {
    hide Locked, LockFree, Course;
    if k == 0 {
      assert ls + S.Turns(w, 0) == ls;
    } else {
      LockedTurns(p, mode, ls, w, k - 1);
      assert ls + S.Turns(w, k) == (ls + S.Turns(w, k - 1)) + [Label.Go(w)];
      LockedAdds(p, mode, ls + S.Turns(w, k - 1), Label.Go(w));
    }
  }

  lemma NothingScheduled(p: Plan, mode: Mode)
    ensures Locked(p, mode, []) && Course(p, mode, []) == Workers.Created(p, mode)
  {
  }

  // ------------------------------------------- a drifted resume, one status back

  /** The run worker before its first key, and a drifted resume that has read the status. */
  lemma DriftHasRead(p: Plan) returns (ls: seq<Label>)
    requires |p.keys| > 0
    ensures Locked(p, PLAIN, ls)
    ensures Course(p, PLAIN, ls)
            == State(S.Started(p), map[0 := Worker(true, 1, EMPTY_MEMORY, PLAIN, AtKey),
                                       1 := ResumeWorker(BlockWrite(OpeningStatus(p, Running, 1)))])
  {
    hide Course, OpeningStatus, TurnsAlone, Locked;
    NothingScheduled(p, PLAIN);
    var l1 := [] + S.Turns(0, 2);
    CourseTurns(p, PLAIN, [], 0, 2);
    LockedTurns(p, PLAIN, [], 0, 2);
    ToTheFirstKey(p, PLAIN);
    ls := l1 + [Label.Drift(1)];
    RunningStatus(p);
    CourseAdds(p, PLAIN, l1, Label.Drift(1));
    LockedAdds(p, PLAIN, l1, Label.Drift(1));
  }

  lemma RunningStatus(p: Plan)
    ensures OpeningStatus(p, Running, 1).state == Running
  {
  }

  /** The commit goes by in between. */
  lemma DriftIsOvertaken(p: Plan) returns (ls: seq<Label>)
    requires |p.keys| > 0
    ensures Locked(p, PLAIN, ls)
    ensures Course(p, PLAIN, ls)
            == State(Once(p), map[0 := FirstWorker(p, PLAIN, AtKey),
                                  1 := ResumeWorker(BlockWrite(OpeningStatus(p, Running, 1)))])
  {
    hide Course, OpeningStatus, TurnsAlone, Locked, Turn, Committed, Extend, S.Started;
    var l1 := DriftHasRead(p);
    var w := Worker(true, 1, EMPTY_MEMORY, PLAIN, AtKey);
    StartedLease(p);
    KeyTurns(p, S.Started(p), w);
    CourseTurns(p, PLAIN, l1, 0, 3);
    LockedTurns(p, PLAIN, l1, 0, 3);
    S.FirstExtend(p);
    ls := l1 + S.Turns(0, 3);
  }

  lemma StartedLease(p: Plan)
    ensures S.Started(p).lease == Some(Lease(1, false))
  {
  }

  /** A drifted resume reads the status before a commit and writes it back after it: commit and
      heartbeat are undisturbed, and yet the status stands at key 0 under a ledger of one row. */
  lemma DriftSetsTheStatusBack(p: Plan) returns (ls: seq<Label>)
    requires |p.keys| > 0
    ensures Locked(p, PLAIN, ls + [Label.Go(1)])
    ensures
      var s := Course(p, PLAIN, ls);
      var d := Course(p, PLAIN, ls + [Label.Go(1)]).disk;
      && L.CursorsAgree(s.disk) && |Rows(s.disk)| == 1 && L.LeavesBehind(s, Label.Go(1))
      && SameLedgers(s.disk, d) && StatusCursor(d) == 0
      && d.status == Some(BlockStatus(OpeningStatus(p, Running, 1)))
  {
    hide Course, OpeningStatus, Locked, Turn, Once, Extend, L.CursorsAgree, Rows, MayResume,
      JustCommitted;
    ls := DriftIsOvertaken(p);
    OnceCommitted(p);
    LockedAdds(p, PLAIN, ls, Label.Go(1));
    CourseAdds(p, PLAIN, ls, Label.Go(1));
    BlockTurn(p, Once(p), ResumeWorker(BlockWrite(OpeningStatus(p, Running, 1))));
    OpeningCursor(p);
  }

  lemma OpeningCursor(p: Plan)
    ensures OpeningStatus(p, Running, 1).cursor == 0
  {
  }

  lemma BlockTurn(p: Plan, d: Disk, w: Worker)
    requires w.stage.BlockWrite?
    ensures Turn(p, d, w) == Effect(d.(status := Some(BlockStatus(w.stage.status))), At(w, Stopped))
  {
    hide Section, GoLoop, GoHold, GoMark, GoFinal, OpeningStatus;
    PlainTurn(p, d, w);
  }

  /** The directory after the first commit. */
  lemma OnceCommitted(p: Plan)
    requires |p.keys| > 0
    ensures JustCommitted(p, Once(p), {}, 1) && Once(p).lease == Some(Lease(1, false))
    ensures L.CursorsAgree(Once(p)) && Rows(Once(p)) == LedgerRows(p, 1)
    ensures |p.keys| >= 2 ==> MayResume(p, Once(p))
  {
    hide OpeningStatus, ReportOf, CheckpointOf, StatusOf, Kept, Settled;
    var d := S.Started(p);
    OpeningSettles(p, d, OpeningStatus(p, Running, 1));
    NothingYet(p);
    NotYetTorn(p, d, {}, Level(0));
    ExtendKeeps(p, 0, {});
    CommitSettles(p, d, {}, Level(0), 5);
    assert Advanced(Level(0), 0, 5) == Level(1);
    SettledCursors(p, Once(p), {}, Level(1));
    KeptLength(p, 1, {});
    if |p.keys| >= 2 { StillRunning(p, 1); }
  }

  lemma StillRunning(p: Plan, n: nat)
    requires n < |p.keys|
    ensures StatusOf(p, 1 + n, LedgerRows(p, n)).state == Running
  {
  }

  // -------------------------------------- the marker, and a lease handed back

  const ONE := Mode(Some(1), NoBarrier)

  /** The run worker at its interrupt point after the first key. */
  lemma AtTheMark(p: Plan) returns (ls: seq<Label>)
    requires |p.keys| >= 2
    ensures Locked(p, ONE, ls)
    ensures Course(p, ONE, ls) == State(Once(p), map[0 := FirstWorker(p, ONE, MarkLease)])
  {
    hide Course, OpeningStatus, TurnsAlone, Locked, Turn, Committed, Extend, S.Started;
    NothingScheduled(p, ONE);
    var l1 := [] + S.Turns(0, 2);
    CourseTurns(p, ONE, [], 0, 2);
    LockedTurns(p, ONE, [], 0, 2);
    ToTheFirstKey(p, ONE);
    StartedLease(p);
    KeyTurns(p, S.Started(p), Worker(true, 1, EMPTY_MEMORY, ONE, AtKey));
    S.FirstExtend(p);
    CourseTurns(p, ONE, l1, 0, 3);
    LockedTurns(p, ONE, l1, 0, 3);
    ls := l1 + S.Turns(0, 3);
  }

  /** A resume call starts, with the lock free. */
  lemma ResumeStarts(p: Plan, mode: Mode, ls: seq<Label>, w: nat)
    requires Locked(p, mode, ls) && LockFree(Course(p, mode, ls))
    requires w !in Course(p, mode, ls).workers && MayResume(p, Course(p, mode, ls).disk)
    ensures Locked(p, mode, ls + [Label.Resume(w)])
    ensures
      var s := Course(p, mode, ls);
      Course(p, mode, ls + [Label.Resume(w)])
      == s.(workers := s.workers[w := ResumeWorker(Claiming)])
  {
    hide Course, Locked, MayResume, LockFree;
    LockedAdds(p, mode, ls, Label.Resume(w));
    CourseAdds(p, mode, ls, Label.Resume(w));
  }

  /** A worker takes k turns. */
  lemma WorkerTurns(p: Plan, mode: Mode, ls: seq<Label>, w: nat, k: nat, e: Effect)
    requires Locked(p, mode, ls) && w in Course(p, mode, ls).workers
    requires TurnsAlone(p, Effect(Course(p, mode, ls).disk, Course(p, mode, ls).workers[w]), k) == e
    ensures Locked(p, mode, ls + S.Turns(w, k))
    ensures Course(p, mode, ls + S.Turns(w, k))
            == State(e.disk, Course(p, mode, ls).workers[w := e.worker])
  {
    hide Course, Locked, TurnsAlone;
    CourseTurns(p, mode, ls, w, k);
    LockedTurns(p, mode, ls, w, k);
  }

  lemma OneTurn(p: Plan, e: Effect)
    ensures TurnsAlone(p, e, 1) == Turn(p, e.disk, e.worker)
  {
    hide Turn;
    TurnsAloneNext(p, e, 0);
  }

  lemma MarkerReads(p: Plan, d: Disk, w: Worker)
    requires w.stage == MarkLease && d.lease.Some?
    ensures TurnsAlone(p, Effect(d, w), 1) == Effect(d, At(w, MarkLeaseWrite(d.lease.value)))
  {
    hide TurnsAlone, Section, GoLoop, GoHold, GoFinal, OpeningStatus;
    OneTurn(p, Effect(d, w));
    PlainTurn(p, d, w);
  }

  lemma MarkerWrites(p: Plan, d: Disk, w: Worker)
    requires w.stage.MarkLeaseWrite?
    ensures TurnsAlone(p, Effect(d, w), 1)
            == Effect(d.(lease := Some(w.stage.lease.(interrupted := true))), At(w, MarkRead))
  {
    hide TurnsAlone, Section, GoLoop, GoHold, GoFinal, OpeningStatus;
    OneTurn(p, Effect(d, w));
    PlainTurn(p, d, w);
  }

  lemma ClaimTurns(p: Plan, d: Disk)
    requires d.lease.Some?
    ensures
      var g := d.lease.value.generation + 1;
      TurnsAlone(p, Effect(d, ResumeWorker(Claiming)), 2)
      == Effect(d.(lease := Some(Lease(g, false))), Worker(false, g, EMPTY_MEMORY, PLAIN, LoadOutcomes))
  {
    hide TurnsAlone, Section, GoLoop, GoHold, GoMark, GoFinal, OpeningStatus;
    var e := Effect(d, ResumeWorker(Claiming));
    TurnsAloneNext(p, e, 1);
    OneTurn(p, e);
    PlainTurn(p, d, e.worker);
    PlainTurn(p, d, At(e.worker, ClaimWrite(d.lease.value.generation + 1)));
  }

  /** A claim whose lease has been handed back: the worker loads and is fenced out. */
  lemma LoadsAndIsFenced(p: Plan, d: Disk, w: Worker)
    requires w.stage == LoadOutcomes && Fenced(d, w.generation) && |Rows(d)| < |p.keys|
    ensures TurnsAlone(p, Effect(d, w), 3)
            == Effect(d, w.(memory := Memory(Rows(d), Logical(d), Physical(d)), stage := Stopped))
  {
    hide TurnsAlone, Section, GoHold, GoMark, GoFinal, OpeningStatus, Rows, Logical, Physical;
    var e := Effect(d, w);
    var w1 := w.(memory := Memory(Rows(d), [], []), stage := LoadAttempts);
    var w2 := w.(memory := Memory(Rows(d), Logical(d), Physical(d)), stage := AtKey);
    OneTurn(p, e);
    TurnsAloneNext(p, e, 1);
    TurnsAloneNext(p, e, 2);
    PlainTurn(p, d, w);
    PlainTurn(p, d, w1);
    PlainTurn(p, d, w2);
  }

  function Leased(d: Disk, g: nat, interrupted: bool): Disk {
    d.(lease := Some(Lease(g, interrupted)))
  }

  /** The marker has read the lease; then a resume has claimed the next generation. */
  lemma ClaimedBehindTheMarker(p: Plan) returns (ls: seq<Label>)
    requires |p.keys| >= 2
    ensures Locked(p, ONE, ls)
    ensures Course(p, ONE, ls)
            == State(Leased(Once(p), 2, false),
                     map[0 := FirstWorker(p, ONE, MarkLeaseWrite(Lease(1, false))),
                         1 := Worker(false, 2, EMPTY_MEMORY, PLAIN, LoadOutcomes)])
  {
    hide Course, TurnsAlone, Locked, Once, Extend, MayResume, JustCommitted, L.CursorsAgree, Rows, LedgerRows;
    var l1 := AtTheMark(p);
    OnceCommitted(p);
    var w0, d := FirstWorker(p, ONE, MarkLease), Once(p);
    MarkerReads(p, d, w0);
    WorkerTurns(p, ONE, l1, 0, 1, Effect(d, At(w0, MarkLeaseWrite(Lease(1, false)))));
    var l2 := l1 + S.Turns(0, 1);
    ResumeStarts(p, ONE, l2, 1);
    var l3 := l2 + [Label.Resume(1)];
    ClaimTurns(p, d);
    WorkerTurns(p, ONE, l3, 1, 2, Effect(Leased(d, 2, false), Worker(false, 2, EMPTY_MEMORY, PLAIN, LoadOutcomes)));
    ls := l3 + S.Turns(1, 2);
  }

  /** The marker writes the old lease, and the resume finds itself fenced out. */
  lemma FencedByTheMarker(p: Plan) returns (ls: seq<Label>)
    requires |p.keys| >= 2
    ensures Locked(p, ONE, ls)
    ensures
      var d := Leased(Once(p), 1, true);
      Course(p, ONE, ls)
      == State(d, map[0 := FirstWorker(p, ONE, MarkRead),
                      1 := Worker(false, 2, Memory(Rows(d), Logical(d), Physical(d)), PLAIN, Stopped)])
  {
    hide Course, TurnsAlone, Locked, Once, Extend, MayResume, JustCommitted, L.CursorsAgree, Logical, Physical;
    var l1 := ClaimedBehindTheMarker(p);
    var d2, d := Leased(Once(p), 2, false), Leased(Once(p), 1, true);
    var w0 := FirstWorker(p, ONE, MarkLeaseWrite(Lease(1, false)));
    var w1 := Worker(false, 2, EMPTY_MEMORY, PLAIN, LoadOutcomes);
    MarkerWrites(p, d2, w0);
    WorkerTurns(p, ONE, l1, 0, 1, Effect(d, At(w0, MarkRead)));
    var l2 := l1 + S.Turns(0, 1);
    OnceCommitted(p);
    LoadsAndIsFenced(p, d, w1);
    WorkerTurns(p, ONE, l2, 1, 3,
                Effect(d, w1.(memory := Memory(Rows(d), Logical(d), Physical(d)), stage := Stopped)));
    ls := l2 + S.Turns(1, 3);
  }

  /** The marker reads the lease, a resume claims generation 2, and the marker writes the lease
      back at generation 1: the resume is fenced out without a commit, and the next resume claims
      generation 2 a second time. */
  lemma MarkerHandsTheLeaseBack(p: Plan) returns (before: seq<Label>, ls: seq<Label>)
    requires |p.keys| >= 2
    ensures Locked(p, ONE, before) && Generation(Course(p, ONE, before).disk) == 2
    ensures Locked(p, ONE, before + [Label.Go(0)]) && Generation(Course(p, ONE, before + [Label.Go(0)]).disk) == 1
    ensures Locked(p, ONE, ls)
    ensures
      var s := Course(p, ONE, ls);
      && s.workers.Keys == {0, 1, 2} && Generation(s.disk) == 2
      && s.workers[1].generation == 2 && s.workers[1].stage == Stopped
      && s.workers[2].generation == 2 && Holder(s.disk, s.workers[2])
      && Rows(s.disk) == LedgerRows(p, 1)
  {
    hide Course, TurnsAlone, Locked, Once, Extend, MayResume, JustCommitted, L.CursorsAgree, Logical, Physical, Turn,
      LedgerRows;
    before := ClaimedBehindTheMarker(p);
    MarkerWrites(p, Leased(Once(p), 2, false), FirstWorker(p, ONE, MarkLeaseWrite(Lease(1, false))));
    OneTurn(p, Effect(Leased(Once(p), 2, false), FirstWorker(p, ONE, MarkLeaseWrite(Lease(1, false)))));
    LockedAdds(p, ONE, before, Label.Go(0));
    CourseAdds(p, ONE, before, Label.Go(0));
    OnceCommitted(p);
    ls := NextClaim(p);
  }

  lemma NextClaim(p: Plan) returns (ls: seq<Label>)
    requires |p.keys| >= 2
    ensures Locked(p, ONE, ls)
    ensures
      var s := Course(p, ONE, ls);
      && s.disk == Leased(Once(p), 2, false) && s.workers.Keys == {0, 1, 2}
      && s.workers[1].generation == 2 && s.workers[1].stage == Stopped
      && s.workers[2] == Worker(false, 2, EMPTY_MEMORY, PLAIN, LoadOutcomes)
  {
    hide Course, TurnsAlone, Locked, Once, Extend, JustCommitted, L.CursorsAgree, Rows, Logical, Physical, LedgerRows;
    var l1 := FencedByTheMarker(p);
    OnceCommitted(p);
    var d := Leased(Once(p), 1, true);
    ResumeStarts(p, ONE, l1, 2);
    var l2 := l1 + [Label.Resume(2)];
    ClaimTurns(p, d);
    WorkerTurns(p, ONE, l2, 2, 2,
                Effect(Leased(Once(p), 2, false), Worker(false, 2, EMPTY_MEMORY, PLAIN, LoadOutcomes)));
    ls := l2 + S.Turns(2, 2);
  }

  // ---------------------------------------------- the marker, and the gate

  /** A resume that is let through and not killed completes a directory that a commit left. */
  lemma ResumeCompletes(p: Plan, d: Disk, n: nat)
    requires n < |p.keys| && JustCommitted(p, d, {}, n) && MayResume(p, d) && d.lease == Some(Lease(1, false))
    ensures
      var d' := Sessions.Resume(p, d, false, None).io.disk;
      JustCommitted(p, d', {}, |p.keys|) && Generation(d') == 2
  {
    hide Drive, Kept, StatusOf, ReportOf, Settled;
    CommittedIsSettled(p, d, {}, n);
    LeaseSettles(p, d, {}, Level(n), Lease(2, false));
    var io := Io(Leased(d, 2, false), None, true);
    LoadedMemory(p, io.disk, {}, Level(n));
    DriveFinishes(p, io, 2, None, {}, Level(n));
    var _ := DriveSettles(p, io, 2, None, Account({}, 0, 0), Level(n));
    var s := Drive(p, io, MemoryAt(p, n, {}), 2, None);
    SettledFacts(p, s.io.disk, {}, Level(|p.keys|));
  }

  /** The run worker stands before its marker; a resume has completed the run. */
  lemma CompletedBehindTheMarker(p: Plan) returns (ls: seq<Label>)
    requires |p.keys| >= 2
    ensures Locked(p, ONE, ls)
    ensures
      var s := Course(p, ONE, ls);
      && JustCommitted(p, s.disk, {}, |p.keys|) && Generation(s.disk) == 2
      && 0 in s.workers && s.workers[0] == FirstWorker(p, ONE, MarkLease)
  {
    hide Course, TurnsAlone, Locked, Once, Extend, JustCommitted, L.CursorsAgree, Rows, Logical, Physical, LedgerRows,
      Sessions.Resume, S.Alone;
    var l1 := AtTheMark(p);
    OnceCommitted(p);
    var d := Once(p);
    ResumeStarts(p, ONE, l1, 1);
    var l2 := l1 + [Label.Resume(1)];
    var e := Effect(d, ResumeWorker(Claiming));
    var k := S.ResumeAlone(p, d);
    var m := StepsAreTurns(p, e, k);
    WorkerTurns(p, ONE, l2, 1, m, S.Alone(p, e, k));
    ls := l2 + S.Turns(1, m);
    ResumeCompletes(p, d, 1);
  }

  /** A series of resume calls, drifted ones included, killed or not. */
  function Resumes(p: Plan, d: Disk, calls: seq<Call>): Disk {
    if |calls| == 0 then d
    else ResumeCall(p, Resumes(p, d, calls[..|calls| - 1]), calls[|calls| - 1]).io.disk
  }

  /** Over a full ledger no resume replaces an interrupted report, and the gate refuses it. */
  lemma {:induction false} InterruptedReportStays(p: Plan, d: Disk, later: seq<Call>)
    requires d.report.Some? && d.report.value.state == Interrupted && |Rows(d)| >= |p.keys|
    ensures
      var d' := Resumes(p, d, later);
      d'.report == d.report && d'.outcomes == d.outcomes && !Gate.LifecyclePasses(p, d')
  {
    hide ResumeCall, Gate.LifecyclePasses;
    if |later| > 0 {
      var init := later[..|later| - 1];
      InterruptedReportStays(p, d, init);
      OneResumeLeavesTheReport(p, Resumes(p, d, init), later[|later| - 1]);
    }
    RefusedWhenInterrupted(p, Resumes(p, d, later));
  }

  lemma OneResumeLeavesTheReport(p: Plan, d: Disk, c: Call)
    requires d.report.Some? && |Rows(d)| >= |p.keys|
    ensures
      var d' := ResumeCall(p, d, c).io.disk;
      d'.report == d.report && d'.outcomes == d.outcomes
  {
    hide DriveKey, BlockStatus;
  }

  lemma RefusedWhenInterrupted(p: Plan, d: Disk)
    requires d.report.Some? && d.report.value.state == Interrupted
    ensures !Gate.LifecyclePasses(p, d)
  {
  }

  lemma FullDocuments(p: Plan, d: Disk)
    requires JustCommitted(p, d, {}, |p.keys|)
    ensures |Rows(d)| == |p.keys| && d.lease.Some? && d.report.Some? && d.status.Some?
  {
    hide Kept, ReportOf, CheckpointOf, StatusOf;
  }

  lemma Relabelled(d: Disk)
    requires d.lease.Some? && d.report.Some? && d.status.Some?
    ensures
      var d' := ApplyAll(d, InterruptWrites(d));
      && d'.report.Some? && d'.report.value.state == Interrupted && Rows(d') == Rows(d)
      && d'.status.Some? && d'.status.value.state == Interrupted
  {
    hide ApplyAll, InterruptWrites;
    MarkerDisk(d);
  }

  /** A run worker stopped between its last commit and its interrupt marker, overtaken by a resume
      that finishes the run, still relabels it: the gate's lifecycle checks passed before those
      turns, fail after them, and no later resume can make them pass again. */
  lemma StaleMarkerUndoesEligibility(p: Plan) returns (ls: seq<Label>, m: nat)
    requires p.Valid() && |p.keys| >= 2
    ensures Locked(p, ONE, ls + S.Turns(0, m))
    ensures
      var s, d' := Course(p, ONE, ls), Course(p, ONE, ls + S.Turns(0, m)).disk;
      && 0 in s.workers && Fenced(s.disk, s.workers[0].generation)
      && Gate.LifecyclePasses(p, s.disk) && !Gate.LifecyclePasses(p, d')
      && Rows(d') == Rows(s.disk) && |Rows(d')| == |p.keys|
      && d'.status.Some? && d'.status.value.state == Interrupted
      && forall later: seq<Call> :: !Gate.LifecyclePasses(p, Resumes(p, d', later))
  {
    hide Course, TurnsAlone, Locked, Extend, JustCommitted, Gate.LifecyclePasses, S.Alone, InterruptWrites, ApplyAll,
      Rows;
    ls := CompletedBehindTheMarker(p);
    var d, w := Course(p, ONE, ls).disk, FirstWorker(p, ONE, MarkLease);
    FullDocuments(p, d);
    Gate.FullCommitPasses(p, d);
    S.MarkAlone(p, d, w);
    m := StepsAreTurns(p, Effect(d, w), S.MARK_STEPS);
    var d' := ApplyAll(d, InterruptWrites(d));
    WorkerTurns(p, ONE, ls, 0, m, Effect(d', At(w, Stopped)));
    Relabelled(d);
    forall later: seq<Call> ensures !Gate.LifecyclePasses(p, Resumes(p, d', later)) {
      InterruptedReportStays(p, d', later);
    }
    RefusedWhenInterrupted(p, d');
  }
}
