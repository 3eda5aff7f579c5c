/** Series of run and resume calls on one caller root: the idempotency index, the run
    directories, and what no later call can change. */
module Idempotency {
  import opened Options
  import opened Ledger
  import opened Sessions

  datatype Binding = Binding(runId: string, fingerprint: string)

  datatype Root = Root(runs: map<string, Disk>, bindings: map<string, Binding>)

  const EMPTY_ROOT := Root(map[], map[])

  /** How a run or resume call may fail at a durable write: it never does, the process dies
      after some writes, or a persistence error is raised after some writes. */
  datatype Fault = NoFault | Dies(after: nat) | Raises(after: nat)
  {
    function Fuse(): Option<nat> {
      if NoFault? then None else Some(after)
    }
  }

  datatype Call =
    | RunCall(plan: Plan, key: string, interrupt: Option<int>, fault: Fault)
    | ResumeCall(plan: Plan, runId: string, presented: Option<string>, fault: Fault)

  datatype Answer = Returned(runId: string) | Refused(end: End)

  const ID_DIGITS: nat := 24

  /** The run id: a fixed prefix and the first 24 digits of the run fingerprint. */
  function RunId(fingerprint: string): string {
    "checkpoint-" + if |fingerprint| <= ID_DIGITS then fingerprint else fingerprint[..ID_DIGITS]
  }

  function Load(root: Root, id: string): Answer {
    if id !in root.runs || root.runs[id].status.None? || root.runs[id].report.None?
    then Refused(NotFound)
    else Returned(id)
  }

  datatype Reply = Reply(root: Root, answer: Answer)

  /** Binding the key is one more durable write. */
  function Bind(root: Root, key: string, id: string, fingerprint: string, fuse: Option<nat>): Reply {
    if key in root.bindings && root.bindings[key] != Binding(id, fingerprint)
    then Reply(root, Refused(Conflict))
    else if fuse == Some(0) then Reply(root, Refused(Died))
    else
      var root' := root.(bindings := root.bindings[key := Binding(id, fingerprint)]);
      Reply(root', Load(root', id))
  }

  /** Creating and executing a directory. A persistence error raised before the request is
      durable removes the directory again; a dead process leaves it. */
  function RunNew(root: Root, c: Call): Reply
    requires c.RunCall?
  {
    var id := RunId(c.plan.fingerprints.run);
    var s := RunFresh(c.plan, c.fault.Fuse(), c.interrupt);
    if s.end == Died && c.fault.Raises? && !s.io.disk.request then Reply(root, Refused(Died))
    else
      var root' := root.(runs := root.runs[id := s.io.disk]);
      if s.end !in {Finished, InterruptedEnd} then Reply(root', Refused(s.end))
      else Bind(root', c.key, id, c.plan.fingerprints.run, s.io.fuse)
  }

  function Run(root: Root, c: Call): Reply
    requires c.RunCall?
  {
    var wanted := c.plan.fingerprints.run;
    var id := RunId(wanted);
    if c.key in root.bindings then
      Reply(root, if root.bindings[c.key].fingerprint != wanted then Refused(Conflict)
                    else Load(root, root.bindings[c.key].runId))
    else if id in root.runs && root.runs[id].report.Some? then
      if root.runs[id].preflight.None? then Reply(root, Refused(NotFound))
      else if root.runs[id].preflight.value.run != wanted then Reply(root, Refused(Conflict))
      else Bind(root, c.key, id, wanted, c.fault.Fuse())
    else if id in root.runs then Reply(root, Refused(Conflict))
    else RunNew(root, c)
  }

  function ResumeAt(root: Root, c: Call): Reply
    requires c.ResumeCall?
  {
    if c.runId !in root.runs then Reply(root, Refused(NotFound))
    else
      var bound := c.presented.Some? && c.presented.value in root.bindings
        && root.bindings[c.presented.value].runId == c.runId;
      var s := Resume(c.plan, root.runs[c.runId], bound, c.fault.Fuse());
      Reply(root.(runs := root.runs[c.runId := s.io.disk]),
              if s.end == Finished then Returned(c.runId) else Refused(s.end))
  }

  function Step(root: Root, c: Call): Reply {
    match c
    case RunCall(_, _, _, _) => Run(root, c)
    case ResumeCall(_, _, _, _) => ResumeAt(root, c)
  }

  /** The root after a series of calls. */
  function After(calls: seq<Call>): Root {
    if |calls| == 0 then EMPTY_ROOT
    else Step(After(calls[..|calls| - 1]), calls[|calls| - 1]).root
  }

  // ------------------------------------------------------------ the invariant

  /** Documents once written stay; the fingerprints of a directory never change. */
  predicate Grows(d: Disk, d': Disk) {
    && (d.preflight.Some? ==> d'.preflight == d.preflight)
    && (d.status.Some? ==> d'.status.Some?)
    && (d.report.Some? ==> d'.report.Some?)
  }

  predicate KnowsItsTuple(id: string, d: Disk) {
    && (d.preflight.Some? ==> RunId(d.preflight.value.run) == id)
    && (d.status.Some? ==> d.preflight.Some? && d.lease.Some?)
    && (d.report.Some? ==> d.status.Some?)
  }

  predicate BoundTo(root: Root, b: Binding) {
    && b.runId in root.runs
    && root.runs[b.runId].preflight.Some?
    && root.runs[b.runId].preflight.value.run == b.fingerprint
    && root.runs[b.runId].status.Some? && root.runs[b.runId].report.Some?
  }

  ghost predicate Inv(root: Root) {
    && (forall id | id in root.runs :: KnowsItsTuple(id, root.runs[id]))
    && (forall key | key in root.bindings :: BoundTo(root, root.bindings[key]))
  }

  // ---------------------------------------------- what a session leaves alone

  predicate Touches(w: Write) {
    !w.PutPreflight? && !w.PutRequest?
  }

  lemma PutGrows(io: Io, w: Write)
    requires Touches(w)
    ensures Grows(io.disk, Put(io, w).disk)
    ensures io.disk.lease.Some? ==> Put(io, w).disk.lease.Some?
    ensures Put(io, w).disk.preflight == io.disk.preflight
    ensures Put(io, w).disk.request == io.disk.request
    ensures w.PutReport? && Put(io, w).alive ==> Put(io, w).disk.report.Some?
  {
  }

  lemma {:induction false} PutAllGrows(io: Io, ws: seq<Write>)
    requires forall w | w in ws :: Touches(w)
    ensures Grows(io.disk, PutAll(io, ws).disk)
    ensures io.disk.lease.Some? ==> PutAll(io, ws).disk.lease.Some?
    ensures PutAll(io, ws).disk.preflight == io.disk.preflight
    ensures PutAll(io, ws).disk.request == io.disk.request
  {
    hide Put;
    if |ws| > 0 {
      PutAllGrows(io, ws[..|ws| - 1]);
      PutGrows(PutAll(io, ws[..|ws| - 1]), ws[|ws| - 1]);
    }
  }

  /** What every session keeps of a directory. */
  predicate Keeps(d: Disk, d': Disk) {
    && Grows(d, d') && d'.preflight == d.preflight && d'.request == d.request
    && (d.lease.Some? ==> d'.lease.Some?)
  }

  lemma {:induction false} DriveKeeps(
      p: Plan, io: Io, m: Memory, generation: nat, interrupt: Option<int>)
    ensures
      var s := Drive(p, io, m, generation, interrupt);
      && Keeps(io.disk, s.io.disk)
      && (s.end == InterruptedEnd ==> s.io.disk.report.Some?)
    decreases |p.keys| - |m.rows|
  {
    hide PutAll, CommitWrites, InterruptWrites, Extend;
    if |m.rows| < |p.keys| && !Fenced(io.disk, generation) {
      var m' := Extend(p, m);
      ExtendOne(p, m);
      var ws := CommitWrites(p, 2 + |m.rows|, m');
      CommitTouches(p, 2 + |m.rows|, m');
      PutAllGrows(io, ws);
      var io' := PutAll(io, ws);
      if io'.alive {
        CommitReports(p, io, 2 + |m.rows|, m');
        if interrupt.Some? && |m'.rows| >= interrupt.value {
          MarkTouches(io'.disk);
          PutAllGrows(io', InterruptWrites(io'.disk));
        } else {
          DriveKeeps(p, io', m', generation, interrupt);
        }
      }
    }
  }

  lemma ExtendOne(p: Plan, m: Memory)
    requires |m.rows| < |p.keys|
    ensures |Extend(p, m).rows| == |m.rows| + 1
  {
  }

  lemma CommitTouches(p: Plan, revision: nat, m: Memory)
    ensures forall w | w in CommitWrites(p, revision, m) :: Touches(w)
  {
  }

  lemma MarkTouches(d: Disk)
    ensures forall w | w in InterruptWrites(d) :: Touches(w)
  {
  }

  lemma CommitReports(p: Plan, io: Io, revision: nat, m: Memory)
    requires PutAll(io, CommitWrites(p, revision, m)).alive
    ensures PutAll(io, CommitWrites(p, revision, m)).disk.report.Some?
  {
    hide ReportOf, StatusOf, CheckpointOf, OutcomesOf, AttemptsOf;
    var ws := CommitWrites(p, revision, m);
    var four := ws[..4];
    assert four[..3] == ws[..3] && four[3] == ws[3];
    assert ws[..5] == ws && ws[..|ws| - 1] == four;
    PutGrows(PutAll(io, ws[..3]), ws[3]);
    PutGrows(PutAll(io, four), ws[4]);
  }

  lemma FinalizeKeeps(p: Plan, io: Io, m: Memory)
    ensures
      var s := Finalize(p, io, m);
      && Keeps(io.disk, s.io.disk)
      && (s.end == Finished ==> s.io.disk.report.Some? && s.io.disk.status.Some?)
      && s.end != InterruptedEnd
  {
    hide LedgerSound;
  }

  lemma ExecuteKeeps(p: Plan, io: Io, interrupt: Option<int>)
    ensures
      var s := Execute(p, io, interrupt);
      && Keeps(io.disk, s.io.disk)
      && (s.end in {Finished, InterruptedEnd} ==>
            s.io.disk.report.Some? && s.io.disk.status.Some?)
  {
    hide Drive, Finalize, OpeningStatus;
    var generation := if io.disk.lease.Some? then io.disk.lease.value.generation else 1;
    var io1 := Put(io, PutStatus(OpeningStatus(p, Running, 1)));
    PutGrows(io, PutStatus(OpeningStatus(p, Running, 1)));
    if io1.alive {
      DriveKeeps(p, io1, EMPTY_MEMORY, generation, interrupt);
      var s := Drive(p, io1, EMPTY_MEMORY, generation, interrupt);
      FinalizeKeeps(p, s.io, s.memory);
    }
  }

  /** A directory made by a run call knows the tuple it was made for. */
  lemma RunFreshKnows(p: Plan, fuse: Option<nat>, interrupt: Option<int>)
    ensures
      var s := RunFresh(p, fuse, interrupt);
      var d := s.io.disk;
      && KnowsItsTuple(RunId(p.fingerprints.run), d)
      && (s.end in {Finished, InterruptedEnd} ==>
            d.report.Some? && d.status.Some? && d.preflight == Some(p.fingerprints))
  {
    hide Execute, OpeningStatus, RunId, PutAll;
    var io := PutAll(Io(EMPTY_DISK, fuse, true), CreateWrites(p));
    CreateKnows(p, fuse);
    if io.alive { ExecuteKeeps(p, io, interrupt); }
  }

  lemma PutAllStep(io: Io, ws: seq<Write>, i: nat)
    requires i < |ws|
    ensures PutAll(io, ws[..i + 1]) == Put(PutAll(io, ws[..i]), ws[i])
  {
    assert ws[..i + 1][..i] == ws[..i];
  }

  lemma CreateKnows(p: Plan, fuse: Option<nat>)
    ensures
      var io := PutAll(Io(EMPTY_DISK, fuse, true), CreateWrites(p));
      && io.disk.preflight in {None, Some(p.fingerprints)}
      && (io.disk.status.Some? ==> io.disk.preflight.Some? && io.disk.lease.Some?)
      && (io.alive ==> io.disk.status.Some? && io.disk.request) && io.disk.report.None?
  {
    hide OpeningStatus, PutAll;
    var io, ws := Io(EMPTY_DISK, fuse, true), CreateWrites(p);
    assert ws[..0] == [] && ws[..4] == ws;
    PutAllNone(io);
    PutAllStep(io, ws, 0);
    PutAllStep(io, ws, 1);
    PutAllStep(io, ws, 2);
    PutAllStep(io, ws, 3);
  }

  lemma PutAllNone(io: Io)
    ensures PutAll(io, []) == io
  {
  }

  lemma ResumeKeeps(p: Plan, d: Disk, keyBound: bool, fuse: Option<nat>)
    ensures
      var s := Resume(p, d, keyBound, fuse);
      && Keeps(d, s.io.disk)
      && (d.status.None? ==> s.io.disk == d)
      && (s.end == Finished ==> s.io.disk.status.Some? && s.io.disk.report.Some?)
  {
    hide Drive;
    if d.status.Some? && d.status.value.state in {Running, Interrupted}
       && d.preflight == Some(p.fingerprints) {
      var g := (if d.lease.Some? then d.lease.value.generation else 1) + 1;
      var io := Put(Io(d, fuse, true), PutLease(Lease(g, false)));
      if io.alive {
        DriveKeeps(p, io, Memory(Rows(io.disk), Logical(io.disk), Physical(io.disk)), g, None);
      }
    }
  }

  // -------------------------------------------------------- every single call

  predicate Continues(root: Root, root': Root) {
    && (forall id | id in root.runs :: id in root'.runs && Keeps(root.runs[id], root'.runs[id]))
    && (forall key | key in root.bindings ::
          key in root'.bindings && root'.bindings[key] == root.bindings[key])
  }

  lemma RunInv(root: Root, c: Call)
    requires Inv(root) && c.RunCall?
    ensures Inv(Run(root, c).root) && Continues(root, Run(root, c).root)
  {
    hide RunFresh, RunId;
    RunFreshKnows(c.plan, c.fault.Fuse(), c.interrupt);
  }

  lemma ResumeInv(root: Root, c: Call)
    requires Inv(root) && c.ResumeCall?
    ensures Inv(ResumeAt(root, c).root) && Continues(root, ResumeAt(root, c).root)
  {
    hide Resume, RunId;
    if c.runId in root.runs {
      var bound := c.presented.Some? && c.presented.value in root.bindings
        && root.bindings[c.presented.value].runId == c.runId;
      ResumeKeeps(c.plan, root.runs[c.runId], bound, c.fault.Fuse());
    }
  }

  lemma {:induction false} AfterInv(calls: seq<Call>)
    ensures Inv(After(calls))
  {
    hide Run, ResumeAt, Inv;
    if |calls| > 0 {
      AfterInv(calls[..|calls| - 1]);
      NextInv(After(calls[..|calls| - 1]), calls[|calls| - 1]);
    } else {
      EmptyInv();
    }
  }

  lemma EmptyInv()
    ensures Inv(EMPTY_ROOT)
  {
  }

  lemma NextInv(root: Root, c: Call)
    requires Inv(root)
    ensures Inv(Step(root, c).root) && Continues(root, Step(root, c).root)
  {
    hide Run, ResumeAt, Inv, Continues;
    if c.RunCall? { RunInv(root, c); } else { ResumeInv(root, c); }
  }

  lemma ContinuesOn(a: Root, b: Root, c: Root)
    requires Continues(a, b) && Continues(b, c)
    ensures Continues(a, c)
  {
  }

  // ----------------------------------------------------------- the theorems

  /** Whatever is called later, with whatever crashes: a bound key keeps its run and its
      fingerprint, and a directory keeps its fingerprints and never loses a document. */
  lemma {:induction false} BindingsAreForever(calls: seq<Call>, later: seq<Call>)
    ensures Continues(After(calls), After(calls + later))
  {
    hide Step, Continues, Inv;
    if |later| == 0 {
      assert calls + later == calls;
      Unchanged(After(calls));
    } else {
      var init := later[..|later| - 1];
      BindingsAreForever(calls, init);
      AfterInv(calls + init);
      NextInv(After(calls + init), later[|later| - 1]);
      assert (calls + later)[..|calls + later| - 1] == calls + init;
      assert (calls + later)[|calls + later| - 1] == later[|later| - 1];
      ContinuesOn(After(calls), After(calls + init), After(calls + later));
    }
  }

  lemma Unchanged(root: Root)
    ensures Continues(root, root)
  {
  }

  /** The key is new, and the truncated id of its tuple is that of another tuple's directory. */
  predicate Collides(root: Root, c: Call)
    requires c.RunCall?
  {
    var id := RunId(c.plan.fingerprints.run);
    && c.key !in root.bindings && id in root.runs && root.runs[id].preflight.Some?
    && root.runs[id].preflight.value.run != c.plan.fingerprints.run
  }

  /** No run call returns a run made for another tuple, and a tuple whose truncated id collides
      with another one's directory is refused without a change. */
  lemma ReturnedRunsMatch(calls: seq<Call>, c: Call)
    requires c.RunCall?
    ensures Collides(After(calls), c) ==> Run(After(calls), c) == Reply(After(calls), Refused(Conflict))
    ensures
      var r := Run(After(calls), c);
      r.answer.Returned? ==>
        && r.answer.runId in r.root.runs
        && r.root.runs[r.answer.runId].preflight.Some?
        && r.root.runs[r.answer.runId].preflight.value.run == c.plan.fingerprints.run
        && c.key in r.root.bindings
        && r.root.bindings[c.key] == Binding(r.answer.runId, c.plan.fingerprints.run)
  {
    hide RunFresh, RunId, After;
    AfterInv(calls);
    RunFreshKnows(c.plan, c.fault.Fuse(), c.interrupt);
  }

  /** Idempotency: once a run call has returned, the same call repeated at any later time
      returns the same run and changes nothing. */
  lemma RepeatedRunIsANoOp(calls: seq<Call>, c: Call, later: seq<Call>, again: Call)
    requires c.RunCall? && again.RunCall?
    requires again.key == c.key && again.plan.fingerprints.run == c.plan.fingerprints.run
    requires Run(After(calls), c).answer.Returned?
    ensures
      var before := After(calls + [c] + later);
      Run(before, again) == Reply(before, Run(After(calls), c).answer)
  {
    hide RunFresh, RunId, After, Keeps;
    ReturnedRunsMatch(calls, c);
    AfterOne(calls, c);
    BindingsAreForever(calls + [c], later);
    AfterInv(calls + [c] + later);
  }

  lemma AfterOne(calls: seq<Call>, c: Call)
    ensures After(calls + [c]) == Step(After(calls), c).root
  {
    assert (calls + [c])[..|calls|] == calls;
  }

  /** The call makes and executes a directory. */
  predicate Executes(root: Root, c: Call, id: string) {
    c.RunCall? && id !in root.runs && id in Run(root, c).root.runs
  }

  /** Each run directory is executed by at most one call, and only by one whose fingerprint
      has that id. */
  lemma ExecutedOnce(calls: seq<Call>, c: Call, later: seq<Call>, d: Call, id: string)
    requires Executes(After(calls), c, id)
    ensures id == RunId(c.plan.fingerprints.run)
    ensures !Executes(After(calls + [c] + later), d, id)
  {
    hide RunFresh, RunId, After, Keeps;
    AfterOne(calls, c);
    BindingsAreForever(calls + [c], later);
  }

  /** A directory may still be changed by some call. */
  predicate Open(d: Disk) {
    d.status.Some? && d.status.value.state in {Running, Interrupted}
  }

  lemma ClosedStays(root: Root, c: Call, id: string)
    requires id in root.runs && !Open(root.runs[id])
    ensures id in Step(root, c).root.runs && Step(root, c).root.runs[id] == root.runs[id]
  {
    hide RunFresh, RunId, Reclaim;
  }

  /** Terminal runs are frozen: a completed, blocked, failed or merely created directory is
      the same, lease included, after every later series of run, resume and drifted resume
      calls. */
  lemma {:induction false} TerminalIsFrozen(calls: seq<Call>, later: seq<Call>, id: string)
    requires id in After(calls).runs && !Open(After(calls).runs[id])
    ensures id in After(calls + later).runs && After(calls + later).runs[id] == After(calls).runs[id]
  {
    hide Step;
    if |later| == 0 {
      assert calls + later == calls;
    } else {
      var init := later[..|later| - 1];
      TerminalIsFrozen(calls, init, id);
      assert (calls + later)[..|calls + later| - 1] == calls + init;
      assert (calls + later)[|calls + later| - 1] == later[|later| - 1];
      ClosedStays(After(calls + init), later[|later| - 1], id);
    }
  }

  /** And only those are: every other directory of a reachable root can be changed, by a
      drifted resume as well as by one with its own tuple. */
  lemma FrozenIffClosed(calls: seq<Call>, id: string, plan: Plan)
    requires id in After(calls).runs
    ensures !Open(After(calls).runs[id]) <==>
      (forall c: Call :: Step(After(calls), c).root.runs[id] == After(calls).runs[id])
  {
    hide RunFresh, RunId, After, Drive, Reclaim;
    var root := After(calls);
    AfterInv(calls);
    var d := root.runs[id];
    forall c: Call | !Open(d) ensures Step(root, c).root.runs[id] == d {
      ClosedStays(root, c, id);
    }
    if Open(d) {
      var c := ResumeCall(plan.(fingerprints := d.preflight.value), id, None, Dies(1));
      ResumeMovesTheLease(c.plan, d);
      assert Step(root, c).root.runs[id] != d;
    }
  }

  lemma ResumeMovesTheLease(p: Plan, d: Disk)
    requires Open(d) && d.preflight == Some(p.fingerprints) && d.lease.Some?
    ensures Resume(p, d, false, Some(1)).io.disk.lease != d.lease
  {
    hide Extend, CommitWrites, PutAll, Drive;
    var g := d.lease.value.generation + 1;
    var io := Io(d.(lease := Some(Lease(g, false))), Some(0), true);
    assert Put(Io(d, Some(1), true), PutLease(Lease(g, false))) == io;
    DeadLoop(p, io, Memory(Rows(d), Logical(d), Physical(d)), g);
  }

  /** A process without a write left changes nothing in the key loop. */
  lemma DeadLoop(p: Plan, io: Io, m: Memory, generation: nat)
    requires io.alive && io.fuse == Some(0)
    ensures Drive(p, io, m, generation, None).io.disk == io.disk
  {
    hide Extend, CommitWrites, PutAll;
    if |m.rows| < |p.keys| && !Fenced(io.disk, generation) {
      DriveStep(p, io, m, generation, None);
      var ws := CommitWrites(p, 2 + |m.rows|, Extend(p, m));
      PutAllIsAPrefix(io, ws);
      assert ws[..0] == [];
      FiveWrites(p, 2 + |m.rows|, Extend(p, m));
    }
  }

  lemma FiveWrites(p: Plan, revision: nat, m: Memory)
    ensures |CommitWrites(p, revision, m)| == 5
  {
  }
}
