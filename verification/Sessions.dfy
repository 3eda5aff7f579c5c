/** What one call of run or resume does to a run directory, with a process that may
    die at any durable write. These functions are the specification the imperative
    driver is proved against and the subject of the theorems about histories. */
module Sessions {
  import opened Options
  import opened Ledger

  /** The atomic replacement of one state document. */
  datatype Write =
    | PutRequest
    | PutPreflight(preflight: Fingerprints)
    | PutLease(lease: Lease)
    | PutOutcomes(outcomes: OutcomesDoc)
    | PutAttempts(attempts: AttemptsDoc)
    | PutCheckpoint(checkpoint: CheckpointDoc)
    | PutReport(report: ReportDoc)
    | PutStatus(status: StatusDoc)

  function Apply(d: Disk, w: Write): Disk {
    match w
    case PutRequest => d.(request := true)
    case PutPreflight(f) => d.(preflight := Some(f))
    case PutLease(l) => d.(lease := Some(l))
    case PutOutcomes(o) => d.(outcomes := Some(o))
    case PutAttempts(a) => d.(attempts := Some(a))
    case PutCheckpoint(c) => d.(checkpoint := Some(c))
    case PutReport(r) => d.(report := Some(r))
    case PutStatus(s) => d.(status := Some(s))
  }

  /** A process at work on a directory: `fuse` is the number of durable writes it still
      completes before it dies (None: it does not die). */
  datatype Io = Io(disk: Disk, fuse: Option<nat>, alive: bool)

  function Put(io: Io, w: Write): Io {
    if !io.alive then io
    else match io.fuse
      case None => io.(disk := Apply(io.disk, w))
      case Some(f) =>
        if f == 0 then io.(alive := false) else Io(Apply(io.disk, w), Some(f - 1), true)
  }

  function PutAll(io: Io, ws: seq<Write>): Io {
    if |ws| == 0 then io else Put(PutAll(io, ws[..|ws| - 1]), ws[|ws| - 1])
  }

  predicate Fenced(d: Disk, generation: nat) {
    d.lease.Some? && d.lease.value.generation != generation
  }

  /** The five writes of one commit, in their order. */
  function CommitWrites(p: Plan, revision: nat, m: Memory): seq<Write> {
    [PutOutcomes(OutcomesOf(revision, m)),
     PutAttempts(AttemptsOf(revision, m)),
     PutCheckpoint(CheckpointOf(p, revision, m.rows)),
     PutReport(ReportOf(p, revision, m)),
     PutStatus(StatusOf(p, revision, m.rows))]
  }

  function InterruptReport(r: ReportDoc): ReportDoc {
    r.(state := Interrupted, completion := INTERRUPTED_COMPLETION)
  }

  function InterruptStatus(s: StatusDoc): StatusDoc {
    s.(state := Interrupted, completion := Some(INTERRUPTED_COMPLETION))
  }

  /** Lease, report, status: the interrupt marker looks at no fence. It skips an absent lease
      or report, and gives up after the lease when there is no status. */
  function InterruptWrites(d: Disk): seq<Write> {
    (if d.lease.Some? then [PutLease(d.lease.value.(interrupted := true))] else [])
    + (if d.report.Some? && d.status.Some? then [PutReport(InterruptReport(d.report.value))] else [])
    + (if d.status.Some? then [PutStatus(InterruptStatus(d.status.value))] else [])
  }

  /** How a worker ends that has marked the run. */
  function MarkedEnd(d: Disk, alive: bool): End {
    if !alive then Died else if d.status.None? then NotFound else InterruptedEnd
  }

  datatype End =
    | Finished          // the call returned a result
    | InterruptedEnd    // run stopped at its interrupt point
    | Died              // the process died at a durable write
    | FencedOut         // the lease has another generation
    | LedgerFault       // duplicate or missing keys at the end of a run
    | NoReport          // no report to return
    | NotFound          // there is no such run
    | NotResumable      // the run has not reached "running"
    | Terminal          // the run is blocked and may not be resumed
    | Conflict          // another tuple
    | DriftBlocked      // another tuple, and the run has been marked blocked

  datatype Session = Session(io: Io, memory: Memory, end: End)

  /** One key: fence, process, commit, and the interrupt point. An end other than
      Finished leaves the loop. */
  function DriveKey(p: Plan, io: Io, m: Memory, generation: nat, interrupt: Option<int>): Session
    requires |m.rows| < |p.keys|
  {
    if Fenced(io.disk, generation) then Session(io, m, FencedOut)
    else
      var m' := Extend(p, m);
      var io' := PutAll(io, CommitWrites(p, 2 + |m.rows|, m'));
      if !io'.alive then Session(io', m', Died)
      else if interrupt.Some? && |m'.rows| >= interrupt.value then
        var io'' := PutAll(io', InterruptWrites(io'.disk));
        Session(io'', m', MarkedEnd(io'.disk, io''.alive))
      else Session(io', m', Finished)
  }

  /** The key loop that run and resume share. */
  function Drive(p: Plan, io: Io, m: Memory, generation: nat, interrupt: Option<int>): Session
    decreases |p.keys| - |m.rows|
  {
    if |m.rows| >= |p.keys| then Session(io, m, Finished)
    else
      var s := DriveKey(p, io, m, generation, interrupt);
      if s.end == Finished then Drive(p, s.io, s.memory, generation, interrupt) else s
  }

  /** Creating the directory: request, preflight, lease of generation 1, status. */
  function CreateWrites(p: Plan): seq<Write> {
    [PutRequest, PutPreflight(p.fingerprints), PutLease(Lease(1, false)),
     PutStatus(OpeningStatus(p, Created, 0))]
  }

  predicate LedgerSound(p: Plan, rows: seq<Row>) {
    && |KeysOf(rows)| == |rows|
    && KeysOf(rows) == SetOf(p.keys)
  }

  /** The end of a run: the ledger checks, and the terminal status if it is not there yet. */
  function Finalize(p: Plan, io: Io, m: Memory): Session {
    var state := if CountOf(m.rows, Retryable) > 0 then Blocked else Completed;
    if !LedgerSound(p, m.rows) then Session(io, m, LedgerFault)
    else if io.disk.status.None? then Session(io, m, NotFound)
    else if io.disk.report.None? then Session(io, m, NoReport)
    else if io.disk.status.value.state == state then Session(io, m, Finished)
    else
      var io' := Put(io, PutStatus(io.disk.status.value.(
        state := state, completion := Some(io.disk.report.value.completion))));
      Session(io', m, if io'.alive then Finished else Died)
  }

  /** Execution of a freshly created directory. */
  function Execute(p: Plan, io: Io, interrupt: Option<int>): Session {
    var generation := if io.disk.lease.Some? then io.disk.lease.value.generation else 1;
    var io1 := Put(io, PutStatus(OpeningStatus(p, Running, 1)));
    if !io1.alive then Session(io1, EMPTY_MEMORY, Died)
    else
      var s := Drive(p, io1, EMPTY_MEMORY, generation, interrupt);
      if s.end == Finished then Finalize(p, s.io, s.memory) else s
  }

  /** A run call on a directory that does not exist yet. */
  function RunFresh(p: Plan, fuse: Option<nat>, interrupt: Option<int>): Session {
    var io := PutAll(Io(EMPTY_DISK, fuse, true), CreateWrites(p));
    if io.alive then Execute(p, io, interrupt) else Session(io, EMPTY_MEMORY, Died)
  }

  function BlockStatus(s: StatusDoc): StatusDoc {
    s.(state := Blocked)
  }

  /** The loading and the key loop of a resume that passed its guards. */
  function Reclaim(p: Plan, d: Disk, fuse: Option<nat>): Session {
    var generation := (if d.lease.Some? then d.lease.value.generation else 1) + 1;
    var io := Put(Io(d, fuse, true), PutLease(Lease(generation, false)));
    if !io.alive then Session(io, EMPTY_MEMORY, Died)
    else
      var m := Memory(Rows(io.disk), Logical(io.disk), Physical(io.disk));
      var s := Drive(p, io, m, generation, None);
      if s.end != Finished then s
      else if s.io.disk.report.None? then s.(end := NoReport)
      else s
  }

  /** A resume call with the catalog whose preflight is p. `keyBound` says that the call
      carries an idempotency key bound to this very run. */
  function Resume(p: Plan, d: Disk, keyBound: bool, fuse: Option<nat>): Session {
    var idle := Io(d, fuse, true);
    if d.status.None? then Session(idle, EMPTY_MEMORY, NotFound)
    else match d.status.value.state
      case Blocked => Session(idle, EMPTY_MEMORY, Terminal)
      case FailedRun => Session(idle, EMPTY_MEMORY, Terminal)
      case Completed =>
        if d.status.value.run != p.fingerprints.run
        then Session(idle, EMPTY_MEMORY, Conflict)
        else Session(idle, EMPTY_MEMORY, if d.report.Some? then Finished else NoReport)
      case Created => Session(idle, EMPTY_MEMORY, NotResumable)
      case _ =>
        if d.preflight.None? then Session(idle, EMPTY_MEMORY, NotFound)
        else if d.preflight.value != p.fingerprints then
          if keyBound then Session(idle, EMPTY_MEMORY, Conflict)
          else
            var io := Put(idle, PutStatus(BlockStatus(d.status.value)));
            Session(io, EMPTY_MEMORY, if io.alive then DriftBlocked else Died)
        else Reclaim(p, d, fuse)
  }

  // --------------------------------------------------------------- the lemmas

  function ApplyAll(d: Disk, ws: seq<Write>): Disk {
    if |ws| == 0 then d else Apply(ApplyAll(d, ws[..|ws| - 1]), ws[|ws| - 1])
  }

  /** A process with fuse f completes exactly the first f of a series of writes. */
  lemma {:induction false} PutAllIsAPrefix(io: Io, ws: seq<Write>)
    requires io.alive
    ensures io.fuse.None? ==> PutAll(io, ws) == io.(disk := ApplyAll(io.disk, ws))
    ensures io.fuse.Some? && io.fuse.value >= |ws| ==>
      PutAll(io, ws) == Io(ApplyAll(io.disk, ws), Some(io.fuse.value - |ws|), true)
    ensures io.fuse.Some? && io.fuse.value < |ws| ==>
      PutAll(io, ws) == Io(ApplyAll(io.disk, ws[..io.fuse.value]), Some(0), false)
  {
    if |ws| > 0 {
      var init := ws[..|ws| - 1];
      PutAllIsAPrefix(io, init);
      if io.fuse.Some? && io.fuse.value < |init| {
        assert init[..io.fuse.value] == ws[..io.fuse.value];
      }
    }
  }

  /** Once dead, a process changes nothing. */
  lemma {:induction false} DeadWritesNothing(io: Io, ws: seq<Write>, k: nat)
    requires k <= |ws| && !PutAll(io, ws[..k]).alive
    ensures PutAll(io, ws) == PutAll(io, ws[..k])
    decreases |ws| - k
  {
    if k == |ws| {
      assert ws[..k] == ws;
    } else {
      assert ws[..k + 1][..k] == ws[..k];
      DeadWritesNothing(io, ws, k + 1);
    }
  }

  /** The loop, one key at a time. */
  lemma DriveStep(p: Plan, io: Io, m: Memory, generation: nat, interrupt: Option<int>)
    requires |m.rows| < |p.keys| && !Fenced(io.disk, generation)
    ensures
      var m' := Extend(p, m);
      var io' := PutAll(io, CommitWrites(p, 2 + |m.rows|, m'));
      var s := Drive(p, io, m, generation, interrupt);
      if !io'.alive then s == Session(io', m', Died)
      else if interrupt.Some? && |m.rows| + 1 >= interrupt.value then
        && s.io == PutAll(io', InterruptWrites(io'.disk)) && s.memory == m'
        && s.end == MarkedEnd(io'.disk, s.io.alive)
      else s == Drive(p, io', m', generation, interrupt)
  {
  }
}
