/** Histories of one run: a run call and any number of resume calls, each of which may
    die at any durable write. What is torn, what is lost, and what a finished resume
    restores. One worker is live at a time. */
module CrashResume {
  import opened Options
  import opened Ledger
  import opened Sessions

  // -------------------------------------------------------- the torn ledger

  /** The logical attempt rows of the first n keys, without the torn ones. */
  function Kept(p: Plan, n: nat, torn: set<nat>): seq<Attempt>
    requires n <= |p.keys|
  {
    if n == 0 then []
    else Kept(p, n - 1, torn) + (if n - 1 in torn then [] else [AttemptAt(p, n - 1)])
  }

  function Sources(attempts: seq<Attempt>): seq<string> {
    if |attempts| == 0 then []
    else Sources(attempts[..|attempts| - 1]) + attempts[|attempts| - 1].sources
  }

  /** What a worker holds after n keys when the attempt rows in `torn` were lost. */
  function MemoryAt(p: Plan, n: nat, torn: set<nat>): Memory
    requires n <= |p.keys|
  {
    Memory(LedgerRows(p, n), Kept(p, n, torn), Sources(Kept(p, n, torn)))
  }

  /** How far each of the five documents got. */
  datatype Cursors = Cursors(outcomes: nat, attempts: nat, checkpoint: nat, report: nat, status: nat)

  ghost predicate ReportFits(p: Plan, report: Option<ReportDoc>, n: nat, torn: set<nat>)
    requires n <= |p.keys|
  {
    if n == 0 then report.None?
    else
      report.Some? &&
      (report.value == ReportOf(p, 1 + n, MemoryAt(p, n, torn))
       || report.value == InterruptReport(ReportOf(p, 1 + n, MemoryAt(p, n, torn))))
  }

  /** The status is the one of its commit, or of the opening, except for its label: it may
      be marked interrupted, or blocked by a drifted resume. On a full commit only the
      interrupt marker, which writes the report first, can have changed the label. */
  ghost predicate StatusFits(p: Plan, status: Option<StatusDoc>, n: nat, report: Option<ReportDoc>)
    requires n <= |p.keys|
  {
    status.Some? &&
    if n == 0 then
      status.value in {OpeningStatus(p, Created, 0), OpeningStatus(p, Running, 1),
                       BlockStatus(OpeningStatus(p, Running, 1))}
    else
      var base := StatusOf(p, 1 + n, LedgerRows(p, n));
      || status.value == base
      || (&& status.value in {InterruptStatus(base), BlockStatus(base),
                              BlockStatus(InterruptStatus(base))}
          && (n < |p.keys| || (report.Some? && report.value.state == Interrupted)))
  }

  predicate Bounded(p: Plan, k: Cursors) {
    k.status <= k.report <= k.checkpoint <= k.attempts <= k.outcomes <= |p.keys|
  }

  /** All five documents at the same key. */
  function Level(n: nat): Cursors {
    Cursors(n, n, n, n, n)
  }

  predicate SameGeneration(d: Disk, d': Disk) {
    d.lease.Some? && d'.lease.Some? && d.lease.value.generation == d'.lease.value.generation
  }

  /** A directory that no worker is writing. */
  ghost predicate Settled(p: Plan, d: Disk, torn: set<nat>, k: Cursors) {
    && Bounded(p, k)
    && (forall i | i in torn :: i < k.outcomes)
    && (forall i | k.attempts <= i < k.outcomes :: i in torn)
    && d.request && d.preflight == Some(p.fingerprints) && d.lease.Some?
    && d.outcomes == (if k.outcomes == 0 then None
                      else Some(OutcomesDoc(1 + k.outcomes, LedgerRows(p, k.outcomes))))
    && d.attempts == (if k.attempts == 0 then None
                      else Some(AttemptsOf(1 + k.attempts, MemoryAt(p, k.attempts, torn))))
    && d.checkpoint == (if k.checkpoint == 0 then None
                        else Some(CheckpointOf(p, 1 + k.checkpoint, LedgerRows(p, k.checkpoint))))
    && ReportFits(p, d.report, k.report, torn)
    && StatusFits(p, d.status, k.status, d.report)
  }

  // ------------------------------------------------- lemmas about torn rows

  lemma {:induction false} KeptIgnoresLater(p: Plan, n: nat, torn: set<nat>, x: nat)
    requires n <= |p.keys| && x >= n
    ensures Kept(p, n, torn + {x}) == Kept(p, n, torn)
    ensures MemoryAt(p, n, torn + {x}) == MemoryAt(p, n, torn)
  {
    if n > 0 { KeptIgnoresLater(p, n - 1, torn, x); }
  }

  lemma {:induction false} KeptSkipsTorn(p: Plan, a: nat, n: nat, torn: set<nat>)
    requires a <= n <= |p.keys| && forall i | a <= i < n :: i in torn
    ensures Kept(p, n, torn) == Kept(p, a, torn)
    decreases n
  {
    if a < n { KeptSkipsTorn(p, a, n - 1, torn); }
  }

  lemma {:induction false} KeptLength(p: Plan, n: nat, torn: set<nat>)
    requires n <= |p.keys| && forall i | i in torn :: i < n
    ensures |Kept(p, n, torn)| == n - |torn|
    decreases n
  {
    if n == 0 {
      assert torn == {};
    } else if n - 1 in torn {
      var rest := torn - {n - 1};
      KeptLength(p, n - 1, rest);
      KeptIgnoresLater(p, n - 1, rest, n - 1);
      assert rest + {n - 1} == torn;
    } else {
      KeptLength(p, n - 1, torn);
    }
  }

  lemma ExtendKeeps(p: Plan, n: nat, torn: set<nat>)
    requires n < |p.keys| && n !in torn
    ensures Extend(p, MemoryAt(p, n, torn)) == MemoryAt(p, n + 1, torn)
  {
    LedgerExtends(p, n);
    var kept := Kept(p, n + 1, torn);
    assert kept == Kept(p, n, torn) + [AttemptAt(p, n)];
    assert kept[..|kept| - 1] == Kept(p, n, torn);
  }

  /** What a resume loads from a settled directory. */
  lemma LoadedMemory(p: Plan, d: Disk, torn: set<nat>, k: Cursors)
    requires Settled(p, d, torn, k)
    ensures Memory(Rows(d), Logical(d), Physical(d)) == MemoryAt(p, k.outcomes, torn)
  {
    KeptSkipsTorn(p, k.attempts, k.outcomes, torn);
    if k.outcomes == 0 { assert LedgerRows(p, 0) == []; }
  }

  // --------------------------------------------------- one commit, torn or not

  /** The cursors after the first j writes of the commit of key n. */
  function Advanced(k: Cursors, n: nat, j: nat): Cursors {
    Cursors(
      if j >= 1 then n + 1 else k.outcomes,
      if j >= 2 then n + 1 else k.attempts,
      if j >= 3 then n + 1 else k.checkpoint,
      if j >= 4 then n + 1 else k.report,
      if j >= 5 then n + 1 else k.status)
  }

  lemma ApplyAllStep(d: Disk, ws: seq<Write>, i: nat)
    requires i < |ws|
    ensures ApplyAll(d, ws[..i + 1]) == Apply(ApplyAll(d, ws[..i]), ws[i])
  {
    assert ws[..i + 1][..i] == ws[..i];
  }

  /** The directory after the first j writes of a commit. */
  function Committed(p: Plan, d: Disk, revision: nat, m: Memory, j: nat): Disk {
    d.(outcomes := if j >= 1 then Some(OutcomesOf(revision, m)) else d.outcomes,
       attempts := if j >= 2 then Some(AttemptsOf(revision, m)) else d.attempts,
       checkpoint := if j >= 3 then Some(CheckpointOf(p, revision, m.rows)) else d.checkpoint,
       report := if j >= 4 then Some(ReportOf(p, revision, m)) else d.report,
       status := if j >= 5 then Some(StatusOf(p, revision, m.rows)) else d.status)
  }

  lemma {:induction false} CommitPrefix(p: Plan, d: Disk, revision: nat, m: Memory, j: nat)
    requires j <= 5
    ensures ApplyAll(d, CommitWrites(p, revision, m)[..j]) == Committed(p, d, revision, m, j)
  {
    if j > 0 {
      CommitPrefix(p, d, revision, m, j - 1);
      ApplyAllStep(d, CommitWrites(p, revision, m), j - 1);
    }
  }

  lemma TearSettles(p: Plan, d: Disk, torn: set<nat>, k: Cursors)
    requires Settled(p, d, torn, k) && k.outcomes < |p.keys|
    ensures
      var n := k.outcomes;
      Settled(p, d.(outcomes := Some(OutcomesDoc(2 + n, LedgerRows(p, n + 1)))), torn + {n},
              k.(outcomes := n + 1))
  {
    hide StatusOf, CheckpointOf, ReportOf, Kept;
    KeptIgnoresLater(p, k.attempts, torn, k.outcomes);
    KeptIgnoresLater(p, k.report, torn, k.outcomes);
  }

  /** Only a stop between outcomes and attempts tears the row being committed. */
  lemma CommitSettles(p: Plan, d: Disk, torn: set<nat>, k: Cursors, j: nat)
    requires Settled(p, d, torn, k) && k.outcomes < |p.keys| && j <= 5
    ensures
      var n := k.outcomes;
      Settled(p, Committed(p, d, 2 + n, MemoryAt(p, n + 1, torn), j),
              if j == 1 then torn + {n} else torn, Advanced(k, n, j))
  {
    hide ReportOf, StatusOf, CheckpointOf, Kept;
    var n := k.outcomes;
    if j == 0 {
      assert Committed(p, d, 2 + n, MemoryAt(p, n + 1, torn), 0) == d;
    } else if j == 1 {
      TearSettles(p, d, torn, k);
      assert Advanced(k, n, 1) == k.(outcomes := n + 1);
    }
  }

  /** A directory whose last write completed the commit of key n - 1. */
  ghost predicate JustCommitted(p: Plan, d: Disk, torn: set<nat>, n: nat) {
    && 0 < n <= |p.keys|
    && Settled(p, d, torn, Level(n))
    && d.report == Some(ReportOf(p, 1 + n, MemoryAt(p, n, torn)))
    && d.status == Some(StatusOf(p, 1 + n, LedgerRows(p, n)))
  }

  /** The marker's three writes. */
  lemma MarkerDisk(d: Disk)
    requires d.lease.Some? && d.report.Some? && d.status.Some?
    ensures ApplyAll(d, InterruptWrites(d))
            == d.(lease := Some(d.lease.value.(interrupted := true)),
                  report := Some(InterruptReport(d.report.value)),
                  status := Some(InterruptStatus(d.status.value)))
  {
    var ws := InterruptWrites(d);
    assert ws[..0] == [] && ws[..3] == ws;
    ApplyAllStep(d, ws, 0);
    ApplyAllStep(d, ws, 1);
    ApplyAllStep(d, ws, 2);
  }

  /** The marker writes keep such a directory settled, wherever they stop. */
  lemma InterruptSettles(p: Plan, d: Disk, torn: set<nat>, n: nat, j: nat)
    requires JustCommitted(p, d, torn, n) && j <= |InterruptWrites(d)|
    ensures
      var d' := ApplyAll(d, InterruptWrites(d)[..j]);
      Settled(p, d', torn, Level(n)) && SameGeneration(d, d')
  {
    hide ReportOf, StatusOf, CheckpointOf;
    var ws := InterruptWrites(d);
    var d1 := d.(lease := Some(d.lease.value.(interrupted := true)));
    var d2 := d1.(report := Some(InterruptReport(d.report.value)));
    var d3 := d2.(status := Some(InterruptStatus(d.status.value)));
    assert ws[..0] == [];
    ApplyAllStep(d, ws, 0);
    assert ApplyAll(d, ws[..1]) == d1;
    ApplyAllStep(d, ws, 1);
    assert ApplyAll(d, ws[..2]) == d2;
    ApplyAllStep(d, ws, 2);
    assert ApplyAll(d, ws[..3]) == d3;
  }

  // --------------------------------------------------- accounting of crashes

  /** The torn keys so far, how many crashes tore one, and the crashes since the last complete
      commit. */
  datatype Account = Account(torn: set<nat>, tears: nat, lag: nat)

  const COMMIT_WRITES: nat := 5

  /** The account after a session that starts its key loop at `rows`, would leave it at
      `stop`, and has `fuse` writes left. It looks at the arithmetic of the fuse only:
      every fifth write ends a commit, and a death right after the first write of a commit
      tears the key of that commit. */
  function Book(a: Account, rows: nat, stop: nat, fuse: Option<nat>): Account {
    if rows >= stop then a
    else if fuse.None? || fuse.value >= COMMIT_WRITES * (stop - rows) then a.(lag := 0)
    else
      var commits, tears := fuse.value / COMMIT_WRITES, fuse.value % COMMIT_WRITES == 1;
      Account(
        if tears then a.torn + {rows + commits} else a.torn,
        if tears then a.tears + 1 else a.tears,
        (if commits == 0 then a.lag else 0) + 1)
  }

  /** Where the key loop ends when nothing kills the process. */
  function StopOf(p: Plan, rows: nat, interrupt: Option<int>): nat {
    if rows >= |p.keys| then rows
    else if interrupt.None? || interrupt.value >= |p.keys| then |p.keys|
    else if interrupt.value <= rows then rows + 1
    else interrupt.value
  }

  lemma BookOneCommit(a: Account, rows: nat, stop: nat, fuse: Option<nat>)
    requires rows < stop && (fuse.Some? ==> fuse.value >= COMMIT_WRITES)
    ensures Book(a, rows, stop, fuse)
            == Book(a.(lag := 0), rows + 1, stop,
                    if fuse.None? then None else Some(fuse.value - COMMIT_WRITES))
  {
  }

  /** A commit that dies: the directory stays settled and at most one key further. */
  lemma DyingCommit(p: Plan, io: Io, a: Account, k: Cursors) returns (k': Cursors)
    requires io.alive && Bounded(p, k) && Settled(p, io.disk, a.torn, k)
    requires k.outcomes < |p.keys| && k.outcomes - k.status <= a.lag
    requires io.fuse.Some? && io.fuse.value < COMMIT_WRITES
    ensures
      var n := k.outcomes;
      var io' := PutAll(io, CommitWrites(p, 2 + n, MemoryAt(p, n + 1, a.torn)));
      && !io'.alive
      && Bounded(p, k') && Settled(p, io'.disk, Book(a, n, n + 1, io.fuse).torn, k')
      && k'.outcomes - k'.status <= a.lag + 1
      && io'.disk.lease == io.disk.lease
  {
    hide ReportOf, StatusOf, CheckpointOf, Settled, PutAll, ApplyAll;
    var n, j := k.outcomes, io.fuse.value;
    var m' := MemoryAt(p, n + 1, a.torn);
    PutAllIsAPrefix(io, CommitWrites(p, 2 + n, m'));
    CommitPrefix(p, io.disk, 2 + n, m', j);
    CommitSettles(p, io.disk, a.torn, k, j);
    k' := Advanced(k, n, j);
  }

  /** A commit that goes through brings all five documents to the next key. */
  lemma LivingCommit(p: Plan, io: Io, torn: set<nat>, k: Cursors)
    requires io.alive && Bounded(p, k) && Settled(p, io.disk, torn, k)
    requires k.outcomes < |p.keys|
    requires io.fuse.Some? ==> io.fuse.value >= COMMIT_WRITES
    ensures
      var n := k.outcomes;
      var io' := PutAll(io, CommitWrites(p, 2 + n, MemoryAt(p, n + 1, torn)));
      && io'.alive
      && io'.fuse == (if io.fuse.None? then None else Some(io.fuse.value - COMMIT_WRITES))
      && JustCommitted(p, io'.disk, torn, n + 1)
      && io'.disk.lease == io.disk.lease
  {
    hide ReportOf, StatusOf, CheckpointOf, Settled, PutAll, ApplyAll;
    var n := k.outcomes;
    var m' := MemoryAt(p, n + 1, torn);
    var ws := CommitWrites(p, 2 + n, m');
    assert ws[..5] == ws;
    PutAllIsAPrefix(io, ws);
    CommitPrefix(p, io.disk, 2 + n, m', 5);
    CommitSettles(p, io.disk, torn, k, 5);
    assert Advanced(k, n, 5) == Level(n + 1);
  }

  lemma StatusIsThere(p: Plan, d: Disk, torn: set<nat>, n: nat)
    requires JustCommitted(p, d, torn, n)
    ensures d.status.Some?
  {
  }

  lemma MarkedSettles(p: Plan, io: Io, torn: set<nat>, n: nat)
    requires io.alive && JustCommitted(p, io.disk, torn, n)
    ensures
      var io' := PutAll(io, InterruptWrites(io.disk));
      && Settled(p, io'.disk, torn, Level(n))
      && SameGeneration(io.disk, io'.disk)
      && (io.fuse.None? ==> io'.alive)
      && io.disk.status.Some?
  {
    hide PutAll, ApplyAll, InterruptWrites, Settled, JustCommitted;
    StatusIsThere(p, io.disk, torn, n);
    var marks := InterruptWrites(io.disk);
    PutAllIsAPrefix(io, marks);
    var i := if io.fuse.None? || io.fuse.value >= |marks| then |marks| else io.fuse.value;
    assert marks[..|marks|] == marks;
    InterruptSettles(p, io.disk, torn, n, i);
  }

  /** The loop keeps a directory settled, and the account says what the loop cost. */
  lemma {:induction false} DriveSettles(
      p: Plan, io: Io, generation: nat, interrupt: Option<int>, a: Account, k: Cursors)
    returns (k': Cursors)
    requires io.alive && !Fenced(io.disk, generation)
    requires Bounded(p, k) && Settled(p, io.disk, a.torn, k) && k.outcomes - k.status <= a.lag
    ensures Bounded(p, k')
    ensures
      var s := Drive(p, io, MemoryAt(p, k.outcomes, a.torn), generation, interrupt);
      !Fenced(s.io.disk, generation) && s.end in {Finished, Died, InterruptedEnd}
    ensures
      var s := Drive(p, io, MemoryAt(p, k.outcomes, a.torn), generation, interrupt);
      var a' := Book(a, k.outcomes, StopOf(p, k.outcomes, interrupt), io.fuse);
      Settled(p, s.io.disk, a'.torn, k') && k'.outcomes - k'.status <= a'.lag
    decreases |p.keys| - k.outcomes
  {
    hide Settled, CommitWrites, InterruptWrites, PutAll, Kept, StatusOf, ReportOf, Drive, Extend,
      JustCommitted;
    var n := k.outcomes;
    if n >= |p.keys| {
      k' := k;
      DriveDone(p, io, MemoryAt(p, n, a.torn), generation, interrupt);
    } else {
      var m := MemoryAt(p, n, a.torn);
      var m' := MemoryAt(p, n + 1, a.torn);
      NotYetTorn(p, io.disk, a.torn, k);
      ExtendKeeps(p, n, a.torn);
      assert |m.rows| == n;
      var io' := PutAll(io, CommitWrites(p, 2 + n, m'));
      DriveStep(p, io, m, generation, interrupt);
      if io.fuse.Some? && io.fuse.value < COMMIT_WRITES {
        k' := DyingCommit(p, io, a, k);
      } else {
        LivingCommit(p, io, a.torn, k);
        CommittedIsSettled(p, io'.disk, a.torn, n + 1);
        k' := Level(n + 1);
        if interrupt.Some? && n + 1 >= interrupt.value {
          MarkedSettles(p, io', a.torn, n + 1);
        } else {
          BookOneCommit(a, n, StopOf(p, n, interrupt), io.fuse);
          k' := DriveSettles(p, io', generation, interrupt, a.(lag := 0), k');
        }
      }
    }
  }

  lemma DriveDone(p: Plan, io: Io, m: Memory, generation: nat, interrupt: Option<int>)
    requires |m.rows| >= |p.keys|
    ensures Drive(p, io, m, generation, interrupt) == Session(io, m, Finished)
  {
  }

  lemma CommittedIsSettled(p: Plan, d: Disk, torn: set<nat>, n: nat)
    requires JustCommitted(p, d, torn, n)
    ensures n <= |p.keys| && Settled(p, d, torn, Level(n))
  {
  }

  /** A loop that is neither killed nor interrupted commits every remaining key. */
  lemma {:induction false} DriveFinishes(
      p: Plan, io: Io, generation: nat, interrupt: Option<int>, torn: set<nat>, k: Cursors)
    requires io.alive && !Fenced(io.disk, generation)
    requires Bounded(p, k) && Settled(p, io.disk, torn, k)
    ensures
      var s := Drive(p, io, MemoryAt(p, k.outcomes, torn), generation, interrupt);
      && (s.end == Died <==> !s.io.alive)
      && (interrupt.None? ==> s.end != InterruptedEnd)
      && (io.fuse.None? ==> s.end != Died)
      && (s.end == Finished ==>
            && s.memory == MemoryAt(p, |p.keys|, torn)
            && (if k.outcomes < |p.keys| then JustCommitted(p, s.io.disk, torn, |p.keys|)
                else s.io == io))
    decreases |p.keys| - k.outcomes
  {
    hide Settled, CommitWrites, InterruptWrites, PutAll, Kept, StatusOf, ReportOf, Drive, Extend,
      JustCommitted;
    var n := k.outcomes;
    if n >= |p.keys| {
      DriveDone(p, io, MemoryAt(p, n, torn), generation, interrupt);
    } else {
      var m := MemoryAt(p, n, torn);
      NotYetTorn(p, io.disk, torn, k);
      ExtendKeeps(p, n, torn);
      assert |m.rows| == n;
      var io' := PutAll(io, CommitWrites(p, 2 + n, MemoryAt(p, n + 1, torn)));
      DriveStep(p, io, m, generation, interrupt);
      if io.fuse.Some? && io.fuse.value < COMMIT_WRITES {
        var _ := DyingCommit(p, io, Account(torn, 0, n), k);
      } else {
        LivingCommit(p, io, torn, k);
        CommittedIsSettled(p, io'.disk, torn, n + 1);
        if interrupt.Some? && n + 1 >= interrupt.value {
          MarkedSettles(p, io', torn, n + 1);
        } else {
          DriveFinishes(p, io', generation, interrupt, torn, Level(n + 1));
        }
      }
    }
  }

  lemma NotYetTorn(p: Plan, d: Disk, torn: set<nat>, k: Cursors)
    requires Settled(p, d, torn, k)
    ensures k.outcomes !in torn
  {
  }

  // ------------------------------------------------------------- histories

  /** The run call that creates the directory. */
  datatype Start = Start(fuse: Option<nat>, interrupt: Option<int>)

  /** A later resume call; other fingerprints than the plan's make it a drifted one. */
  datatype Call = Call(fingerprints: Fingerprints, keyBound: bool, fuse: Option<nat>)

  function ResumeCall(p: Plan, d: Disk, c: Call): Session {
    Resume(p.(fingerprints := c.fingerprints), d, c.keyBound, c.fuse)
  }

  /** The directory after a run call and a series of resume calls. */
  function After(p: Plan, start: Start, calls: seq<Call>): Disk {
    if |calls| == 0 then RunFresh(p, start.fuse, start.interrupt).io.disk
    else ResumeCall(p, After(p, start, calls[..|calls| - 1]), calls[|calls| - 1]).io.disk
  }

  /** The resume call is let through to the lease reclaim and the key loop. */
  predicate Reclaims(d: Disk, c: Call) {
    && d.status.Some? && d.status.value.state in {Running, Interrupted}
    && d.preflight == Some(c.fingerprints)
  }

  const RUN_HEADER: nat := 5      // request, preflight, lease, status created, status running
  const RESUME_HEADER: nat := 1   // the reclaimed lease

  function BookAfter(a: Account, header: nat, rows: nat, stop: nat, fuse: Option<nat>): Account {
    if fuse.None? then Book(a, rows, stop, None)
    else if fuse.value < header then a
    else Book(a, rows, stop, Some(fuse.value - header))
  }

  function AccountOf(p: Plan, start: Start, calls: seq<Call>): Account {
    if |calls| == 0 then
      BookAfter(Account({}, 0, 0), RUN_HEADER, 0, StopOf(p, 0, start.interrupt), start.fuse)
    else
      var init, c := calls[..|calls| - 1], calls[|calls| - 1];
      var a, d := AccountOf(p, start, init), After(p, start, init);
      if Reclaims(d, c) then
        BookAfter(a, RESUME_HEADER, |Rows(d)|, StopOf(p, |Rows(d)|, None), c.fuse)
      else a
  }

  /** The run call lived long enough to write the first status. */
  predicate Begun(start: Start) {
    start.fuse.None? || start.fuse.value >= RUN_HEADER - 1
  }

  lemma CreatePrefix(p: Plan, fuse: Option<nat>)
    ensures
      var io := PutAll(Io(EMPTY_DISK, fuse, true), CreateWrites(p));
      var created := EMPTY_DISK.(request := true, preflight := Some(p.fingerprints),
        lease := Some(Lease(1, false)), status := Some(OpeningStatus(p, Created, 0)));
      && io.alive == (fuse.None? || fuse.value >= 4)
      && io.fuse == (if fuse.None? then None
                     else if fuse.value >= 4 then Some(fuse.value - 4) else Some(0))
      && (io.alive ==> io.disk == created)
      && (!io.alive ==> io.disk.status.None? && Rows(io.disk) == [] && Logical(io.disk) == [])
  {
    hide PutAll, OpeningStatus;
    var io := Io(EMPTY_DISK, fuse, true);
    var ws := CreateWrites(p);
    PutAllIsAPrefix(io, ws);
    assert ws[..0] == [] && ws[..4] == ws;
    ApplyAllStep(io.disk, ws, 0);
    ApplyAllStep(io.disk, ws, 1);
    ApplyAllStep(io.disk, ws, 2);
    ApplyAllStep(io.disk, ws, 3);
  }

  /** A directory whose status was never written stays as it is. */
  lemma {:induction false} NeverBegun(p: Plan, start: Start, calls: seq<Call>)
    requires !Begun(start)
    ensures
      var d := After(p, start, calls);
      d.status.None? && Rows(d) == [] && Logical(d) == [] && AccountOf(p, start, calls) == Account({}, 0, 0)
  {
    if |calls| == 0 {
      CreatePrefix(p, start.fuse);
    } else {
      NeverBegun(p, start, calls[..|calls| - 1]);
    }
  }

  lemma NothingYet(p: Plan)
    ensures MemoryAt(p, 0, {}) == EMPTY_MEMORY
  {
    assert LedgerRows(p, 0) == [];
  }

  lemma OpeningSettles(p: Plan, d: Disk, s: StatusDoc)
    requires d == EMPTY_DISK.(request := true, preflight := Some(p.fingerprints),
      lease := Some(Lease(1, false)), status := Some(s))
    requires s in {OpeningStatus(p, Created, 0), OpeningStatus(p, Running, 1)}
    ensures Settled(p, d, {}, Level(0))
  {
  }

  /** Finalizing after the last key finds nothing to do. */
  lemma FinalizeIdle(p: Plan, io: Io, torn: set<nat>)
    requires io.alive && (|p.keys| > 0 ==> JustCommitted(p, io.disk, torn, |p.keys|))
    requires |p.keys| == 0 ==> io.disk.report.None?
    ensures
      var s := Finalize(p, io, MemoryAt(p, |p.keys|, torn));
      && s.io == io
      && (p.Valid() && |p.keys| > 0 ==> s.end == Finished)
  {
    hide Kept, ReportOf, CheckpointOf, LedgerSound;
    if |p.keys| > 0 && p.Valid() {
      FullLedgerIsSound(p);
    }
  }

  lemma FullLedgerIsSound(p: Plan)
    requires p.Valid()
    ensures LedgerSound(p, LedgerRows(p, |p.keys|))
  {
    LedgerConserves(p, |p.keys|);
    LedgerKeys(p, |p.keys|);
    assert p.keys[..|p.keys|] == p.keys;
  }

  lemma RunSettles(p: Plan, start: Start) returns (k: Cursors)
    requires Begun(start)
    ensures
      var d := RunFresh(p, start.fuse, start.interrupt).io.disk;
      var a := AccountOf(p, start, []);
      Bounded(p, k) && Settled(p, d, a.torn, k) && k.outcomes - k.status <= a.lag
  {
    hide Settled, Drive, StatusOf, ReportOf, OpeningStatus, Finalize, StopOf, Kept;
    CreatePrefix(p, start.fuse);
    var io := PutAll(Io(EMPTY_DISK, start.fuse, true), CreateWrites(p));
    k := Level(0);
    var io1 := Put(io, PutStatus(OpeningStatus(p, Running, 1)));
    OpeningSettles(p, io1.disk, if io1.alive then OpeningStatus(p, Running, 1)
                                else OpeningStatus(p, Created, 0));
    if io1.alive {
      NothingYet(p);
      k := DriveSettles(p, io1, 1, start.interrupt, Account({}, 0, 0), Level(0));
      var s := Drive(p, io1, EMPTY_MEMORY, 1, start.interrupt);
      DriveFinishes(p, io1, 1, start.interrupt, {}, Level(0));
      if s.end == Finished { FinalizeIdle(p, s.io, {}); }
    }
  }

  lemma BlockSettles(p: Plan, d: Disk, torn: set<nat>, k: Cursors)
    requires Settled(p, d, torn, k) && d.status.value.state in {Running, Interrupted}
    ensures Settled(p, d.(status := Some(BlockStatus(d.status.value))), torn, k)
  {
    hide ReportOf, Kept;
  }

  lemma LeaseSettles(p: Plan, d: Disk, torn: set<nat>, k: Cursors, lease: Lease)
    requires Settled(p, d, torn, k)
    ensures Settled(p, d.(lease := Some(lease)), torn, k)
  {
    hide ReportOf, StatusOf, Kept;
  }

  lemma ResumeSettles(p: Plan, d: Disk, a: Account, k: Cursors, c: Call) returns (k': Cursors)
    requires Bounded(p, k) && Settled(p, d, a.torn, k) && k.outcomes - k.status <= a.lag
    ensures Bounded(p, k')
    ensures
      var s := ResumeCall(p, d, c);
      var a' := if Reclaims(d, c)
                then BookAfter(a, RESUME_HEADER, k.outcomes, StopOf(p, k.outcomes, None), c.fuse)
                else a;
      Settled(p, s.io.disk, a'.torn, k') && k'.outcomes - k'.status <= a'.lag
  {
    hide Settled, Drive, StatusOf, ReportOf, Kept, StopOf;
    k' := k;
    SettledFacts(p, d, a.torn, k);
    if Reclaims(d, c) {
      assert p.(fingerprints := c.fingerprints) == p;
      var lease := Lease(d.lease.value.generation + 1, false);
      LeaseSettles(p, d, a.torn, k, lease);
      var io := Put(Io(d, c.fuse, true), PutLease(lease));
      if io.alive {
        LoadedMemory(p, io.disk, a.torn, k);
        k' := DriveSettles(p, io, lease.generation, None, a, k);
      }
    } else if d.status.value.state in {Running, Interrupted} {
      BlockSettles(p, d, a.torn, k);
    }
  }

  lemma SettledFacts(p: Plan, d: Disk, torn: set<nat>, k: Cursors)
    requires Settled(p, d, torn, k)
    ensures d.status.Some? && d.lease.Some? && d.preflight == Some(p.fingerprints)
    ensures |Rows(d)| == k.outcomes
    ensures d.status.value.state in {Created, Running, Interrupted, Completed, Blocked}
  {
  }

  lemma {:induction false} HistorySettles(p: Plan, start: Start, calls: seq<Call>)
    returns (k: Cursors)
    requires Begun(start)
    ensures
      var d, a := After(p, start, calls), AccountOf(p, start, calls);
      Bounded(p, k) && Settled(p, d, a.torn, k) && k.outcomes - k.status <= a.lag
  {
    hide Settled, Resume, RunFresh, StopOf, Kept;
    if |calls| == 0 {
      k := RunSettles(p, start);
    } else {
      var init, c := calls[..|calls| - 1], calls[|calls| - 1];
      k := HistorySettles(p, start, init);
      var d, a := After(p, start, init), AccountOf(p, start, init);
      SettledFacts(p, d, a.torn, k);
      k := ResumeSettles(p, d, a, k, c);
    }
  }

  // ---------------------------------------------------------- main theorems

  function StatusCursor(d: Disk): nat { if d.status.Some? then d.status.value.cursor else 0 }
  function ReportCursor(d: Disk): nat { if d.report.Some? then d.report.value.cursor else 0 }
  function CheckpointCursor(d: Disk): nat {
    if d.checkpoint.Some? then d.checkpoint.value.cursor else 0
  }

  lemma SettledCursors(p: Plan, d: Disk, torn: set<nat>, k: Cursors)
    requires Settled(p, d, torn, k)
    ensures StatusCursor(d) == k.status && ReportCursor(d) == k.report
    ensures CheckpointCursor(d) == k.checkpoint && |Rows(d)| == k.outcomes
    ensures Rows(d) == LedgerRows(p, k.outcomes)
    ensures Logical(d) == Kept(p, k.outcomes, torn) && Physical(d) == Sources(Logical(d))
  {
    hide Kept;
    LoadedMemory(p, d, torn, k);
  }

  lemma BookTears(a: Account, rows: nat, stop: nat, fuse: Option<nat>)
    requires |a.torn| == a.tears && forall i | i in a.torn :: i < rows
    ensures |Book(a, rows, stop, fuse).torn| == Book(a, rows, stop, fuse).tears
  {
  }

  /** Every crash between the two writes tears a key that was not torn before. */
  lemma {:induction false} EveryTearIsNew(p: Plan, start: Start, calls: seq<Call>)
    ensures |AccountOf(p, start, calls).torn| == AccountOf(p, start, calls).tears
  {
    hide Settled, Resume, RunFresh, StopOf, Book;
    if |calls| == 0 {
      var a, stop := Account({}, 0, 0), StopOf(p, 0, start.interrupt);
      BookTears(a, 0, stop, None);
      if start.fuse.Some? && start.fuse.value >= RUN_HEADER {
        BookTears(a, 0, stop, Some(start.fuse.value - RUN_HEADER));
      }
    } else {
      var init, c := calls[..|calls| - 1], calls[|calls| - 1];
      var a, d := AccountOf(p, start, init), After(p, start, init);
      EveryTearIsNew(p, start, init);
      if Reclaims(d, c) {
        BegunWhenReclaimed(p, start, init, c);
        var k := HistorySettles(p, start, init);
        SettledFacts(p, d, a.torn, k);
        TornBelow(p, d, a.torn, k);
        var stop := StopOf(p, |Rows(d)|, None);
        BookTears(a, |Rows(d)|, stop, None);
        if c.fuse.Some? && c.fuse.value >= RESUME_HEADER {
          BookTears(a, |Rows(d)|, stop, Some(c.fuse.value - RESUME_HEADER));
        }
      }
    }
  }

  /** Exact torn-write accounting over every history: the cursors are ordered, the status
      lags by at most the crashes since the last complete commit, the attempt ledger lacks
      exactly the rows whose commit died between outcomes and attempts, and it lacks as many
      rows as there were such crashes. */
  lemma TornWriteAccounting(p: Plan, start: Start, calls: seq<Call>)
    ensures
      var d, a := After(p, start, calls), AccountOf(p, start, calls);
      && StatusCursor(d) <= ReportCursor(d) <= CheckpointCursor(d) <= |Rows(d)| <= |p.keys|
      && |Rows(d)| - StatusCursor(d) <= a.lag
      && |Rows(d)| - |Logical(d)| == |a.torn| == a.tears
      && Rows(d) == LedgerRows(p, |Rows(d)|)
      && Logical(d) == Kept(p, |Rows(d)|, a.torn)
      && Physical(d) == Sources(Logical(d))
  {
    hide Kept, Settled, After, AccountOf;
    var d, a := After(p, start, calls), AccountOf(p, start, calls);
    EveryTearIsNew(p, start, calls);
    if Begun(start) {
      var k := HistorySettles(p, start, calls);
      SettledCursors(p, d, a.torn, k);
      TornBelow(p, d, a.torn, k);
      KeptLength(p, k.outcomes, a.torn);
    } else {
      NeverBegun(p, start, calls);
      NeverBegunDocuments(p, start, calls);
      assert LedgerRows(p, 0) == [];
      KeptLength(p, 0, {});
    }
  }

  lemma TornBelow(p: Plan, d: Disk, torn: set<nat>, k: Cursors)
    requires Settled(p, d, torn, k)
    ensures forall i | i in torn :: i < k.outcomes
  {
  }

  lemma {:induction false} NeverBegunDocuments(p: Plan, start: Start, calls: seq<Call>)
    requires !Begun(start)
    ensures
      var d := After(p, start, calls);
      d.report.None? && d.checkpoint.None? && d.attempts.None?
  {
    if |calls| == 0 {
      var ws := CreateWrites(p);
      PutAllIsAPrefix(Io(EMPTY_DISK, start.fuse, true), ws);
      assert ws[..0] == [];
      ApplyAllStep(EMPTY_DISK, ws, 0);
      ApplyAllStep(EMPTY_DISK, ws, 1);
      ApplyAllStep(EMPTY_DISK, ws, 2);
    } else {
      NeverBegun(p, start, calls[..|calls| - 1]);
      NeverBegunDocuments(p, start, calls[..|calls| - 1]);
    }
  }

  /** The report without the attempt rows that a torn commit loses. */
  function Core(r: ReportDoc): ReportDoc {
    r.(logicalCount := 0, physical := [])
  }

  const UNINTERRUPTED := Start(None, None)

  lemma UninterruptedRun(p: Plan)
    requires p.Valid() && |p.keys| > 0
    ensures RunFresh(p, None, None).end == Finished
    ensures JustCommitted(p, After(p, UNINTERRUPTED, []), {}, |p.keys|)
  {
    hide Settled, Drive, StatusOf, ReportOf, OpeningStatus, Finalize, Kept;
    CreatePrefix(p, None);
    var io := PutAll(Io(EMPTY_DISK, None, true), CreateWrites(p));
    var io1 := Put(io, PutStatus(OpeningStatus(p, Running, 1)));
    OpeningSettles(p, io1.disk, OpeningStatus(p, Running, 1));
    NothingYet(p);
    var _ := DriveSettles(p, io1, 1, None, Account({}, 0, 0), Level(0));
    DriveFinishes(p, io1, 1, None, {}, Level(0));
    FinalizeIdle(p, Drive(p, io1, EMPTY_MEMORY, 1, None).io, {});
  }

  /** Crash/resume equivalence: whatever happened before, a same-tuple resume that finds
      keys left and is not killed leaves the outcomes, the checkpoint, the status and the
      report's ledger exactly as an uninterrupted run would. The attempt ledger is restored
      too if and only if no commit was ever torn. */
  lemma FinishedResumeRestores(p: Plan, start: Start, calls: seq<Call>, last: Call)
    requires p.Valid()
    requires last.fuse.None? && Reclaims(After(p, start, calls), last)
    requires |Rows(After(p, start, calls))| < |p.keys|
    ensures
      var d, u := After(p, start, calls + [last]), After(p, UNINTERRUPTED, []);
      && d.outcomes == u.outcomes && d.checkpoint == u.checkpoint && d.status == u.status
      && d.report.Some? && u.report.Some? && Core(d.report.value) == Core(u.report.value)
      && d.status.Some? && d.status.value.state in {Completed, Blocked}
      && (d.attempts == u.attempts <==> AccountOf(p, start, calls).torn == {})
  {
    hide Settled, Drive, StatusOf, ReportOf, Kept, CheckpointOf, AccountOf;
    var before, a := After(p, start, calls), AccountOf(p, start, calls);
    assert (calls + [last])[..|calls|] == calls;
    BegunWhenReclaimed(p, start, calls, last);
    var k := HistorySettles(p, start, calls);
    SettledFacts(p, before, a.torn, k);
    var lease := Lease(before.lease.value.generation + 1, false);
    LeaseSettles(p, before, a.torn, k, lease);
    var io := Put(Io(before, None, true), PutLease(lease));
    assert p.(fingerprints := last.fingerprints) == p;
    LoadedMemory(p, io.disk, a.torn, k);
    var _ := DriveSettles(p, io, lease.generation, None, a, k);
    DriveFinishes(p, io, lease.generation, None, a.torn, k);
    UninterruptedRun(p);
    var d, u := After(p, start, calls + [last]), After(p, UNINTERRUPTED, []);
    assert JustCommitted(p, d, a.torn, |p.keys|);
    SameLevelDocuments(p, d, u, a.torn);
  }

  lemma BegunWhenReclaimed(p: Plan, start: Start, calls: seq<Call>, c: Call)
    requires Reclaims(After(p, start, calls), c)
    ensures Begun(start)
  {
    if !Begun(start) { NeverBegun(p, start, calls); }
  }

  lemma SameLevelDocuments(p: Plan, d: Disk, u: Disk, torn: set<nat>)
    requires |p.keys| > 0
    requires JustCommitted(p, d, torn, |p.keys|) && JustCommitted(p, u, {}, |p.keys|)
    ensures d.outcomes == u.outcomes && d.checkpoint == u.checkpoint && d.status == u.status
    ensures d.report.Some? && u.report.Some? && Core(d.report.value) == Core(u.report.value)
    ensures d.status.Some? && d.status.value.state in {Completed, Blocked}
    ensures d.attempts == u.attempts <==> torn == {}
  {
    var n := |p.keys|;
    KeptLength(p, n, torn);
    KeptLength(p, n, {});
  }

  /** A resume that is let through and not killed reaches a terminal status exactly when
      it found keys left to process. Otherwise (the interrupt point was the last key, or a
      worker died after the last outcomes write) its loop is empty and changes nothing but
      the lease. */
  lemma ResumeReachesTheEndIffKeysAreLeft(p: Plan, start: Start, calls: seq<Call>, last: Call)
    requires p.Valid()
    requires last.fuse.None? && Reclaims(After(p, start, calls), last)
    ensures
      var before, d := After(p, start, calls), After(p, start, calls + [last]);
      && d.status.Some?
      && (d.status.value.state in {Completed, Blocked} <==> |Rows(before)| < |p.keys|)
      && (|Rows(before)| == |p.keys| ==> d == before.(lease := d.lease))
  {
    hide Settled, StatusOf, ReportOf, Kept, AccountOf;
    var before, a := After(p, start, calls), AccountOf(p, start, calls);
    assert (calls + [last])[..|calls|] == calls;
    BegunWhenReclaimed(p, start, calls, last);
    var k := HistorySettles(p, start, calls);
    SettledFacts(p, before, a.torn, k);
    if k.outcomes < |p.keys| {
      FinishedResumeRestores(p, start, calls, last);
    } else {
      assert p.(fingerprints := last.fingerprints) == p;
    }
  }

  /** Such a run is stuck for good: no later series of same-tuple resumes, killed or not,
      changes its documents. */
  lemma {:induction false} StuckForGood(p: Plan, start: Start, calls: seq<Call>, later: seq<Call>)
    requires |Rows(After(p, start, calls))| == |p.keys|
    requires After(p, start, calls).status.Some?
    requires After(p, start, calls).status.value.state in {Running, Interrupted}
    requires forall c | c in later :: c.fingerprints == p.fingerprints
    ensures
      var before, d := After(p, start, calls), After(p, start, calls + later);
      d == before.(lease := d.lease)
  {
    hide Settled, StatusOf, ReportOf, Kept, AccountOf;
    var before := After(p, start, calls);
    if !Begun(start) { NeverBegun(p, start, calls); }
    if |later| == 0 {
      assert calls + later == calls;
    } else {
      var init, c := later[..|later| - 1], later[|later| - 1];
      StuckForGood(p, start, calls, init);
      assert (calls + later)[..|calls + later| - 1] == calls + init;
      assert (calls + later)[|calls + later| - 1] == c;
      assert p.(fingerprints := c.fingerprints) == p;
      var k := HistorySettles(p, start, calls + init);
      SettledFacts(p, After(p, start, calls + init), AccountOf(p, start, calls + init).torn, k);
    }
  }

  /** So is a run that died between its creation and its first "running" status. */
  lemma {:induction false} CreatedForGood(p: Plan, interrupt: Option<int>, calls: seq<Call>)
    ensures
      var d := After(p, Start(Some(RUN_HEADER - 1), interrupt), calls);
      && d.status == Some(OpeningStatus(p, Created, 0))
      && d == After(p, Start(Some(RUN_HEADER - 1), interrupt), [])
  {
    if |calls| == 0 {
      CreatePrefix(p, Some(RUN_HEADER - 1));
    } else {
      CreatedForGood(p, interrupt, calls[..|calls| - 1]);
    }
  }
}
