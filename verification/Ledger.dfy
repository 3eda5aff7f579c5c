/** The durable documents of one checkpoint run, as values, and the functions
    that say what each document contains after a given number of keys. */
module Ledger {
  import opened Options

  datatype Outcome =
    | Pending | InProgress | Accepted | Retryable | Quarantined | Rejected | Failed

  const ALL_OUTCOMES: set<Outcome> :=
    {Pending, InProgress, Accepted, Retryable, Quarantined, Rejected, Failed}

  const MAX_LIMIT: nat := 100

  predicate IsTerminal(o: Outcome) {
    o == Accepted || o == Quarantined || o == Rejected || o == Failed
  }

  datatype RunState =
    | Created | Running | Interrupted | Blocked | FailedRun | Completed

  /** What processing one catalog record yields: the logical outcome and the ids of
      the physical source attempts. */
  datatype Processed = Processed(outcome: Outcome, sources: seq<string>)

  datatype Row = Row(key: string, index: nat, outcome: Outcome)

  datatype Attempt = Attempt(key: string, index: nat, sources: seq<string>)

  datatype Fingerprints = Fingerprints(catalog: string, run: string)

  /** The preflight result: the sorted selected keys, the deterministic record
      processor, and the sizes the completion rules look at. */
  datatype Plan = Plan(
    keys: seq<string>,
    process: (string, nat) -> Processed,
    limit: nat,
    catalogSize: nat,
    fingerprints: Fingerprints)
  {
    function Shortfall(): nat {
      if limit > catalogSize then limit - catalogSize else 0
    }

    ghost predicate Valid() {
      && (forall i, j | 0 <= i < j < |keys| :: keys[i] != keys[j])
      && |keys| == (if limit < catalogSize then limit else catalogSize)
    }
  }

  /** The three lists a worker holds in memory. */
  datatype Memory = Memory(rows: seq<Row>, logical: seq<Attempt>, physical: seq<string>)

  const EMPTY_MEMORY := Memory([], [], [])

  // ---------------------------------------------------------------- documents

  datatype Reason =
    | CatalogShortfall | IncompleteCheckpoint | NonAcceptedOutcomes | LimitBelowMaximum
    | RetryableTransport | CandidateNotCreated | ReleaseApprovalRequired | WasInterrupted

  datatype Completion = Completion(
    state: RunState, terminal: bool, allTerminal: bool, checkpointComplete: bool,
    reasons: seq<Reason>)

  const INTERRUPTED_COMPLETION :=
    Completion(Interrupted, false, false, false, [WasInterrupted])

  datatype Lease = Lease(generation: nat, interrupted: bool)

  datatype OutcomesDoc = OutcomesDoc(revision: nat, rows: seq<Row>)

  datatype AttemptsDoc = AttemptsDoc(
    revision: nat, logical: seq<Attempt>, physical: seq<string>)

  datatype CheckpointDoc = CheckpointDoc(
    revision: nat, cursor: nat, selectedKeys: seq<string>,
    counts: map<Outcome, nat>, processed: nat, terminal: nat)

  datatype ReportDoc = ReportDoc(
    revision: nat, state: RunState, cursor: nat, selected: nat, processed: nat,
    terminal: nat, pending: nat, counts: map<Outcome, nat>, completion: Completion,
    accepted: seq<string>, excluded: seq<string>, partitionHolds: bool,
    logicalCount: nat, physical: seq<string>)

  datatype StatusDoc = StatusDoc(
    revision: nat, state: RunState, cursor: nat, selected: nat,
    counts: map<Outcome, nat>, completion: Option<Completion>, run: string)

  /** One run directory. A field is None while its file does not exist. */
  datatype Disk = Disk(
    request: bool,
    preflight: Option<Fingerprints>,
    lease: Option<Lease>,
    outcomes: Option<OutcomesDoc>,
    attempts: Option<AttemptsDoc>,
    checkpoint: Option<CheckpointDoc>,
    report: Option<ReportDoc>,
    status: Option<StatusDoc>)

  const EMPTY_DISK := Disk(false, None, None, None, None, None, None, None)

  function Rows(d: Disk): seq<Row> {
    if d.outcomes.Some? then d.outcomes.value.rows else []
  }

  function Logical(d: Disk): seq<Attempt> {
    if d.attempts.Some? then d.attempts.value.logical else []
  }

  function Physical(d: Disk): seq<string> {
    if d.attempts.Some? then d.attempts.value.physical else []
  }

  // ------------------------------------------------------------------ tallies

  function CountOf(rows: seq<Row>, o: Outcome): nat {
    if |rows| == 0 then 0
    else CountOf(rows[..|rows| - 1], o) + (if rows[|rows| - 1].outcome == o then 1 else 0)
  }

  function Tally(rows: seq<Row>): map<Outcome, nat> {
    map o | o in ALL_OUTCOMES :: CountOf(rows, o)
  }

  function TerminalCount(rows: seq<Row>): nat {
    CountOf(rows, Accepted) + CountOf(rows, Quarantined) + CountOf(rows, Rejected)
    + CountOf(rows, Failed)
  }

  function PendingCount(rows: seq<Row>): nat {
    CountOf(rows, Pending) + CountOf(rows, InProgress) + CountOf(rows, Retryable)
  }

  function SetOf(keys: seq<string>): set<string> {
    set k | k in keys
  }

  function KeysOf(rows: seq<Row>): set<string> {
    set r | r in rows :: r.key
  }

  function AcceptedKeys(rows: seq<Row>): seq<string> {
    if |rows| == 0 then []
    else AcceptedKeys(rows[..|rows| - 1])
         + (if rows[|rows| - 1].outcome == Accepted then [rows[|rows| - 1].key] else [])
  }

  function ExcludedKeys(rows: seq<Row>): seq<string> {
    if |rows| == 0 then []
    else ExcludedKeys(rows[..|rows| - 1])
         + (if rows[|rows| - 1].outcome != Accepted then [rows[|rows| - 1].key] else [])
  }

  // ------------------------------------------------- the deterministic ledger

  function RowAt(p: Plan, i: nat): Row
    requires i < |p.keys|
  {
    Row(p.keys[i], i, p.process(p.keys[i], i).outcome)
  }

  function AttemptAt(p: Plan, i: nat): Attempt
    requires i < |p.keys|
  {
    Attempt(p.keys[i], i, p.process(p.keys[i], i).sources)
  }

  /** The one ledger over the first n selected keys. */
  function LedgerRows(p: Plan, n: nat): seq<Row>
    requires n <= |p.keys|
  {
    seq(n, i requires 0 <= i < n => RowAt(p, i))
  }

  /** One loop iteration in memory: process the next key and append. */
  function Extend(p: Plan, m: Memory): Memory
    requires |m.rows| < |p.keys|
  {
    var i := |m.rows|;
    var a := AttemptAt(p, i);
    Memory(m.rows + [RowAt(p, i)], m.logical + [a], m.physical + a.sources)
  }

  // ------------------------------------------------- contents of the documents

  function StateFor(p: Plan, rows: seq<Row>): RunState {
    if |rows| != |p.keys| then Running
    else if CountOf(rows, Retryable) > 0 then Blocked
    else Completed
  }

  function CheckpointComplete(p: Plan, rows: seq<Row>): bool {
    && |rows| == |p.keys|
    && (forall r | r in rows :: IsTerminal(r.outcome))
    && CountOf(rows, Retryable) == 0
    && p.Shortfall() == 0
    && p.limit == MAX_LIMIT
  }

  function Reasons(p: Plan, rows: seq<Row>): seq<Reason> {
    (if p.Shortfall() > 0 then [CatalogShortfall] else [])
    + (if |rows| < |p.keys| then [IncompleteCheckpoint]
       else if CountOf(rows, Accepted) != |p.keys| then [NonAcceptedOutcomes]
       else [])
    + (if p.limit < MAX_LIMIT then [LimitBelowMaximum] else [])
    + (if CountOf(rows, Retryable) > 0 then [RetryableTransport] else [])
    + (if |rows| == |p.keys| then [CandidateNotCreated, ReleaseApprovalRequired] else [])
  }

  function CompletionOf(p: Plan, rows: seq<Row>): Completion {
    Completion(
      if StateFor(p, rows) == Blocked then Blocked else Completed,
      true, PendingCount(rows) == 0, CheckpointComplete(p, rows), Reasons(p, rows))
  }

  /** The conservation flag of the report: a full ledger must have one row per selected
      key, and its keys must split into accepted and excluded ones. */
  function PartitionHolds(p: Plan, rows: seq<Row>): bool {
    |rows| < |p.keys| ||
    (&& |p.keys| == |KeysOf(rows)|
     && |p.keys| == TerminalCount(rows) + PendingCount(rows)
     && SetOf(p.keys[..if |rows| <= |p.keys| then |rows| else |p.keys|])
        == SetOf(AcceptedKeys(rows)) + SetOf(ExcludedKeys(rows)))
  }

  function OutcomesOf(revision: nat, m: Memory): OutcomesDoc {
    OutcomesDoc(revision, m.rows)
  }

  function AttemptsOf(revision: nat, m: Memory): AttemptsDoc {
    AttemptsDoc(revision, m.logical, m.physical)
  }

  function CheckpointOf(p: Plan, revision: nat, rows: seq<Row>): CheckpointDoc {
    CheckpointDoc(revision, |rows|, p.keys, Tally(rows), |rows|, TerminalCount(rows))
  }

  function ReportOf(p: Plan, revision: nat, m: Memory): ReportDoc {
    ReportDoc(
      revision, StateFor(p, m.rows), |m.rows|, |p.keys|, |m.rows|,
      TerminalCount(m.rows), PendingCount(m.rows), Tally(m.rows),
      CompletionOf(p, m.rows), AcceptedKeys(m.rows), ExcludedKeys(m.rows),
      PartitionHolds(p, m.rows), |m.logical|, m.physical)
  }

  function StatusOf(p: Plan, revision: nat, rows: seq<Row>): StatusDoc {
    StatusDoc(revision, StateFor(p, rows), |rows|, |p.keys|, Tally(rows),
              Some(CompletionOf(p, rows)), p.fingerprints.run)
  }

  /** The status before the first commit: revision 0 when created, 1 when running. */
  function OpeningStatus(p: Plan, state: RunState, revision: nat): StatusDoc {
    StatusDoc(revision, state, 0, |p.keys|, Tally([]), None, p.fingerprints.run)
  }

  // --------------------------------------------------------------- the lemmas

  lemma AllOutcomesListed(o: Outcome)
    ensures o in ALL_OUTCOMES
  {
  }

  lemma NothingTallied()
    ensures Tally([]) == map o | o in ALL_OUTCOMES :: 0
  {
  }

  lemma TallyNext(rows: seq<Row>, i: nat)
    requires i < |rows|
    ensures
      var before, o := Tally(rows[..i]), rows[i].outcome;
      && before.Keys == ALL_OUTCOMES && o in before
      && Tally(rows[..i + 1]) == before[o := before[o] + 1]
  {
    assert rows[..i + 1][..i] == rows[..i];
    AllOutcomesListed(rows[i].outcome);
  }

  lemma {:induction false} CountsSumToLength(rows: seq<Row>)
    ensures TerminalCount(rows) + PendingCount(rows) == |rows|
  {
    if |rows| > 0 { CountsSumToLength(rows[..|rows| - 1]); }
  }

  lemma {:induction false} KeysSplit(rows: seq<Row>)
    ensures KeysOf(rows) == SetOf(AcceptedKeys(rows)) + SetOf(ExcludedKeys(rows))
  {
    if |rows| > 0 {
      var init, last := rows[..|rows| - 1], rows[|rows| - 1];
      KeysSplit(init);
      assert rows == init + [last];
      assert KeysOf(rows) == KeysOf(init) + {last.key};
    }
  }

  lemma LedgerExtends(p: Plan, n: nat)
    requires n < |p.keys|
    ensures LedgerRows(p, n + 1) == LedgerRows(p, n) + [RowAt(p, n)]
  {
  }

  lemma {:induction false} DistinctKeysCount(keys: seq<string>)
    requires forall i, j | 0 <= i < j < |keys| :: keys[i] != keys[j]
    ensures |SetOf(keys)| == |keys|
  {
    if |keys| > 0 {
      var init, last := keys[..|keys| - 1], keys[|keys| - 1];
      DistinctKeysCount(init);
      assert keys == init + [last];
      assert SetOf(keys) == SetOf(init) + {last};
      assert last !in init;
    }
  }

  lemma {:induction false} LedgerKeys(p: Plan, n: nat)
    requires n <= |p.keys|
    ensures KeysOf(LedgerRows(p, n)) == SetOf(p.keys[..n])
  {
    if n > 0 {
      LedgerKeys(p, n - 1);
      LedgerExtends(p, n - 1);
      var rows, init, last := LedgerRows(p, n), LedgerRows(p, n - 1), RowAt(p, n - 1);
      assert KeysOf(rows) == KeysOf(init) + {last.key};
      assert p.keys[..n] == p.keys[..n - 1] + [last.key];
    }
  }

  /** Every prefix of the ledger reports a conserved partition: the selected keys
      processed so far are exactly the accepted and the excluded ones. */
  lemma LedgerConserves(p: Plan, n: nat)
    requires p.Valid() && n <= |p.keys|
    ensures PartitionHolds(p, LedgerRows(p, n))
    ensures |KeysOf(LedgerRows(p, n))| == n
  {
    CountsSumToLength(LedgerRows(p, n));
    KeysSplit(LedgerRows(p, n));
    LedgerKeys(p, n);
    DistinctKeysCount(p.keys[..n]);
  }

  // ------------------------------------------------- what the report's parts mean

  /** Accepted and excluded keys are those of the accepted and of the other rows, in ledger order. */
  lemma KeysInOrder(a: seq<Row>, b: seq<Row>, r: Row)
    ensures AcceptedKeys(a + b) == AcceptedKeys(a) + AcceptedKeys(b)
    ensures ExcludedKeys(a + b) == ExcludedKeys(a) + ExcludedKeys(b)
    ensures AcceptedKeys([r]) == (if r.outcome == Accepted then [r.key] else [])
    ensures ExcludedKeys([r]) == (if r.outcome == Accepted then [] else [r.key])
  {
    hide AcceptedKeys, ExcludedKeys;
    AcceptedAppend(a, b);
    ExcludedAppend(a, b);
    OneRow(r);
  }

  lemma OneRow(r: Row)
    ensures AcceptedKeys([r]) == (if r.outcome == Accepted then [r.key] else [])
    ensures ExcludedKeys([r]) == (if r.outcome == Accepted then [] else [r.key])
  {
    assert [r][..0] == [];
  }

  lemma {:induction false} AcceptedAppend(a: seq<Row>, b: seq<Row>)
    ensures AcceptedKeys(a + b) == AcceptedKeys(a) + AcceptedKeys(b)
  {
    if |b| == 0 {
      assert a + b == a;
    } else {
      AcceptedAppend(a, b[..|b| - 1]);
      assert (a + b)[..|a + b| - 1] == a + b[..|b| - 1];
      assert (a + b)[|a + b| - 1] == b[|b| - 1];
    }
  }

  lemma {:induction false} ExcludedAppend(a: seq<Row>, b: seq<Row>)
    ensures ExcludedKeys(a + b) == ExcludedKeys(a) + ExcludedKeys(b)
  {
    if |b| == 0 {
      assert a + b == a;
    } else {
      ExcludedAppend(a, b[..|b| - 1]);
      assert (a + b)[..|a + b| - 1] == a + b[..|b| - 1];
      assert (a + b)[|a + b| - 1] == b[|b| - 1];
    }
  }

  /** A key is listed as accepted if and only if an accepted row has it, and as often. */
  lemma {:induction false} AcceptedExactly(rows: seq<Row>)
    ensures forall key :: key in AcceptedKeys(rows) <==> exists r | r in rows :: r.key == key && r.outcome == Accepted
    ensures forall key :: key in ExcludedKeys(rows) <==> exists r | r in rows :: r.key == key && r.outcome != Accepted
    ensures |AcceptedKeys(rows)| == CountOf(rows, Accepted) == |rows| - |ExcludedKeys(rows)|
  {
    if |rows| > 0 {
      var init, last := rows[..|rows| - 1], rows[|rows| - 1];
      AcceptedExactly(init);
      assert rows == init + [last];
      assert forall r :: r in rows <==> r in init || r == last;
    }
  }

  /** Which reason is given when. */
  lemma ReasonsExactly(p: Plan, rows: seq<Row>, r: Reason)
    ensures r in Reasons(p, rows) <==>
      match r
      case CatalogShortfall => p.limit > p.catalogSize
      case IncompleteCheckpoint => |rows| < |p.keys|
      case NonAcceptedOutcomes => |rows| >= |p.keys| && CountOf(rows, Accepted) != |p.keys|
      case LimitBelowMaximum => p.limit < 100
      case RetryableTransport => CountOf(rows, Retryable) > 0
      case CandidateNotCreated => |rows| == |p.keys|
      case ReleaseApprovalRequired => |rows| == |p.keys|
      case WasInterrupted => false
  {
    hide CountOf;
    InOneOfFive(
      if p.Shortfall() > 0 then [CatalogShortfall] else [],
      if |rows| < |p.keys| then [IncompleteCheckpoint]
      else if CountOf(rows, Accepted) != |p.keys| then [NonAcceptedOutcomes] else [],
      if p.limit < MAX_LIMIT then [LimitBelowMaximum] else [],
      if CountOf(rows, Retryable) > 0 then [RetryableTransport] else [],
      if |rows| == |p.keys| then [CandidateNotCreated, ReleaseApprovalRequired] else [], r);
  }

  lemma InOneOfFive(a: seq<Reason>, b: seq<Reason>, c: seq<Reason>, d: seq<Reason>, e: seq<Reason>, r: Reason)
    ensures r in a + b + c + d + e <==> r in a || r in b || r in c || r in d || r in e
  {
  }

  /** What the completion block says: blocked if the ledger is full and has a retryable row; every
      outcome final if no row is pending, in progress or retryable; and complete if every selected
      key has one of the four final outcomes, the catalog was large enough and the limit is 100. */
  lemma CompletionExactly(p: Plan, rows: seq<Row>)
    ensures
      var c := CompletionOf(p, rows);
      && c.terminal && c.reasons == Reasons(p, rows)
      && c.state == (if |rows| == |p.keys| && (exists r | r in rows :: r.outcome == Retryable) then Blocked
                     else Completed)
      && (c.allTerminal <==> forall r | r in rows :: r.outcome in {Accepted, Quarantined, Rejected, Failed})
      && (c.checkpointComplete <==>
            && |rows| == |p.keys| && p.limit == 100 && p.limit <= p.catalogSize
            && forall r | r in rows :: r.outcome in {Accepted, Quarantined, Rejected, Failed})
  {
    hide Reasons, PendingCount;
    OutcomeCounted(rows, Retryable);
    PendingCounted(rows);
  }

  lemma {:induction false} OutcomeCounted(rows: seq<Row>, o: Outcome)
    ensures CountOf(rows, o) > 0 <==> exists r | r in rows :: r.outcome == o
  {
    if |rows| > 0 {
      OutcomeCounted(rows[..|rows| - 1], o);
      assert rows == rows[..|rows| - 1] + [rows[|rows| - 1]];
    }
  }

  lemma PendingCounted(rows: seq<Row>)
    ensures PendingCount(rows) == 0 <==> forall r | r in rows :: r.outcome in {Accepted, Quarantined, Rejected, Failed}
  {
    OutcomeCounted(rows, Pending);
    OutcomeCounted(rows, InProgress);
    OutcomeCounted(rows, Retryable);
    if forall r | r in rows :: r.outcome in {Accepted, Quarantined, Rejected, Failed} {
    } else {
      var r :| r in rows && r.outcome !in {Accepted, Quarantined, Rejected, Failed};
      assert r.outcome == Pending || r.outcome == InProgress || r.outcome == Retryable;
    }
  }

  // ------------------------------------------------- the documents, field by field

  /** The indices of the rows with one of these outcomes. */
  function IndicesOf(rows: seq<Row>, outcomes: set<Outcome>): set<nat> {
    set i | 0 <= i < |rows| && rows[i].outcome in outcomes
  }

  /** A tally counts the rows that have the outcome. */
  lemma {:induction false} CountExactly(rows: seq<Row>, o: Outcome)
    ensures CountOf(rows, o) == |IndicesOf(rows, {o})|
  {
    if |rows| > 0 {
      var init, last := rows[..|rows| - 1], |rows| - 1;
      CountExactly(init, o);
      assert IndicesOf(rows, {o}) == IndicesOf(init, {o}) + (if rows[last].outcome == o then {last} else {});
    }
  }

  lemma {:induction false} TerminalExactly(rows: seq<Row>)
    ensures TerminalCount(rows) == |IndicesOf(rows, {Accepted, Quarantined, Rejected, Failed})|
  {
    var terminal := {Accepted, Quarantined, Rejected, Failed};
    if |rows| > 0 {
      var init, last := rows[..|rows| - 1], |rows| - 1;
      TerminalExactly(init);
      assert IndicesOf(rows, terminal)
        == IndicesOf(init, terminal) + (if rows[last].outcome in terminal then {last} else {});
    }
  }

  /** The counts of a document: one entry for each of the seven outcomes, the number of its rows. */
  ghost predicate Counts(counts: map<Outcome, nat>, rows: seq<Row>) {
    forall o: Outcome :: o in counts && counts[o] == |IndicesOf(rows, {o})|
  }

  lemma TallyCounts(rows: seq<Row>)
    ensures Counts(Tally(rows), rows)
  {
    hide IndicesOf, CountOf;
    forall o: Outcome ensures o in Tally(rows) && Tally(rows)[o] == |IndicesOf(rows, {o})| {
      AllOutcomesListed(o);
      CountExactly(rows, o);
    }
  }

  /** The state a commit writes: running until every key has a row, then blocked if a row is
      retryable, else completed. */
  ghost predicate StateHolds(p: Plan, rows: seq<Row>, state: RunState) {
    state == if |rows| != |p.keys| then Running
             else if exists r | r in rows :: r.outcome == Retryable then Blocked
             else Completed
  }

  /** What a commit writes besides the two ledgers, field by field. */
  lemma DocumentsHold(p: Plan, revision: nat, m: Memory)
    ensures
      var c, n := CheckpointOf(p, revision, m.rows), |m.rows|;
      && c.revision == revision && c.cursor == c.processed == n && c.selectedKeys == p.keys
      && Counts(c.counts, m.rows)
      && c.terminal == |IndicesOf(m.rows, {Accepted, Quarantined, Rejected, Failed})|
    ensures
      var r, n := ReportOf(p, revision, m), |m.rows|;
      && r.revision == revision && r.cursor == r.processed == n && r.selected == |p.keys|
      && r.terminal == |IndicesOf(m.rows, {Accepted, Quarantined, Rejected, Failed})|
      && r.pending == n - r.terminal && Counts(r.counts, m.rows) && StateHolds(p, m.rows, r.state)
      && r.logicalCount == |m.logical| && r.physical == m.physical
      && r.accepted == AcceptedKeys(m.rows) && r.excluded == ExcludedKeys(m.rows)
      && r.completion == CompletionOf(p, m.rows) && r.partitionHolds == PartitionHolds(p, m.rows)
    ensures
      var s := StatusOf(p, revision, m.rows);
      && s.revision == revision && s.cursor == |m.rows| && s.selected == |p.keys|
      && Counts(s.counts, m.rows) && StateHolds(p, m.rows, s.state)
      && s.completion == Some(CompletionOf(p, m.rows)) && s.run == p.fingerprints.run
  {
    hide PartitionHolds, Reasons, CompletionOf, IndicesOf, CountOf, TerminalCount, PendingCount, Tally, Counts;
    TallyCounts(m.rows);
    TerminalExactly(m.rows);
    CountsSumToLength(m.rows);
    OutcomeCounted(m.rows, Retryable);
  }
}
