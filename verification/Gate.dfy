/** The candidate gate as a consumer of whatever documents a history leaves behind. */
module Gate {
  import opened Options
  import opened Ledger
  import opened Sessions
  import opened CrashResume

  function CountTerminal(rows: seq<Row>): nat {
    if |rows| == 0 then 0
    else CountTerminal(rows[..|rows| - 1]) + (if IsTerminal(rows[|rows| - 1].outcome) then 1 else 0)
  }

  predicate MayBeCandidate(s: RunState) {
    s != Interrupted
  }

  predicate AllDocuments(d: Disk) {
    d.outcomes.Some? && d.attempts.Some? && d.checkpoint.Some? && d.report.Some? && d.status.Some?
  }

  /** The lifecycle checks that compare the five documents with each other. */
  predicate Consistent(p: Plan, d: Disk)
    requires AllDocuments(d)
  {
    var rows := d.outcomes.value.rows;
    var checkpoint, report, status := d.checkpoint.value, d.report.value, d.status.value;
    && status.cursor == |rows|
    && status.selected == |p.keys|
    && MayBeCandidate(report.state) && MayBeCandidate(status.state)
    && report.state == status.state
    && checkpoint.selectedKeys == p.keys
    && checkpoint.terminal == CountTerminal(rows)
    && report.processed == |rows|
    && report.terminal == CountTerminal(rows)
    && report.pending == |rows| - CountTerminal(rows)
    && report.revision == checkpoint.revision == d.outcomes.value.revision == status.revision
    && checkpoint.processed == |rows|
    && status.counts == checkpoint.counts
    && status.completion == Some(report.completion)
    && status.run == p.fingerprints.run
    && d.attempts.value.revision == report.revision
  }

  /** Exactly one outcome per selected key, and one logical attempt row per key. */
  predicate Conserved(p: Plan, d: Disk)
    requires AllDocuments(d)
  {
    var rows := d.outcomes.value.rows;
    && |rows| == |p.keys|
    && |KeysOf(rows)| == |rows|
    && KeysOf(rows) == SetOf(p.keys)
    && |d.attempts.value.logical| == |p.keys|
  }

  predicate LifecyclePasses(p: Plan, d: Disk) {
    AllDocuments(d) && Consistent(p, d) && Conserved(p, d)
  }

  predicate CheckpointPasses(p: Plan, d: Disk) {
    && LifecyclePasses(p, d)
    && p.limit == MAX_LIMIT && p.catalogSize >= MAX_LIMIT
    && |p.keys| == MAX_LIMIT && p.Shortfall() == 0
    && d.report.value.completion.checkpointComplete
    && d.report.value.state == Completed
    && (forall r | r in d.outcomes.value.rows :: IsTerminal(r.outcome))
  }

  // ------------------------------------------ one document exchanged for another

  /** In a directory that passes, another report passes if and only if it agrees in state, processed,
      terminal and pending count, revision and completion. */
  lemma OtherReportPasses(p: Plan, d: Disk, r: ReportDoc)
    requires LifecyclePasses(p, d)
    ensures
      var was := d.report.value;
      LifecyclePasses(p, d.(report := Some(r))) <==>
        && r.state == was.state && r.processed == was.processed && r.terminal == was.terminal
        && r.pending == was.pending && r.revision == was.revision && r.completion == was.completion
  {
  }

  /** Another status passes only if it is the same one. */
  lemma OtherStatusPasses(p: Plan, d: Disk, s: StatusDoc)
    requires LifecyclePasses(p, d)
    ensures LifecyclePasses(p, d.(status := Some(s))) <==> s == d.status.value
  {
  }

  /** Another checkpoint passes if and only if it agrees in everything but its cursor. */
  lemma OtherCheckpointPasses(p: Plan, d: Disk, c: CheckpointDoc)
    requires LifecyclePasses(p, d)
    ensures
      var was := d.checkpoint.value;
      LifecyclePasses(p, d.(checkpoint := Some(c))) <==>
        && c.revision == was.revision && c.selectedKeys == was.selectedKeys && c.counts == was.counts
        && c.processed == was.processed && c.terminal == was.terminal
  {
  }

  /** Another attempts file passes if and only if it agrees in its revision and has one logical
      attempt per selected key. */
  lemma OtherAttemptsPass(p: Plan, d: Disk, a: AttemptsDoc)
    requires LifecyclePasses(p, d)
    ensures LifecyclePasses(p, d.(attempts := Some(a))) <==>
      a.revision == d.attempts.value.revision && |a.logical| == |p.keys|
  {
  }

  /** Another outcomes file passes if and only if it agrees in its revision and in the number of
      terminal rows, and has every selected key once. */
  lemma OtherOutcomesPass(p: Plan, d: Disk, o: OutcomesDoc)
    requires LifecyclePasses(p, d)
    ensures LifecyclePasses(p, d.(outcomes := Some(o))) <==>
      && o.revision == d.outcomes.value.revision
      && CountTerminal(o.rows) == CountTerminal(d.outcomes.value.rows)
      && |o.rows| == |p.keys| && (forall i, j | 0 <= i < j < |o.rows| :: o.rows[i].key != o.rows[j].key)
      && (forall key :: key in p.keys <==> exists r | r in o.rows :: r.key == key)
  {
    RowsDistinctIff(o.rows);
    assert KeysOf(o.rows) == SetOf(p.keys) <==>
      forall key :: key in p.keys <==> exists r | r in o.rows :: r.key == key by {
      forall key ensures key in KeysOf(o.rows) <==> exists r | r in o.rows :: r.key == key {}
      forall key ensures key in SetOf(p.keys) <==> key in p.keys {}
    }
  }

  /** And no document may be missing. */
  lemma EveryDocumentCounts(p: Plan, d: Disk)
    ensures d.outcomes.None? || d.attempts.None? || d.checkpoint.None? || d.report.None? || d.status.None? ==>
      !LifecyclePasses(p, d)
  {
  }

  lemma {:induction false} RowsDistinctIff(rows: seq<Row>)
    ensures |KeysOf(rows)| <= |rows|
    ensures |KeysOf(rows)| == |rows| <==> forall i, j | 0 <= i < j < |rows| :: rows[i].key != rows[j].key
  {
    if |rows| > 0 {
      var init, last := rows[..|rows| - 1], rows[|rows| - 1];
      RowsDistinctIff(init);
      assert rows == init + [last];
      assert KeysOf(rows) == KeysOf(init) + {last.key};
      if last.key in KeysOf(init) {
        assert KeysOf(rows) == KeysOf(init);
        var r :| r in init && r.key == last.key;
        var i :| 0 <= i < |init| && init[i] == r;
        assert rows[i].key == rows[|rows| - 1].key;
      } else {
        assert |KeysOf(rows)| == |KeysOf(init)| + 1;
        forall i | 0 <= i < |init| ensures rows[i].key != last.key { assert init[i] in init; }
      }
    }
  }

  // ------------------------------------------------ the selection of the preflight

  /** The selection block: `keys` is None when it is no list, the numbers when they are absent. */
  datatype SelectionDoc = SelectionDoc(
    keys: Option<seq<string>>, limit: Option<int>, count: Option<int>, shortfall: Option<int>)

  /** The first n keys; a negative n leaves out the last ones. */
  function FirstKeys(keys: seq<string>, n: int): seq<string> {
    if n >= |keys| then keys
    else if n >= 0 then keys[..n]
    else if |keys| + n >= 0 then keys[..|keys| + n]
    else []
  }

  function Missing(limit: int, records: seq<string>): int {
    if limit > |records| then limit - |records| else 0
  }

  /** A limit takes that many keys from the front and misses the rest of it; a negative one leaves
      that many out at the end. */
  lemma LimitTakes(keys: seq<string>, n: int)
    ensures FirstKeys(keys, n) <= keys
    ensures n >= 0 ==> |FirstKeys(keys, n)| + Missing(n, keys) == n
    ensures n < 0 ==> Missing(n, keys) == 0 && |FirstKeys(keys, n)| == if -n < |keys| then |keys| + n else 0
    ensures Missing(n, keys) >= 0 && (Missing(n, keys) > 0 ==> FirstKeys(keys, n) == keys)
  {
  }

  /** Keys, count or shortfall are not those of the recorded keys under the limit. */
  predicate SelectionDiffers(s: SelectionDoc, limit: int, records: seq<string>) {
    || s.keys != Some(FirstKeys(records, limit))
    || (s.count.Some? && s.count.value != (if s.keys.Some? then |s.keys.value| else 0))
    || (s.shortfall.Some? && s.shortfall.value != Missing(limit, records))
  }

  /** The refusal. All tests after the first two stand in the else branch of a conditional
      expression whose condition is that the block has a limit; the limit is tested again after
      it. */
  predicate SelectionRefused(s: SelectionDoc, limit: int, records: seq<string>) {
    || (if s.limit.Some? then s.keys.None? || s.limit.value != limit
        else SelectionDiffers(s, limit, records))
    || s.limit.None? || s.limit.value != limit
  }

  /** So a selection is admitted although it differs exactly when it is a list under the right
      limit: the tests of keys, count and shortfall refuse nothing. */
  lemma DifferingSelectionPassesExactly(s: SelectionDoc, limit: int, records: seq<string>)
    ensures SelectionDiffers(s, limit, records) && !SelectionRefused(s, limit, records) <==>
      && s.keys.Some? && s.limit == Some(limit)
      && (|| s.keys.value != FirstKeys(records, limit)
          || (s.count.Some? && s.count.value != |s.keys.value|)
          || (s.shortfall.Some? && s.shortfall.value != Missing(limit, records)))
  {
  }

  /** Two blocks of a list under the right limit are treated alike, whatever they select. */
  lemma OnlyLimitAndListMatter(s: SelectionDoc, t: SelectionDoc, limit: int, records: seq<string>)
    requires s.limit == t.limit && (s.keys.Some? <==> t.keys.Some?)
    ensures SelectionRefused(s, limit, records) <==> SelectionRefused(t, limit, records)
  {
  }

  // ----------------------------------------------------------- evaluation

  datatype Approval = Approval(approved: bool, reviewer: string, reason: string)

  datatype ReasonCode =
    | StateMismatch | CheckpointIncomplete | ExcludedItems | ReleaseApprovalMissing
    | ReviewerMissing | ReasonMissing | CandidateSetIncomplete

  datatype Evaluation = Evaluation(
    eligible: bool, checkpointComplete: bool, members: seq<Row>, excluded: seq<Row>,
    reasons: seq<ReasonCode>)

  /** The loop over the outcomes: an item is a member when the lifecycle checks passed and
      its own joins hold, and excluded otherwise. */
  method SplitItems(rows: seq<Row>, stateOk: bool, admits: Row -> bool)
    returns (members: seq<Row>, excluded: seq<Row>)
    ensures multiset(members) + multiset(excluded) == multiset(rows)
    ensures |members| + |excluded| == |rows|
    ensures forall r | r in members :: stateOk && admits(r)
    ensures forall r | r in excluded :: !stateOk || !admits(r)
  {
    members, excluded := [], [];
    var i := 0;
    while i < |rows|
      invariant 0 <= i <= |rows|
      invariant multiset(members) + multiset(excluded) == multiset(rows[..i])
      invariant |members| + |excluded| == i
      invariant forall r | r in members :: stateOk && admits(r)
      invariant forall r | r in excluded :: !stateOk || !admits(r)
    {
      assert rows[..i + 1] == rows[..i] + [rows[i]];
      if stateOk && admits(rows[i]) {
        members := members + [rows[i]];
      } else {
        excluded := excluded + [rows[i]];
      }
      i := i + 1;
    }
    assert rows[..i] == rows;
  }

  method ApprovalReasons(a: Approval) returns (reasons: seq<ReasonCode>)
    ensures reasons == (if !a.approved then [ReleaseApprovalMissing]
                        else if Blank(a.reviewer) then [ReviewerMissing]
                        else if Blank(a.reason) then [ReasonMissing]
                        else [])
  {
    reasons := [];
    if !a.approved {
      reasons := [ReleaseApprovalMissing];
    } else if Blank(a.reviewer) {
      reasons := [ReviewerMissing];
    } else if Blank(a.reason) {
      reasons := [ReasonMissing];
    }
  }

  method CollectReasons(stateOk: bool, complete: bool, excluded: bool, short: bool, approval: Approval)
    returns (reasons: seq<ReasonCode>)
    ensures reasons == [] <==>
      && stateOk && complete && !excluded && !short
      && approval.approved && !Blank(approval.reviewer) && !Blank(approval.reason)
    ensures StateMismatch in reasons <==> !stateOk
    ensures CheckpointIncomplete in reasons <==> !complete
    ensures ExcludedItems in reasons <==> excluded
    ensures CandidateSetIncomplete in reasons <==> short
    ensures ReleaseApprovalMissing in reasons <==> !approval.approved
    ensures ReviewerMissing in reasons <==> approval.approved && Blank(approval.reviewer)
    ensures ReasonMissing in reasons <==>
      approval.approved && !Blank(approval.reviewer) && Blank(approval.reason)
  {
    reasons := ApprovalReasons(approval);
    if short { reasons := [CandidateSetIncomplete] + reasons; }
    if excluded { reasons := [ExcludedItems] + reasons; }
    if !complete { reasons := [CheckpointIncomplete] + reasons; }
    if !stateOk { reasons := [StateMismatch] + reasons; }
  }

  /** Evaluate the documents of a run. `admits` stands for the per-item lineage joins. */
  method Evaluate(p: Plan, d: Disk, admits: Row -> bool, approval: Approval)
    returns (e: Evaluation)
    requires AllDocuments(d)
    ensures multiset(e.members) + multiset(e.excluded) == multiset(Rows(d))
    ensures forall r | r in e.members :: LifecyclePasses(p, d) && admits(r)
    ensures e.checkpointComplete <==> CheckpointPasses(p, d)
    ensures e.eligible <==>
      && CheckpointPasses(p, d) && (forall r | r in Rows(d) :: admits(r))
      && approval.approved && !Blank(approval.reviewer) && !Blank(approval.reason)
    ensures e.eligible <==> e.reasons == []
    ensures StateMismatch in e.reasons <==> !LifecyclePasses(p, d)
    ensures CheckpointIncomplete in e.reasons <==> !CheckpointPasses(p, d)
    ensures ExcludedItems in e.reasons <==> e.excluded != []
    ensures CandidateSetIncomplete in e.reasons <==> |e.members| < |Rows(d)|
    ensures ReleaseApprovalMissing in e.reasons <==> !approval.approved
    ensures ReviewerMissing in e.reasons <==> approval.approved && Blank(approval.reviewer)
    ensures ReasonMissing in e.reasons <==>
      approval.approved && !Blank(approval.reviewer) && Blank(approval.reason)
  {
    hide Consistent, Conserved;
    var rows := d.outcomes.value.rows;
    var stateOk := LifecyclePasses(p, d);
    var members, excluded := SplitItems(rows, stateOk, admits);
    var complete := CheckpointPasses(p, d);
    MembersCover(rows, members, excluded);
    assert excluded != [] ==> excluded[0] in rows && (!stateOk || !admits(excluded[0]));
    var reasons := CollectReasons(stateOk, complete, excluded != [], |members| != |rows|, approval);
    e := Evaluation(reasons == [], complete, members, excluded, reasons);
  }

  lemma MembersCover(rows: seq<Row>, members: seq<Row>, excluded: seq<Row>)
    requires multiset(members) + multiset(excluded) == multiset(rows)
    ensures forall r | r in rows :: r in members || r in excluded
    ensures forall r | r in excluded :: r in rows
    ensures excluded == [] ==> forall r | r in rows :: r in members
  {
    forall r | r in rows ensures r in members || r in excluded {
      assert r in multiset(rows);
    }
    forall r | r in excluded ensures r in rows {
      assert r in multiset(excluded);
      assert r in multiset(rows);
    }
  }

  // -------------------------------------------------------------- theorems

  lemma {:induction false} TerminalsAgree(rows: seq<Row>)
    ensures CountTerminal(rows) == TerminalCount(rows) == |rows| - PendingCount(rows)
  {
    if |rows| > 0 { TerminalsAgree(rows[..|rows| - 1]); }
  }

  lemma FullCommitPasses(p: Plan, d: Disk)
    requires p.Valid() && |p.keys| > 0 && JustCommitted(p, d, {}, |p.keys|)
    ensures LifecyclePasses(p, d)
  {
    var n := |p.keys|;
    TerminalsAgree(LedgerRows(p, n));
    LedgerConserves(p, n);
    LedgerKeys(p, n);
    assert p.keys[..n] == p.keys;
    KeptLength(p, n, {});
  }

  /** On a settled directory the gate's checks leave one possibility only. */
  lemma PassingIsFullCommit(p: Plan, d: Disk, torn: set<nat>, k: Cursors)
    requires |p.keys| > 0 && Settled(p, d, torn, k) && LifecyclePasses(p, d)
    ensures torn == {} && JustCommitted(p, d, {}, |p.keys|)
  {
    hide Kept, CheckpointOf;
    SettledCursors(p, d, torn, k);
    KeptLength(p, k.outcomes, torn);
    assert k == Level(|p.keys|);
  }

  predicate SameDocuments(d: Disk, u: Disk) {
    && d.outcomes == u.outcomes && d.attempts == u.attempts && d.checkpoint == u.checkpoint
    && d.report == u.report && d.status == u.status
  }

  /** A torn run is never eligible, and nothing else is refused: over every history the
      gate's lifecycle checks pass if and only if the five documents are those of an
      uninterrupted run; then no commit was ever torn. */
  lemma GatePassesIffUninterrupted(p: Plan, start: Start, calls: seq<Call>)
    requires p.Valid() && |p.keys| > 0
    ensures
      var d := After(p, start, calls);
      && (LifecyclePasses(p, d) <==> SameDocuments(d, After(p, UNINTERRUPTED, [])))
      && (LifecyclePasses(p, d) ==> AccountOf(p, start, calls).torn == {})
  {
    hide Settled, LifecyclePasses, After, AccountOf, StatusOf, ReportOf, CheckpointOf, Kept;
    var d, u := After(p, start, calls), After(p, UNINTERRUPTED, []);
    UninterruptedRun(p);
    FullCommitPasses(p, u);
    if LifecyclePasses(p, d) {
      if Begun(start) {
        var k := HistorySettles(p, start, calls);
        PassingIsFullCommit(p, d, AccountOf(p, start, calls).torn, k);
        FullCommitsAgree(p, d, u);
      } else {
        NeverBegun(p, start, calls);
        NoStatusNoPass(p, d);
      }
    } else if SameDocuments(d, u) {
      SameDocumentsPass(p, d, u);
    }
  }

  lemma NoStatusNoPass(p: Plan, d: Disk)
    requires d.status.None?
    ensures !LifecyclePasses(p, d)
  {
  }

  lemma SameDocumentsPass(p: Plan, d: Disk, u: Disk)
    requires SameDocuments(d, u) && LifecyclePasses(p, u)
    ensures LifecyclePasses(p, d)
  {
  }

  lemma FullCommitsAgree(p: Plan, d: Disk, u: Disk)
    requires |p.keys| > 0
    requires JustCommitted(p, d, {}, |p.keys|) && JustCommitted(p, u, {}, |p.keys|)
    ensures SameDocuments(d, u)
  {
    hide Kept, ReportOf, StatusOf, CheckpointOf;
  }

  /** What a complete checkpoint comes down to: the documents of an uninterrupted run over
      a full hundred keys whose outcomes are all terminal. */
  lemma CheckpointPassesExactly(p: Plan, start: Start, calls: seq<Call>)
    requires p.Valid() && |p.keys| > 0
    ensures
      var d := After(p, start, calls);
      CheckpointPasses(p, d) <==>
        && SameDocuments(d, After(p, UNINTERRUPTED, []))
        && p.limit == MAX_LIMIT && p.catalogSize >= MAX_LIMIT
        && (forall r | r in LedgerRows(p, |p.keys|) :: IsTerminal(r.outcome))
  {
    hide Settled, Consistent, Conserved, After, StatusOf, CheckpointOf, Kept;
    var d, u := After(p, start, calls), After(p, UNINTERRUPTED, []);
    GatePassesIffUninterrupted(p, start, calls);
    UninterruptedRun(p);
    if SameDocuments(d, u) {
      FullCommitReport(p, u);
      if forall r | r in LedgerRows(p, |p.keys|) :: IsTerminal(r.outcome) {
        NoRetryableAmongTerminals(LedgerRows(p, |p.keys|));
      }
    }
  }

  lemma FullCommitReport(p: Plan, u: Disk)
    requires |p.keys| > 0 && JustCommitted(p, u, {}, |p.keys|)
    ensures Rows(u) == LedgerRows(p, |p.keys|)
    ensures u.report.Some? && u.outcomes.Some?
    ensures u.report.value.state == StateFor(p, Rows(u))
    ensures u.report.value.completion == CompletionOf(p, Rows(u))
  {
    hide Kept, StatusOf, CheckpointOf, CompletionOf, StateFor;
  }

  lemma {:induction false} NoRetryableAmongTerminals(rows: seq<Row>)
    requires forall r | r in rows :: IsTerminal(r.outcome)
    ensures CountOf(rows, Retryable) == 0
  {
    if |rows| > 0 { NoRetryableAmongTerminals(rows[..|rows| - 1]); }
  }
}
