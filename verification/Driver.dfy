/** The checkpoint driver: one object over the run directories of a caller root. Every
    method is proved to have exactly the effect of the corresponding session function. */
module Driver {
  import opened Options
  import opened Ledger
  import opened Sessions
  import I = Idempotency

  class CheckpointDriver {
    /** The run directories, by run id. */
    var runs: map<string, Disk>
    /** The idempotency index: the run and the fingerprint a key is bound to. */
    var bindings: map<string, I.Binding>
    /** Durable writes this process still completes before it dies. */
    var fuse: Option<nat>

    constructor (root: I.Root, fuse: Option<nat>)
      ensures RootOf() == root && this.fuse == fuse
    {
      this.runs := root.runs;
      this.bindings := root.bindings;
      this.fuse := fuse;
    }

    ghost function RootOf(): I.Root
      reads this
    {
      I.Root(runs, bindings)
    }

    ghost function IoOf(id: string, alive: bool): Io
      reads this
      requires id in runs
    {
      Io(runs[id], fuse, alive)
    }

    /** Only the directory `id` may differ from what it was. */
    twostate predicate OnlyChanged(id: string)
      reads this
    {
      id in runs && runs == old(runs)[id := runs[id]]
    }

    /** Atomic replacement of one state document, or the death of the process. */
    method WriteState(id: string, w: Write) returns (ok: bool)
      requires id in runs
      modifies `runs, `fuse
      ensures OnlyChanged(id)
      ensures IoOf(id, ok) == Put(old(IoOf(id, true)), w)
    {
      if fuse == Some(0) { return false; }
      runs := runs[id := Apply(runs[id], w)];
      fuse := if fuse.Some? then Some(fuse.value - 1) else None;
      ok := true;
    }

    /** The documents of one group, written one after the other until the process dies. */
    method WriteGroup(id: string, ws: seq<Write>) returns (ok: bool)
      requires id in runs
      modifies `runs, `fuse
      ensures OnlyChanged(id)
      ensures IoOf(id, ok) == PutAll(old(IoOf(id, true)), ws)
    {
      var i := 0;
      ok := true;
      while i < |ws|
        invariant 0 <= i <= |ws| && ok
        invariant OnlyChanged(id)
        invariant IoOf(id, ok) == PutAll(old(IoOf(id, true)), ws[..i])
      {
        assert ws[..i + 1][..i] == ws[..i];
        ok := WriteState(id, ws[i]);
        i := i + 1;
        if !ok {
          DeadWritesNothing(old(IoOf(id, true)), ws, i);
          return;
        }
      }
      assert ws[..i] == ws;
    }

    method CountOutcomes(rows: seq<Row>) returns (counts: map<Outcome, nat>)
      ensures counts == Tally(rows)
    {
      hide Tally;
      counts := map o | o in ALL_OUTCOMES :: 0;
      NothingTallied();
      var i := 0;
      while i < |rows|
        invariant 0 <= i <= |rows|
        invariant counts.Keys == ALL_OUTCOMES && counts == Tally(rows[..i])
      {
        TallyNext(rows, i);
        var o := rows[i].outcome;
        counts := counts[o := counts[o] + 1];
        i := i + 1;
      }
      assert rows[..i] == rows;
    }

    /** The exclusion list and the accepted joins of the report, in ledger order. */
    method SplitKeys(rows: seq<Row>) returns (accepted: seq<string>, excluded: seq<string>)
      ensures accepted == AcceptedKeys(rows) && excluded == ExcludedKeys(rows)
    {
      accepted, excluded := [], [];
      var i := 0;
      while i < |rows|
        invariant 0 <= i <= |rows|
        invariant accepted == AcceptedKeys(rows[..i]) && excluded == ExcludedKeys(rows[..i])
      {
        assert rows[..i + 1][..i] == rows[..i];
        if rows[i].outcome == Accepted {
          accepted := accepted + [rows[i].key];
        } else {
          excluded := excluded + [rows[i].key];
        }
        i := i + 1;
      }
      assert rows[..i] == rows;
    }

    /** Is every outcome of the ledger a terminal one? */
    method AllTerminal(rows: seq<Row>) returns (all: bool)
      ensures all <==> forall r | r in rows :: IsTerminal(r.outcome)
    {
      var i := 0;
      while i < |rows|
        invariant 0 <= i <= |rows|
        invariant forall j | 0 <= j < i :: IsTerminal(rows[j].outcome)
      {
        if !IsTerminal(rows[i].outcome) { return false; }
        i := i + 1;
      }
      all := true;
    }

    /** The completion reasons of a revision. */
    method BuildReasons(p: Plan, rows: seq<Row>, counts: map<Outcome, nat>)
      returns (reasons: seq<Reason>)
      requires counts == Tally(rows)
      ensures reasons == Reasons(p, rows)
    {
      reasons := [];
      if p.Shortfall() > 0 { reasons := reasons + [CatalogShortfall]; }
      if |rows| < |p.keys| {
        reasons := reasons + [IncompleteCheckpoint];
      } else if counts[Accepted] != |p.keys| {
        reasons := reasons + [NonAcceptedOutcomes];
      }
      if p.limit < MAX_LIMIT { reasons := reasons + [LimitBelowMaximum]; }
      if counts[Retryable] > 0 { reasons := reasons + [RetryableTransport]; }
      if |rows| == |p.keys| {
        reasons := reasons + [CandidateNotCreated, ReleaseApprovalRequired];
      }
    }

    method BuildReport(p: Plan, revision: nat, m: Memory, counts: map<Outcome, nat>)
      returns (report: ReportDoc)
      requires counts == Tally(m.rows)
      ensures report == ReportOf(p, revision, m)
    {
      var accepted, excluded := SplitKeys(m.rows);
      var allTerminal := AllTerminal(m.rows);
      var final := |m.rows| == |p.keys|;
      var retryable := counts[Retryable] > 0;
      var state := if !final then Running else if retryable then Blocked else Completed;
      var terminal := counts[Accepted] + counts[Quarantined] + counts[Rejected] + counts[Failed];
      var pending := counts[Pending] + counts[InProgress] + counts[Retryable];
      var reasons := BuildReasons(p, m.rows, counts);
      var complete :=
        final && allTerminal && !retryable && p.Shortfall() == 0 && p.limit == MAX_LIMIT;
      var partition :=
        |m.rows| < |p.keys| ||
        (&& |p.keys| == |KeysOf(m.rows)|
         && |p.keys| == terminal + pending
         && SetOf(p.keys[..if |m.rows| <= |p.keys| then |m.rows| else |p.keys|])
            == SetOf(accepted) + SetOf(excluded));
      report := ReportDoc(
        revision, state, |m.rows|, |p.keys|, |m.rows|, terminal, pending, counts,
        Completion(if state == Blocked then Blocked else Completed, true, pending == 0,
                   complete, reasons),
        accepted, excluded, partition, |m.logical|, m.physical);
    }

    /** One revision: fence, then outcomes, attempts, checkpoint, report, status. */
    method CommitRevision(id: string, p: Plan, revision: nat, m: Memory, generation: nat)
      returns (end: End)
      requires id in runs
      modifies `runs, `fuse
      ensures OnlyChanged(id)
      ensures old(Fenced(runs[id], generation)) ==>
        end == FencedOut && IoOf(id, true) == old(IoOf(id, true))
      ensures !old(Fenced(runs[id], generation)) ==>
        && end in {Finished, Died}
        && IoOf(id, end == Finished)
           == PutAll(old(IoOf(id, true)), CommitWrites(p, revision, m))
    {
      if Fenced(runs[id], generation) { return FencedOut; }
      var counts := CountOutcomes(m.rows);
      var report := BuildReport(p, revision, m, counts);
      var writes := [
        PutOutcomes(OutcomesDoc(revision, m.rows)),
        PutAttempts(AttemptsDoc(revision, m.logical, m.physical)),
        PutCheckpoint(CheckpointDoc(
          revision, |m.rows|, p.keys, counts, |m.rows|, report.terminal)),
        PutReport(report),
        PutStatus(StatusDoc(
          revision, report.state, |m.rows|, |p.keys|, counts, Some(report.completion),
          p.fingerprints.run))];
      assert writes == CommitWrites(p, revision, m);
      var ok := WriteGroup(id, writes);
      end := if ok then Finished else Died;
    }

    /** The interrupt marker: no fence, and no status is an error after the lease write. */
    method MarkInterrupted(id: string) returns (end: End)
      requires id in runs
      modifies `runs, `fuse
      ensures OnlyChanged(id)
      ensures IoOf(id, end != Died) == PutAll(old(IoOf(id, true)), InterruptWrites(old(runs[id])))
      ensures end == MarkedEnd(old(runs[id]), end != Died)
    {
      var d := runs[id];
      var writes: seq<Write> := [];
      if d.lease.Some? {
        writes := writes + [PutLease(d.lease.value.(interrupted := true))];
      }
      if d.status.Some? {
        if d.report.Some? {
          writes := writes + [PutReport(InterruptReport(d.report.value))];
        }
        writes := writes + [PutStatus(InterruptStatus(d.status.value))];
      }
      assert writes == InterruptWrites(d);
      var ok := WriteGroup(id, writes);
      end := if !ok then Died else if d.status.None? then NotFound else InterruptedEnd;
    }

    /** One turn of the serial loop. */
    method ProcessKey(id: string, p: Plan, before: Memory, generation: nat, interrupt: Option<int>)
      returns (m: Memory, end: End)
      requires id in runs && |before.rows| < |p.keys|
      modifies `runs, `fuse
      ensures OnlyChanged(id)
      ensures Session(IoOf(id, end != Died), m, end)
              == DriveKey(p, old(IoOf(id, true)), before, generation, interrupt)
      ensures end == Finished ==> |m.rows| == |before.rows| + 1
    {
      hide PutAll, CommitWrites, InterruptWrites;
      m := before;
      if Fenced(runs[id], generation) { return m, FencedOut; }
      var index := |before.rows|;
      var processed := p.process(p.keys[index], index);
      m := Memory(
        before.rows + [Row(p.keys[index], index, processed.outcome)],
        before.logical + [Attempt(p.keys[index], index, processed.sources)],
        before.physical + processed.sources);
      assert m == Extend(p, before);
      end := CommitRevision(id, p, 2 + index, m, generation);
      if end == Finished && interrupt.Some? && |m.rows| >= interrupt.value {
        end := MarkInterrupted(id);
      }
    }

    /** The serial loop over the selected keys, from the cursor in `start`. */
    method ProcessKeys(id: string, p: Plan, start: Memory, generation: nat, interrupt: Option<int>)
      returns (m: Memory, end: End)
      requires id in runs
      modifies `runs, `fuse
      ensures OnlyChanged(id)
      ensures Session(IoOf(id, end != Died), m, end)
              == Drive(p, old(IoOf(id, true)), start, generation, interrupt)
    {
      hide DriveKey, Apply, Put;
      m := start;
      while |m.rows| < |p.keys|
        invariant OnlyChanged(id)
        invariant Drive(p, IoOf(id, true), m, generation, interrupt)
                  == Drive(p, old(IoOf(id, true)), start, generation, interrupt)
        decreases |p.keys| - |m.rows|
      {
        m, end := ProcessKey(id, p, m, generation, interrupt);
        if end != Finished { return; }
      }
      end := Finished;
    }

    method CreateRun(id: string, p: Plan) returns (ok: bool)
      requires id !in runs
      modifies `runs, `fuse
      ensures OnlyChanged(id)
      ensures IoOf(id, ok) == PutAll(old(Io(EMPTY_DISK, fuse, true)), CreateWrites(p))
    {
      runs := runs[id := EMPTY_DISK];
      var zeros := CountOutcomes([]);
      ok := WriteGroup(id, [
        PutRequest, PutPreflight(p.fingerprints), PutLease(Lease(1, false)),
        PutStatus(StatusDoc(0, Created, 0, |p.keys|, zeros, None, p.fingerprints.run))]);
    }

    method FinishRun(id: string, p: Plan, m: Memory) returns (end: End)
      requires id in runs
      modifies `runs, `fuse
      ensures OnlyChanged(id)
      ensures Session(IoOf(id, end != Died), m, end) == Finalize(p, old(IoOf(id, true)), m)
    {
      var counts := CountOutcomes(m.rows);
      var keys := KeysOf(m.rows);
      if |m.rows| != |keys| || keys != SetOf(p.keys) { return LedgerFault; }
      var state := if counts[Retryable] > 0 then Blocked else Completed;
      if runs[id].status.None? { return NotFound; }
      if runs[id].report.None? { return NoReport; }
      if runs[id].status.value.state != state {
        var status := runs[id].status.value.(
          state := state, completion := Some(runs[id].report.value.completion));
        var ok := WriteState(id, PutStatus(status));
        if !ok { return Died; }
      }
      end := Finished;
    }

    method ExecuteRun(id: string, p: Plan, interrupt: Option<int>)
      returns (m: Memory, end: End)
      requires id in runs
      modifies `runs, `fuse
      ensures OnlyChanged(id)
      ensures Session(IoOf(id, end != Died), m, end)
              == Execute(p, old(IoOf(id, true)), interrupt)
    {
      hide Drive, Put, Apply, Tally, Finalize;
      var generation := if runs[id].lease.Some? then runs[id].lease.value.generation else 1;
      var zeros := CountOutcomes([]);
      var ok := WriteState(id, PutStatus(StatusDoc(1, Running, 0, |p.keys|, zeros, None, p.fingerprints.run)));
      if !ok { return EMPTY_MEMORY, Died; }
      label started:
      m, end := ProcessKeys(id, p, EMPTY_MEMORY, generation, interrupt);
      assert Session(IoOf(id, end != Died), m, end)
             == Drive(p, old@started(IoOf(id, true)), EMPTY_MEMORY, generation, interrupt);
      if end == Finished {
        end := FinishRun(id, p, m);
      }
    }

    /** Resume: the closed transitions, the drift check, the lease reclaim, the loop. */
    method ResumeRun(id: string, p: Plan, keyBound: bool) returns (m: Memory, end: End)
      requires id in runs
      modifies `runs, `fuse
      ensures OnlyChanged(id)
      ensures Session(IoOf(id, end != Died), m, end)
              == Sessions.Resume(p, old(runs[id]), keyBound, old(fuse))
    {
      hide Drive, Apply;
      m := EMPTY_MEMORY;
      if runs[id].status.None? { return m, NotFound; }
      var status := runs[id].status.value;
      if status.state == Blocked || status.state == FailedRun { return m, Terminal; }
      if status.state == Completed {
        if status.run != p.fingerprints.run { return m, Conflict; }
        return m, if runs[id].report.Some? then Finished else NoReport;
      }
      if status.state == Created { return m, NotResumable; }
      if runs[id].preflight.None? { return m, NotFound; }
      if runs[id].preflight.value != p.fingerprints {
        if keyBound { return m, Conflict; }
        var marked := WriteState(id, PutStatus(status.(state := Blocked)));
        return m, if marked then DriftBlocked else Died;
      }
      var current := if runs[id].lease.Some? then runs[id].lease.value.generation else 1;
      var ok := WriteState(id, PutLease(Lease(current + 1, false)));
      if !ok { return m, Died; }
      m := Memory(Rows(runs[id]), Logical(runs[id]), Physical(runs[id]));
      m, end := ProcessKeys(id, p, m, current + 1, None);
      if end == Finished && runs[id].report.None? { end := NoReport; }
    }

    method LoadResult(id: string) returns (answer: I.Answer)
      ensures answer == I.Load(RootOf(), id)
    {
      if id !in runs || runs[id].status.None? || runs[id].report.None? {
        return I.Refused(NotFound);
      }
      answer := I.Returned(id);
    }

    method BindIdempotency(key: string, id: string, fingerprint: string)
      returns (answer: I.Answer)
      modifies `bindings, `fuse
      ensures I.Reply(RootOf(), answer) == old(I.Bind(RootOf(), key, id, fingerprint, fuse))
    {
      var value := I.Binding(id, fingerprint);
      if key in bindings && bindings[key] != value { return I.Refused(Conflict); }
      if fuse == Some(0) { return I.Refused(Died); }
      bindings := bindings[key := value];
      fuse := if fuse.Some? then Some(fuse.value - 1) else None;
      answer := LoadResult(id);
    }

    /** Create, execute and bind a directory. `raises`: a failing write raises a persistence
        error instead of killing the process. */
    method RunNew(p: Plan, id: string, key: string, interrupt: Option<int>, fault: I.Fault)
      returns (answer: I.Answer)
      requires id == I.RunId(p.fingerprints.run) && id !in runs && fuse == fault.Fuse()
      modifies this
      ensures I.Reply(RootOf(), answer)
              == I.RunNew(old(RootOf()), I.RunCall(p, key, interrupt, fault))
    {
      hide Execute, PutAll, CreateWrites, I.RunId;
      I.CreateKnows(p, fuse);
      var ok := CreateRun(id, p);
      if !ok {
        if fault.Raises? && !runs[id].request {
          runs := runs - {id};
          assert runs == old(runs);
        }
        return I.Refused(Died);
      }
      I.ExecuteKeeps(p, IoOf(id, true), interrupt);
      var m, end := ExecuteRun(id, p, interrupt);
      if end != Finished && end != InterruptedEnd { return I.Refused(end); }
      answer := BindIdempotency(key, id, p.fingerprints.run);
    }

    /** One run call: an existing binding, an existing directory, or a new run. */
    method Run(p: Plan, key: string, interrupt: Option<int>, fault: I.Fault)
      returns (answer: I.Answer)
      requires fuse == fault.Fuse()
      modifies this
      ensures I.Reply(RootOf(), answer)
              == I.Run(old(RootOf()), I.RunCall(p, key, interrupt, fault))
    {
      hide I.RunId, I.RunNew;
      if key in bindings {
        if bindings[key].fingerprint != p.fingerprints.run { return I.Refused(Conflict); }
        answer := LoadResult(bindings[key].runId);
        return;
      }
      var id := I.RunId(p.fingerprints.run);
      if id in runs && runs[id].report.Some? {
        if runs[id].preflight.None? { return I.Refused(NotFound); }
        if runs[id].preflight.value.run != p.fingerprints.run { return I.Refused(Conflict); }
        answer := BindIdempotency(key, id, p.fingerprints.run);
        return;
      }
      if id in runs { return I.Refused(Conflict); }
      answer := RunNew(p, id, key, interrupt, fault);
    }

    /** One resume call. */
    method Resume(p: Plan, id: string, presented: Option<string>, fault: I.Fault)
      returns (answer: I.Answer)
      requires fuse == fault.Fuse()
      modifies this
      ensures I.Reply(RootOf(), answer)
              == I.ResumeAt(old(RootOf()), I.ResumeCall(p, id, presented, fault))
    {
      hide Reclaim;
      if id !in runs { return I.Refused(NotFound); }
      var bound := presented.Some? && presented.value in bindings
        && bindings[presented.value].runId == id;
      var m, end := ResumeRun(id, p, bound);
      answer := if end == Finished then I.Returned(id) else I.Refused(end);
    }
  }
}
