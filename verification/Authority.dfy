/** Processing one record: every binding is observed once, officials first, and the first
    accepted official alone decides the canonical entry. */
module Authority {
  import opened Options
  import opened Selection
  import opened Order
  import L = Ledger

  /** What observing one binding yields; `entry` is the parsed entry, if there is one. */
  datatype Observed = Observed(outcome: L.Outcome, entry: Option<string>)

  datatype SelectionResult = NotSelected | SelectedOfficial | OfficialNotSelected

  datatype ConflictResult = NotEvaluated | NoConflict | InConflict | Quarantine

  /** One physical attempt row. */
  datatype Row = Row(
    sequence: nat, binding: Binding, observed: Observed, selection: SelectionResult,
    conflict: ConflictResult, conflictId: bool, reviewed: bool)

  datatype Decision = Decision(outcome: L.Outcome, canonical: Option<string>)

  predicate Official(b: Binding) {
    IsOfficial(b.ref)
  }

  predicate Accepts(o: Observed) {
    o.outcome == L.Accepted && o.entry.Some?
  }

  // --------------------------------------------------------- specification

  function Officials(bs: seq<Binding>): seq<Binding> {
    if |bs| == 0 then []
    else
      Officials(bs[..|bs| - 1]) + (if Official(bs[|bs| - 1]) then [bs[|bs| - 1]] else [])
  }

  function Evidence(bs: seq<Binding>): seq<Binding> {
    if |bs| == 0 then []
    else
      Evidence(bs[..|bs| - 1]) + (if Official(bs[|bs| - 1]) then [] else [bs[|bs| - 1]])
  }

  /** The attempt order. */
  function Attempted(bs: seq<Binding>): seq<Binding> {
    Officials(bs) + Evidence(bs)
  }

  /** The index of the first accepted binding, or the length. */
  function FirstAccepted(bs: seq<Binding>, observe: Binding -> Observed): (i: nat)
    ensures i <= |bs|
    ensures i < |bs| ==> Accepts(observe(bs[i]))
    ensures forall j | 0 <= j < i :: !Accepts(observe(bs[j]))
  {
    if |bs| == 0 || Accepts(observe(bs[0])) then 0 else 1 + FirstAccepted(bs[1..], observe)
  }

  predicate DiffersFrom(b: Binding, observe: Binding -> Observed, differs: (string, string) -> bool, winner: string) {
    var o := observe(b);
    !Official(b) && Accepts(o) && differs(winner, o.entry.value)
  }

  ghost function Decide(
      bs: seq<Binding>, observe: Binding -> Observed, differs: (string, string) -> bool): Decision
  {
    var officials := Officials(bs);
    var i := FirstAccepted(officials, observe);
    if i < |officials| then
      var winner := observe(officials[i]).entry.value;
      Decision(if exists b | b in bs :: DiffersFrom(b, observe, differs, winner)
               then L.Quarantined else L.Accepted, Some(winner))
    else
      Decision(if exists b | b in bs :: observe(b).outcome == L.Retryable
               then L.Retryable else L.Quarantined, None)
  }

  lemma {:induction false} SplitBindings(bs: seq<Binding>)
    ensures forall b :: b in Officials(bs) <==> b in bs && Official(b)
    ensures forall b :: b in Evidence(bs) <==> b in bs && !Official(b)
    ensures |Officials(bs)| + |Evidence(bs)| == |bs|
  {
    if |bs| > 0 {
      var init, last := bs[..|bs| - 1], bs[|bs| - 1];
      SplitBindings(init);
      assert bs == init + [last];
    }
  }

  /** The attempt order is a permutation of the bindings. */
  lemma {:induction false} AttemptsPermute(bs: seq<Binding>)
    ensures multiset(Attempted(bs)) == multiset(bs)
  {
    if |bs| > 0 {
      var init, last := bs[..|bs| - 1], bs[|bs| - 1];
      AttemptsPermute(init);
      assert bs == init + [last];
    }
  }

  // ------------------------------------------------------- the imperative form

  /** One more physical row, not selected and not evaluated yet. */
  function OpeningRow(i: nat, b: Binding, observe: Binding -> Observed): Row {
    Row(i + 1, b, observe(b), NotSelected, NotEvaluated, false, false)
  }

  predicate Opened(rows: seq<Row>, bs: seq<Binding>, observe: Binding -> Observed) {
    |rows| == |bs| && forall i | 0 <= i < |bs| :: rows[i] == OpeningRow(i, bs[i], observe)
  }

  /** Observe the officials, look for the first accepted one, observe the evidence. */
  method ObserveAll(bs: seq<Binding>, observe: Binding -> Observed)
    returns (rows: seq<Row>, officials: nat, winner: nat)
    ensures Opened(rows, Attempted(bs), observe)
    ensures officials == |Officials(bs)| && winner == FirstAccepted(Officials(bs), observe)
  {
    rows := [];
    var i := 0;
    while i < |bs|
      invariant 0 <= i <= |bs| && Opened(rows, Officials(bs[..i]), observe)
    {
      assert bs[..i + 1][..i] == bs[..i];
      if Official(bs[i]) { rows := rows + [OpeningRow(|rows|, bs[i], observe)]; }
      i := i + 1;
    }
    assert bs[..i] == bs;
    officials := |rows|;
    winner := SearchAccepted(rows, Officials(bs), observe);
    i := 0;
    while i < |bs|
      invariant 0 <= i <= |bs|
      invariant Opened(rows, Officials(bs) + Evidence(bs[..i]), observe)
    {
      assert bs[..i + 1][..i] == bs[..i];
      if !Official(bs[i]) { rows := rows + [OpeningRow(|rows|, bs[i], observe)]; }
      i := i + 1;
    }
    assert bs[..i] == bs;
  }

  method SearchAccepted(rows: seq<Row>, ghost bs: seq<Binding>, observe: Binding -> Observed)
    returns (i: nat)
    requires Opened(rows, bs, observe)
    ensures i == FirstAccepted(bs, observe)
  {
    i := 0;
    while i < |rows|
      invariant 0 <= i <= |rows|
      invariant forall j | 0 <= j < i :: !Accepts(observe(bs[j]))
    {
      if Accepts(rows[i].observed) { return; }
      i := i + 1;
    }
  }

  /** The rows of a record with a winner. */
  predicate DecidedRows(
      rows: seq<Row>, bs: seq<Binding>, observe: Binding -> Observed,
      differs: (string, string) -> bool, officials: nat, w: nat)
    requires w < officials <= |bs| && observe(bs[w]).entry.Some?
  {
    var winner := observe(bs[w]).entry.value;
    var conflict := exists i | officials <= i < |bs| :: DiffersFrom(bs[i], observe, differs, winner);
    && |rows| == |bs|
    && (forall i | 0 <= i < |bs| ::
          && rows[i].sequence == i + 1 && rows[i].binding == bs[i]
          && rows[i].observed == observe(bs[i]) && !rows[i].reviewed
          && (rows[i].conflictId <==> rows[i].conflict == InConflict))
    && (forall i | 0 <= i < officials ::
          && rows[i].selection == (if i == w then SelectedOfficial else OfficialNotSelected)
          && rows[i].conflict == (if i == w && conflict then InConflict else NotEvaluated))
    && (forall i | officials <= i < |bs| ::
          && rows[i].selection == NotSelected
          && rows[i].conflict ==
             (if !Accepts(rows[i].observed) then NotEvaluated
              else if differs(winner, rows[i].observed.entry.value) then InConflict
              else NoConflict))
  }

  /** Mark the winner, compare every accepted evidence with it, and hand the one conflict id to
      every row in conflict. */
  method CompareEvidence(
      initial: seq<Row>, ghost bs: seq<Binding>, observe: Binding -> Observed,
      differs: (string, string) -> bool, officials: nat, w: nat)
    returns (rows: seq<Row>, conflict: bool)
    requires Opened(initial, bs, observe) && w < officials <= |bs| && Accepts(observe(bs[w]))
    requires forall i | officials <= i < |bs| :: !Official(bs[i])
    ensures DecidedRows(rows, bs, observe, differs, officials, w)
    ensures conflict <==>
      exists i | officials <= i < |bs| ::
        DiffersFrom(bs[i], observe, differs, observe(bs[w]).entry.value)
  {
    var winner := initial[w].observed.entry.value;
    rows := [];
    var i := 0;
    while i < officials
      invariant 0 <= i <= officials && |rows| == i
      invariant forall j | 0 <= j < i ::
        rows[j] == initial[j].(selection := if j == w then SelectedOfficial else OfficialNotSelected)
    {
      rows := rows + [initial[i].(selection := if i == w then SelectedOfficial else OfficialNotSelected)];
      i := i + 1;
    }
    conflict := false;
    while i < |initial|
      invariant officials <= i <= |initial| && |rows| == i
      invariant forall j | 0 <= j < officials ::
        rows[j] == initial[j].(selection := if j == w then SelectedOfficial else OfficialNotSelected)
      invariant forall j | officials <= j < i ::
        rows[j] == initial[j].(
          conflict := if !Accepts(initial[j].observed) then NotEvaluated
                      else if differs(winner, initial[j].observed.entry.value) then InConflict
                      else NoConflict,
          conflictId := Accepts(initial[j].observed) && differs(winner, initial[j].observed.entry.value))
      invariant conflict <==> exists j | officials <= j < i :: DiffersFrom(bs[j], observe, differs, winner)
    {
      var row := initial[i];
      if Accepts(row.observed) {
        if differs(winner, row.observed.entry.value) {
          assert DiffersFrom(bs[i], observe, differs, winner);
          row := row.(conflict := InConflict, conflictId := true);
          conflict := true;
        } else {
          row := row.(conflict := NoConflict);
        }
      }
      rows := rows + [row];
      i := i + 1;
    }
    if conflict {
      rows := rows[w := rows[w].(conflict := InConflict, conflictId := true)];
    }
  }

  /** A row that is reviewed when no official won. */
  predicate NeedsReview(o: Observed) {
    o.outcome != L.Accepted && o.outcome != L.Retryable
  }

  /** The rows of a record without a winner: each failed one is quarantined with a review, or
      the first one when none failed. */
  predicate ReviewedRows(rows: seq<Row>, bs: seq<Binding>, observe: Binding -> Observed) {
    var none := forall i | 0 <= i < |bs| :: !NeedsReview(observe(bs[i]));
    && |rows| == |bs|
    && forall i | 0 <= i < |bs| ::
         && rows[i].sequence == i + 1 && rows[i].binding == bs[i]
         && rows[i].observed == observe(bs[i]) && rows[i].selection == NotSelected
         && !rows[i].conflictId
         && (rows[i].reviewed <==> NeedsReview(observe(bs[i])) || (none && i == 0))
         && rows[i].conflict == (if rows[i].reviewed then Quarantine else NotEvaluated)
  }

  method FinishWithoutOfficial(initial: seq<Row>, ghost bs: seq<Binding>, observe: Binding -> Observed)
    returns (rows: seq<Row>, retryable: bool)
    requires Opened(initial, bs, observe) && |bs| > 0
    ensures ReviewedRows(rows, bs, observe)
    ensures retryable <==> exists b | b in bs :: observe(b).outcome == L.Retryable
  {
    rows := [];
    retryable := false;
    var reviewed := false;
    var i := 0;
    while i < |initial|
      invariant 0 <= i <= |initial| && |rows| == i
      invariant forall j | 0 <= j < i ::
        rows[j] == (if NeedsReview(initial[j].observed)
                    then initial[j].(conflict := Quarantine, reviewed := true) else initial[j])
      invariant reviewed <==> exists j | 0 <= j < i :: NeedsReview(observe(bs[j]))
      invariant retryable <==> exists j | 0 <= j < i :: observe(bs[j]).outcome == L.Retryable
    {
      var row := initial[i];
      if NeedsReview(row.observed) {
        assert NeedsReview(observe(bs[i]));
        row := row.(conflict := Quarantine, reviewed := true);
        reviewed := true;
      }
      if row.observed.outcome == L.Retryable {
        assert observe(bs[i]).outcome == L.Retryable;
        retryable := true;
      }
      rows := rows + [row];
      i := i + 1;
    }
    if !reviewed {
      rows := rows[0 := rows[0].(conflict := Quarantine, reviewed := true)];
    }
  }

  /** Process one record over its ordered bindings. */
  method ProcessRecord(
      bs: seq<Binding>, observe: Binding -> Observed, differs: (string, string) -> bool)
    returns (rows: seq<Row>, d: Decision)
    requires |bs| > 0
    ensures d == Decide(bs, observe, differs)
    ensures |rows| == |Attempted(bs)| == |bs| && forall i | 0 <= i < |rows| ::
      && rows[i].sequence == i + 1 && rows[i].binding == Attempted(bs)[i]
      && rows[i].observed == observe(rows[i].binding)
    ensures
      var w := FirstAccepted(Officials(bs), observe);
      if w < |Officials(bs)|
      then DecidedRows(rows, Attempted(bs), observe, differs, |Officials(bs)|, w)
      else ReviewedRows(rows, Attempted(bs), observe)
  {
    hide DecidedRows, ReviewedRows, FirstAccepted, DiffersFrom;
    SplitBindings(bs);
    AttemptsPermute(bs);
    var initial, officials, w := ObserveAll(bs, observe);
    ghost var all := Attempted(bs);
    assert |all| == |bs|;
    forall i | officials <= i < |all| ensures !Official(all[i]) {
      assert all[i] in Evidence(bs);
    }
    if w < officials {
      assert all[w] == Officials(bs)[w];
      var conflict;
      rows, conflict := CompareEvidence(initial, all, observe, differs, officials, w);
      d := Decision(if conflict then L.Quarantined else L.Accepted, initial[w].observed.entry);
      ConflictAnywhere(bs, observe, differs, initial[w].observed.entry.value);
      DecidedHeaders(rows, all, observe, differs, officials, w);
    } else {
      var retryable;
      rows, retryable := FinishWithoutOfficial(initial, all, observe);
      d := Decision(if retryable then L.Retryable else L.Quarantined, None);
      SameMembers(all, bs);
      ReviewedHeaders(rows, all, observe);
    }
  }

  lemma SameMembers(a: seq<Binding>, b: seq<Binding>)
    requires multiset(a) == multiset(b)
    ensures forall x :: x in a <==> x in b
  {
    forall x ensures x in a <==> x in b {
      assert x in multiset(a) <==> x in multiset(b);
    }
  }

  /** A conflict among the evidence rows is a conflict among the bindings. */
  lemma ConflictAnywhere(
      bs: seq<Binding>, observe: Binding -> Observed, differs: (string, string) -> bool, winner: string)
    ensures
      (exists i | |Officials(bs)| <= i < |Attempted(bs)| ::
         DiffersFrom(Attempted(bs)[i], observe, differs, winner))
      <==> exists b | b in bs :: DiffersFrom(b, observe, differs, winner)
  {
    SplitBindings(bs);
    var all, n := Attempted(bs), |Officials(bs)|;
    if b :| b in bs && DiffersFrom(b, observe, differs, winner) {
      assert b in Evidence(bs);
      var k :| 0 <= k < |Evidence(bs)| && Evidence(bs)[k] == b;
      assert all[n + k] == b;
    }
    if i :| n <= i < |all| && DiffersFrom(all[i], observe, differs, winner) {
      assert all[i] == Evidence(bs)[i - n];
      assert all[i] in Evidence(bs);
    }
  }

  lemma DecidedHeaders(
      rows: seq<Row>, bs: seq<Binding>, observe: Binding -> Observed,
      differs: (string, string) -> bool, officials: nat, w: nat)
    requires w < officials <= |bs| && observe(bs[w]).entry.Some?
    requires DecidedRows(rows, bs, observe, differs, officials, w)
    ensures |rows| == |bs| && forall i | 0 <= i < |rows| ::
      && rows[i].sequence == i + 1 && rows[i].binding == bs[i] && rows[i].observed == observe(bs[i])
  {
  }

  lemma ReviewedHeaders(rows: seq<Row>, bs: seq<Binding>, observe: Binding -> Observed)
    requires ReviewedRows(rows, bs, observe)
    ensures |rows| == |bs| && forall i | 0 <= i < |rows| ::
      && rows[i].sequence == i + 1 && rows[i].binding == bs[i] && rows[i].observed == observe(bs[i])
  {
  }

  // ---------------------------------------------------------------- theorems

  ghost predicate SomeOfficialAccepted(bs: seq<Binding>, observe: Binding -> Observed) {
    exists b | b in bs :: Official(b) && Accepts(observe(b))
  }

  lemma WinnerExists(bs: seq<Binding>, observe: Binding -> Observed)
    ensures FirstAccepted(Officials(bs), observe) < |Officials(bs)| <==> SomeOfficialAccepted(bs, observe)
  {
    SplitBindings(bs);
    var officials := Officials(bs);
    var i := FirstAccepted(officials, observe);
    if i < |officials| {
      assert officials[i] in officials;
    } else {
      forall b | b in bs && Official(b) ensures !Accepts(observe(b)) {
        var k :| 0 <= k < |officials| && officials[k] == b;
      }
    }
  }

  /** The i-th attempt is the first official one that is accepted. */
  predicate FirstOfficial(bs: seq<Binding>, observe: Binding -> Observed, i: nat) {
    var all := Attempted(bs);
    && i < |all| && Official(all[i]) && Accepts(observe(all[i]))
    && forall j | 0 <= j < i :: !(Official(all[j]) && Accepts(observe(all[j])))
  }

  lemma WinnerIsFirst(bs: seq<Binding>, observe: Binding -> Observed, i: nat)
    ensures FirstOfficial(bs, observe, i) <==> i < |Officials(bs)| && i == FirstAccepted(Officials(bs), observe)
  {
    SplitBindings(bs);
    var officials, all, k := Officials(bs), Attempted(bs), FirstAccepted(Officials(bs), observe);
    forall j | 0 <= j < |all| ensures Official(all[j]) <==> j < |officials| {
      if j < |officials| {
        assert all[j] == officials[j] && officials[j] in officials;
      } else {
        assert all[j] == Evidence(bs)[j - |officials|] && all[j] in Evidence(bs);
      }
    }
    if k < |officials| {
      assert all[k] == officials[k];
      assert forall j | 0 <= j < k :: all[j] == officials[j];
    }
  }

  /** The authority of the outcome: the canonical entry is that of the first accepted official in
      attempt order and of no one else; the outcome is accepted exactly when there is one and no
      accepted evidence differs from it, quarantined when one differs, and without an accepted
      official retryable exactly when some attempt is, else quarantined. */
  lemma OutcomeAuthority(
      bs: seq<Binding>, observe: Binding -> Observed, differs: (string, string) -> bool)
    ensures
      var d := Decide(bs, observe, differs);
      && (d.canonical.Some? <==> SomeOfficialAccepted(bs, observe))
      && (d.canonical.Some? <==> exists i: nat :: FirstOfficial(bs, observe, i))
      && (forall i: nat | FirstOfficial(bs, observe, i) :: d.canonical == observe(Attempted(bs)[i]).entry)
      && (d.outcome == L.Accepted <==>
            && d.canonical.Some?
            && forall b | b in bs && !Official(b) && Accepts(observe(b)) ::
                 !differs(d.canonical.value, observe(b).entry.value))
      && (d.outcome == L.Retryable <==>
            && !SomeOfficialAccepted(bs, observe)
            && exists b | b in bs :: observe(b).outcome == L.Retryable)
      && d.outcome in {L.Accepted, L.Quarantined, L.Retryable}
  {
    WinnerExists(bs, observe);
    SplitBindings(bs);
    var officials := Officials(bs);
    var i := FirstAccepted(officials, observe);
    WinnerIsFirst(bs, observe, i);
    forall k: nat | FirstOfficial(bs, observe, k) ensures k == i && i < |officials| {
      WinnerIsFirst(bs, observe, k);
    }
    if i < |officials| {
      assert officials[i] in officials;
      var winner := observe(officials[i]).entry.value;
      if forall b | b in bs && !Official(b) && Accepts(observe(b)) :: !differs(winner, observe(b).entry.value) {
        forall b | b in bs ensures !DiffersFrom(b, observe, differs, winner) {}
      } else {
        var b :| b in bs && !Official(b) && Accepts(observe(b)) && differs(winner, observe(b).entry.value);
        assert DiffersFrom(b, observe, differs, winner);
      }
    }
  }

  /** The order of the evidence does not matter: any order of the bindings that keeps the
      officials in theirs decides the same. */
  lemma EvidenceOrderIrrelevant(
      bs: seq<Binding>, cs: seq<Binding>, observe: Binding -> Observed,
      differs: (string, string) -> bool)
    requires multiset(bs) == multiset(cs) && Officials(bs) == Officials(cs)
    ensures Decide(bs, observe, differs) == Decide(cs, observe, differs)
  {
    SameMembers(bs, cs);
  }

  /** More evidence never makes a record accepted and never changes its canonical entry. */
  lemma EvidenceOnlyBlocks(
      bs: seq<Binding>, b: Binding, observe: Binding -> Observed, differs: (string, string) -> bool)
    requires !Official(b)
    ensures
      var d, d' := Decide(bs, observe, differs), Decide(bs + [b], observe, differs);
      && d'.canonical == d.canonical
      && (d'.outcome == L.Accepted ==> d.outcome == L.Accepted)
      && (d'.outcome != d.outcome ==> observe(b).outcome in {L.Accepted, L.Retryable})
  {
    var more := bs + [b];
    assert more[..|more| - 1] == bs;
    assert Officials(more) == Officials(bs);
    forall x ensures x in more <==> x in bs || x == b {}
    var officials := Officials(bs);
    var i := FirstAccepted(officials, observe);
    if i < |officials| {
      var winner := observe(officials[i]).entry.value;
      assert (exists x | x in more :: DiffersFrom(x, observe, differs, winner))
        <==> (exists x | x in bs :: DiffersFrom(x, observe, differs, winner))
             || DiffersFrom(b, observe, differs, winner);
    } else {
      assert (exists x | x in more :: observe(x).outcome == L.Retryable)
        <==> (exists x | x in bs :: observe(x).outcome == L.Retryable)
             || observe(b).outcome == L.Retryable;
    }
  }

  /** The outcomes of the selected records, in ledger order. */
  ghost function OutcomesOf(
      p: Preflight, observe: (Record, Binding) -> Observed, differs: (string, string) -> bool)
    : seq<L.Outcome>
  {
    seq(|p.selected|, i requires 0 <= i < |p.selected| =>
      Decide(OrderedBindings(p.selected[i]), b => observe(p.selected[i], b), differs).outcome)
  }

  /** The outcomes of a run do not depend on the order of the catalog or of the observations in
      it: both orders are refused, or both yield the same outcome for the same selected keys. */
  lemma OutcomesForgetOrder(
      w: World, catalogId: string, corpus: string, pins: string, limit: int,
      a: seq<Entry>, b: seq<Entry>,
      observe: (Record, Binding) -> Observed, differs: (string, string) -> bool)
    requires SameCatalog(a, b)
    ensures
      var pa := Preflighted(w, catalogId, corpus, pins, limit, a);
      var pb := Preflighted(w, catalogId, corpus, pins, limit, b);
      && (pa.Some? <==> pb.Some?)
      && (pa.Some? ==>
            && Map(KEY_OF, pa.value.selected) == Map(KEY_OF, pb.value.selected)
            && OutcomesOf(pa.value, observe, differs) == OutcomesOf(pb.value, observe, differs))
  {
    hide Preflighted, Decide, SameCatalog;
    PreflightForgetsOrder(w, catalogId, corpus, pins, limit, a, b);
  }

  // ------------------------------------------------- what the rows of a record tell

  /** An evidence that is accepted and differs from the canonical entry. */
  predicate Contradicts(bs: seq<Binding>, observe: Binding -> Observed, differs: (string, string) -> bool,
                        canonical: string, i: nat)
  {
    && i < |Attempted(bs)|
    && var b := Attempted(bs)[i];
    b.ref.kind !in {"official-live", "official-snapshot"}
    && observe(b).outcome == L.Accepted && observe(b).entry.Some? && differs(canonical, observe(b).entry.value)
  }

  /** The rows of a record that has a canonical entry: the first accepted official is selected, the
      other officials are not, evidence is never selected; a contradicting evidence is in conflict
      and so then is the selected row, an accepted one that does not contradict is not, and nothing
      else is evaluated; the conflict id marks the rows in conflict, and nothing is reviewed. */
  lemma DecidedRowsTell(
      bs: seq<Binding>, observe: Binding -> Observed, differs: (string, string) -> bool, rows: seq<Row>, i: nat)
    requires FirstAccepted(Officials(bs), observe) < |Officials(bs)| && i < |Attempted(bs)|
    requires |Officials(bs)| <= |Attempted(bs)|
    requires observe(Attempted(bs)[FirstAccepted(Officials(bs), observe)]).entry.Some?
    requires DecidedRows(rows, Attempted(bs), observe, differs, |Officials(bs)|, FirstAccepted(Officials(bs), observe))
    ensures |rows| == |Attempted(bs)|
    ensures
      var d := Decide(bs, observe, differs);
      var b, row := Attempted(bs)[i], rows[i];
      var official := b.ref.kind in {"official-live", "official-snapshot"};
      var first := FirstOfficial(bs, observe, i);
      && d.canonical.Some? && !row.reviewed
      && row.selection == (if first then SelectedOfficial else if official then OfficialNotSelected else NotSelected)
      && row.conflict == (if first && (exists j :: Contradicts(bs, observe, differs, d.canonical.value, j))
                          then InConflict
                          else if Contradicts(bs, observe, differs, d.canonical.value, i) then InConflict
                          else if !official && observe(b).outcome == L.Accepted && observe(b).entry.Some?
                          then NoConflict
                          else NotEvaluated)
      && (row.conflictId <==> row.conflict == InConflict)
  {
    SplitBindings(bs);
    WinnerIsFirst(bs, observe, i);
    var all, n, w := Attempted(bs), |Officials(bs)|, FirstAccepted(Officials(bs), observe);
    forall j | 0 <= j < |all| ensures Official(all[j]) <==> j < n {
      if j < n {
        assert all[j] == Officials(bs)[j] && Officials(bs)[j] in Officials(bs);
      } else {
        assert all[j] == Evidence(bs)[j - n] && all[j] in Evidence(bs);
      }
    }
    assert all[w] == Officials(bs)[w];
    var winner := observe(all[w]).entry.value;
    forall j: nat | j < |all|
      ensures Contradicts(bs, observe, differs, winner, j) <==> j >= n && DiffersFrom(all[j], observe, differs, winner)
    {
    }
    if exists j | n <= j < |all| :: DiffersFrom(all[j], observe, differs, winner) {
      var j :| n <= j < |all| && DiffersFrom(all[j], observe, differs, winner);
      assert Contradicts(bs, observe, differs, winner, j);
    }
  }

  /** The rows of a record without a canonical entry: none is selected or in conflict; every failed
      attempt is quarantined for review, and the first one when none failed. */
  lemma ReviewedRowsTell(bs: seq<Binding>, observe: Binding -> Observed, rows: seq<Row>, i: nat)
    requires ReviewedRows(rows, Attempted(bs), observe) && i < |Attempted(bs)|
    ensures |rows| == |Attempted(bs)|
    ensures
      var all, row := Attempted(bs), rows[i];
      var failed := observe(all[i]).outcome !in {L.Accepted, L.Retryable};
      && row.selection == NotSelected && !row.conflictId
      && (row.reviewed <==>
            failed || (i == 0 && forall b | b in all :: observe(b).outcome in {L.Accepted, L.Retryable}))
      && row.conflict == (if row.reviewed then Quarantine else NotEvaluated)
    ensures exists j | 0 <= j < |rows| :: rows[j].reviewed
  {
    var all := Attempted(bs);
    if forall j | 0 <= j < |all| :: !NeedsReview(observe(all[j])) {
      assert rows[0].reviewed;
    } else {
      var j :| 0 <= j < |all| && NeedsReview(observe(all[j]));
      assert rows[j].reviewed && all[j] in all;
    }
  }
}
