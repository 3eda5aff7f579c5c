/** The bounded retry loop of one observation, against a declarative reading of it. */
module Retry {
  import opened Options

  datatype Class = Timeout | Transient | Permanent | Success

  /** One row of the retry history. */
  datatype Try = Try(number: nat, class_: Class, status: int, willRetry: bool)

  /** How the transport phase ends: the body is read, the observation may be retried by a later
      run, or it failed for good. */
  datatype End = ReadBody(status: int) | RetryLater(status: int) | Failed(status: int, exhausted: bool)

  predicate RetryableStatus(s: int) {
    s == 429 || 500 <= s < 600
  }

  function Classify(s: int): Class {
    if s == 0 then Timeout
    else if s >= 400 then (if RetryableStatus(s) then Transient else Permanent)
    else Success
  }

  predicate IsTransient(s: int) {
    Classify(s) == Timeout || Classify(s) == Transient
  }

  /** The statuses the loop sees: the timeout flag replaces the first one by 0. */
  function Seen(statuses: seq<int>, timeout: bool): (r: seq<int>)
    ensures |r| == |statuses|
  {
    if timeout && |statuses| > 0 then [0] + statuses[1..] else statuses
  }

  function Examined(statuses: seq<int>, maxRetries: nat): nat {
    if maxRetries + 1 < |statuses| then maxRetries + 1 else |statuses|
  }

  // --------------------------------------------------------- specification

  /** The first of n statuses that is not transient, or n. */
  function FirstSettled(seen: seq<int>, n: nat): (k: nat)
    requires n <= |seen|
    ensures k <= n
    ensures k < n ==> !IsTransient(seen[k])
    ensures forall j | 0 <= j < k :: IsTransient(seen[j])
  {
    if n == 0 || !IsTransient(seen[0]) then 0 else 1 + FirstSettled(seen[1..], n - 1)
  }

  /** Transient to the end, with retries to spare, and the last one a timeout. */
  predicate FallsThrough(seen: seq<int>, maxRetries: nat)
    requires |seen| > 0
  {
    FirstSettled(seen, |seen|) == |seen| <= maxRetries && seen[|seen| - 1] == 0
  }

  /** The declared meaning: the first settled status among those examined decides; with none,
      the observation failed when the tries are used up and is retryable otherwise. */
  function Declared(seen: seq<int>, maxRetries: nat): End
    requires |seen| > 0
  {
    var n := Examined(seen, maxRetries);
    var k := FirstSettled(seen, n);
    if k < n then (if seen[k] < 400 then ReadBody(seen[k]) else Failed(seen[k], false))
    else if |seen| > maxRetries then Failed(seen[n - 1], true)
    else RetryLater(seen[n - 1])
  }

  // ------------------------------------------------------- the imperative form

  datatype LastError = LastError(exhausted: bool)

  /** The tries: each transient one but the last is followed by another. `last` is the index of
      the final one. */
  method TryInTurn(statuses: seq<int>, timeout: bool, maxRetries: nat)
    returns (last: nat, status: int, error: Option<LastError>, history: seq<Try>)
    requires |statuses| > 0
    ensures
      var seen, n := Seen(statuses, timeout), Examined(statuses, maxRetries);
      && last < n && status == seen[last] && |history| == last + 1
      && (forall i | 0 <= i < last :: IsTransient(seen[i]))
      && (IsTransient(status) ==> last == n - 1)
      && (forall i | 0 <= i < last :: history[i] == Try(i + 1, Classify(seen[i]), seen[i], true))
      && history[last] == Try(last + 1, Classify(status), status,
                              IsTransient(status) && |statuses| <= maxRetries)
      && error == (if IsTransient(status) then Some(LastError(|statuses| > maxRetries))
                   else if status >= 400 then Some(LastError(false)) else None)
  {
    hide RetryableStatus;
    ghost var seen := Seen(statuses, timeout);
    var n := Examined(statuses, maxRetries);
    history, error := [], None;
    last := 0;
    while true
      invariant last < n && |history| == last && error.None?
      invariant forall i | 0 <= i < last :: IsTransient(seen[i])
      invariant forall i | 0 <= i < last :: history[i] == Try(i + 1, Classify(seen[i]), seen[i], true)
      decreases n - last
    {
      status := if timeout && last == 0 then 0 else statuses[last];
      var c := Classify(status);
      var transient := c == Timeout || c == Transient;
      if transient && last < maxRetries && last < |statuses| - 1 {
        history := history + [Try(last + 1, c, status, true)];
        last := last + 1;
        continue;
      }
      if transient {
        var spare := last == |statuses| - 1 && |statuses| <= maxRetries;
        history := history + [Try(last + 1, c, status, spare)];
        error := Some(LastError(!spare && last >= maxRetries));
      } else {
        history := history + [Try(last + 1, c, status, false)];
        error := if c == Permanent then Some(LastError(false)) else None;
      }
      return;
    }
  }

  lemma SettledAt(seen: seq<int>, n: nat, k: nat)
    requires k <= n <= |seen| && forall i | 0 <= i < k :: IsTransient(seen[i])
    requires k < n ==> !IsTransient(seen[k])
    ensures FirstSettled(seen, n) == k
  {
  }

  /** The loop over an attempt sequence, and the decision after it. */
  method RunSequence(statuses: seq<int>, timeout: bool, maxRetries: nat)
    returns (end: End, history: seq<Try>)
    requires |statuses| > 0
    ensures end == if FallsThrough(Seen(statuses, timeout), maxRetries)
                   then ReadBody(0) else Declared(Seen(statuses, timeout), maxRetries)
    ensures
      var seen := Seen(statuses, timeout);
      var n := Examined(seen, maxRetries);
      var k := FirstSettled(seen, n);
      && |history| == (if k < n then k + 1 else n) <= maxRetries + 1
      && forall i | 0 <= i < |history| ::
           && history[i].number == i + 1 && history[i].status == seen[i]
           && history[i].class_ == Classify(seen[i])
           && (history[i].willRetry <==> i < k && (i + 1 < |history| || |seen| <= maxRetries))
  {
    var last, status, error;
    last, status, error, history := TryInTurn(statuses, timeout, maxRetries);
    ghost var seen := Seen(statuses, timeout);
    ghost var n := Examined(seen, maxRetries);
    ghost var k := if IsTransient(status) then n else last;
    SettledAt(seen, n, k);
    assert FallsThrough(seen, maxRetries) <==> IsTransient(status) && |seen| <= maxRetries && status == 0 by {
      if |seen| <= maxRetries { assert n == |seen|; }
    }
    end := Conclude(status, error);
  }

  /** What the code after the loop makes of the last status and the last error. */
  method Conclude(status: int, error: Option<LastError>) returns (end: End)
    requires error.None? ==> 0 != status < 400
    requires error.Some? ==> IsTransient(status) || Classify(status) == Permanent
    ensures end ==
      if IsTransient(status) && error.Some? && error.value.exhausted then Failed(status, true)
      else if Classify(status) == Permanent then Failed(status, false)
      else if Classify(status) == Transient then RetryLater(status)
      else ReadBody(status)
  {
    var c := Classify(status);
    if (c == Transient || c == Timeout) && error.Some? && error.value.exhausted {
      return Failed(status, true);
    }
    if status >= 400 {
      if RetryableStatus(status) { return RetryLater(status); }
      return Failed(status, false);
    }
    end := ReadBody(status);
  }

  /** Without an attempt sequence one status governs, and the retry bound is not consulted. */
  method RunSingle(base: int, timeout: bool) returns (end: End, history: seq<Try>)
    ensures |history| == 1
    ensures
      var s := if timeout then 0 else base;
      end == if IsTransient(s) then RetryLater(s) else if s < 400 then ReadBody(s) else Failed(s, false)
  {
    var status := if timeout then 0 else base;
    var c := Classify(status);
    match c {
      case Timeout =>
        history, end := [Try(1, c, status, true)], RetryLater(status);
      case Transient =>
        history, end := [Try(1, c, status, true)], RetryLater(status);
      case Permanent =>
        history, end := [Try(1, c, status, false)], Failed(status, false);
      case Success =>
        history, end := [Try(1, c, status, false)], ReadBody(status);
    }
  }

  // ---------------------------------------------------------------- theorems

  /** Statuses as the catalog admits them. */
  predicate Admitted(statuses: seq<int>) {
    |statuses| > 0 && forall s | s in statuses :: 100 <= s <= 599
  }

  /** The loop departs from its declared meaning exactly when the timeout flag meets a sequence
      of one entry with a retry to spare: status 0 then reads as a success. */
  lemma FallsThroughExactly(statuses: seq<int>, timeout: bool, maxRetries: nat)
    requires Admitted(statuses)
    ensures FallsThrough(Seen(statuses, timeout), maxRetries) <==>
      timeout && |statuses| == 1 && maxRetries >= 1
  {
    var seen := Seen(statuses, timeout);
    assert statuses[|statuses| - 1] in statuses;
    if |statuses| == 1 && timeout {
      assert seen == [0];
      assert FirstSettled(seen, 1) == 1;
    }
    if |statuses| > 1 {
      assert seen[|seen| - 1] == statuses[|statuses| - 1];
    }
  }

  /** More retries never turn a read into anything else, and can only turn an exhausted
      failure into something better. */
  lemma {:induction false} MoreRetriesOnlyHelp(seen: seq<int>, maxRetries: nat)
    requires |seen| > 0
    ensures
      var d, d' := Declared(seen, maxRetries), Declared(seen, maxRetries + 1);
      && (d.ReadBody? || (d.Failed? && !d.exhausted) || d.RetryLater? ==> d' == d)
      && (d'.Failed? && d'.exhausted ==> d.Failed? && d.exhausted)
  {
    FirstSettledStays(seen, Examined(seen, maxRetries), Examined(seen, maxRetries + 1));
  }

  lemma {:induction false} FirstSettledStays(seen: seq<int>, n: nat, m: nat)
    requires n <= m <= |seen|
    ensures FirstSettled(seen, n) < n ==> FirstSettled(seen, m) == FirstSettled(seen, n)
    ensures FirstSettled(seen, m) >= FirstSettled(seen, n)
    decreases n
  {
    if n > 0 && IsTransient(seen[0]) { FirstSettledStays(seen[1..], n - 1, m - 1); }
  }

  /** The statuses worth another try: no answer, too many requests, and the server errors. */
  predicate Temporary(s: int) {
    s == 0 || s == 429 || 500 <= s <= 599
  }

  lemma ClassesExactly(s: int)
    ensures Classify(s) == Timeout <==> s == 0
    ensures Classify(s) == Transient <==> Temporary(s) && s != 0
    ensures Classify(s) == Permanent <==> s >= 400 && !Temporary(s)
    ensures Classify(s) == Success <==> s < 400 && s != 0
  {
  }

  /** Try k is made and is the first that is not to be repeated. */
  predicate SettlesAt(seen: seq<int>, maxRetries: nat, k: nat) {
    k < |seen| && k <= maxRetries && !Temporary(seen[k]) && forall j | 0 <= j < k :: Temporary(seen[j])
  }

  /** The declared meaning without its computation. At most the first maxRetries + 1 statuses are
      looked at. The first of them that is not temporary decides, by being an error or not. When
      all are temporary the observation failed for good if there are more statuses than retries,
      and may be retried later if not. */
  lemma DeclaredExactly(seen: seq<int>, maxRetries: nat)
    requires |seen| > 0
    ensures
      var d := Declared(seen, maxRetries);
      && (forall k | 0 <= k < |seen| && SettlesAt(seen, maxRetries, k) ::
            d == if seen[k] < 400 then ReadBody(seen[k]) else Failed(seen[k], false))
      && ((forall k | 0 <= k < |seen| && k <= maxRetries :: Temporary(seen[k])) ==>
            d == if |seen| > maxRetries then Failed(seen[maxRetries], true) else RetryLater(seen[|seen| - 1]))
      && ((exists k | 0 <= k < |seen| :: SettlesAt(seen, maxRetries, k))
          || (forall k | 0 <= k < |seen| && k <= maxRetries :: Temporary(seen[k])))
  {
    hide FirstSettled, RetryableStatus;
    var n := Examined(seen, maxRetries);
    var f := FirstSettled(seen, n);
    forall s: int ensures IsTransient(s) <==> Temporary(s) { TransientIsTemporary(s); }
    forall k | 0 <= k < |seen| && SettlesAt(seen, maxRetries, k) ensures k == f < n {
      assert !IsTransient(seen[k]);
    }
    if f < n { assert SettlesAt(seen, maxRetries, f); }
  }

  lemma TransientIsTemporary(s: int)
    ensures IsTransient(s) <==> Temporary(s)
  {
  }

  /** The timeout flag replaces the first status by "no answer" and leaves the others. */
  lemma SeenExactly(statuses: seq<int>, timeout: bool, i: nat)
    requires i < |statuses|
    ensures |Seen(statuses, timeout)| == |statuses|
    ensures Seen(statuses, timeout)[i] == (if timeout && i == 0 then 0 else statuses[i])
  {
  }

  /** Falling through means: every status is temporary, the last one is no answer, and there are no
      more statuses than retries. */
  lemma FallsThroughMeans(seen: seq<int>, maxRetries: nat)
    requires |seen| > 0
    ensures FallsThrough(seen, maxRetries) <==>
      && (forall k | 0 <= k < |seen| :: Temporary(seen[k]))
      && seen[|seen| - 1] == 0 && |seen| <= maxRetries
  {
    forall s: int ensures IsTransient(s) <==> Temporary(s) { TransientIsTemporary(s); }
    var f := FirstSettled(seen, |seen|);
    if f < |seen| { assert !Temporary(seen[f]); }
  }
}
