/** The release pointer and its history: promotion, rollback and seeding under a lock, with
    a process that may die at the two file replacements of a move. */
module Registry {
  import opened Options
  import opened Order

  /** The pointer. The token "gen-N" is represented by N. */
  datatype Pointer = Pointer(version: string, generation: nat)

  datatype ReleaseStatus = Validated | Current | OtherStatus

  datatype Release = Release(version: string, hash: string, status: ReleaseStatus)

  datatype Move = Promotion | Rollback

  datatype Event = Event(
    move: Move, fromVersion: string, toVersion: string, generation: nat,
    expected: int, operationId: string, hash: string)

  /** The two files of a root. `damaged` says that the pointer file is there but cannot be read:
      every call then finds no pointer, and no seed writes one. */
  datatype Store = Store(
    current: Option<Pointer>, releases: seq<Release>, events: seq<Event>, damaged: bool)

  const EMPTY_STORE := Store(None, [], [], false)

  datatype Approval = Approval(reviewer: string, reason: string, policy: string, target: string)

  /** What the call finds on disk for its version: the manifest and its verification. */
  datatype Found = Found(manifest: bool, verified: bool, hash: string)

  /** A promote or rollback call; `fuse` is the number of file replacements it completes
      before its process dies. */
  datatype Request = Request(
    version: string, expectedVersion: string, expectedGeneration: int,
    approval: Approval, operationId: string, found: Found, fuse: Option<nat>)

  datatype Answer =
    | Moved(fromVersion: string, generation: nat)
    | AlreadyDone(fromVersion: string, generation: nat)
    | Refused(status: nat)
    | Died

  datatype Reply = Reply(store: Store, answer: Answer)

  const NOT_FOUND: nat := 404
  const CONFLICT: nat := 409
  const UNPROCESSABLE: nat := 422

  /** What promotion demands of an approval: a named reviewer, reason and policy, and a target hash
      that equals the candidate's even when the candidate has none. */
  predicate Approved(a: Approval, hash: string) {
    && !Blank(a.reviewer) && !Blank(a.reason) && !Blank(a.policy)
    && a.target == hash
  }

  /** What rollback demands, and what promotion checks first: the same three names, and the target
      hash of the candidate if it has one. A candidate without a hash accepts any target here;
      promotion then refuses every non-empty one, which makes its demand the stronger `Approved`. */
  predicate ValidApproval(a: Approval, hash: string) {
    && !Blank(a.reviewer) && !Blank(a.reason) && !Blank(a.policy)
    && !(hash != "" && a.target != "" && a.target != hash)
    && !(a.target == "" && hash != "")
  }

  /** The first recorded event of this operation and target. */
  function FindEvent(events: seq<Event>, operationId: string, version: string): (i: nat)
    ensures i <= |events|
  {
    if |events| == 0 || (events[0].operationId == operationId && events[0].toVersion == version)
    then 0
    else 1 + FindEvent(events[1..], operationId, version)
  }

  /** The first listed release of this version. */
  function FindRelease(releases: seq<Release>, version: string): (i: nat)
    ensures i <= |releases|
  {
    if |releases| == 0 || releases[0].version == version then 0
    else 1 + FindRelease(releases[1..], version)
  }

  predicate Lists(releases: seq<Release>, version: string) {
    exists i | 0 <= i < |releases| :: releases[i].version == version
  }

  /** The two file replacements of a move, pointer first. */
  function Save(s: Store, s': Store, fuse: Option<nat>): (r: Store) {
    if fuse == Some(0) then s
    else if fuse == Some(1) then s.(current := s'.current)
    else s'
  }

  function Survives(fuse: Option<nat>): bool {
    fuse.None? || fuse.value >= 2
  }

  function MoveEvent(move: Move, s: Store, q: Request, hash: string): Event
    requires s.current.Some?
  {
    Event(move, s.current.value.version, q.version, s.current.value.generation + 1,
          q.expectedGeneration, q.operationId, hash)
  }

  function Moving(move: Move, s: Store, q: Request, hash: string, releases: seq<Release>): Reply
    requires s.current.Some?
  {
    var event := MoveEvent(move, s, q, hash);
    var s' := Store(Some(Pointer(q.version, event.generation)), releases, s.events + [event], s.damaged);
    Reply(Save(s, s', q.fuse),
          if Survives(q.fuse) then Moved(event.fromVersion, event.generation) else Died)
  }

  predicate Expected(p: Pointer, q: Request) {
    p.version == q.expectedVersion && p.generation == q.expectedGeneration
  }

  function WithRelease(releases: seq<Release>, version: string, hash: string): seq<Release> {
    if Lists(releases, version) then releases else releases + [Release(version, hash, Validated)]
  }

  function Promote(s: Store, q: Request): Reply {
    if s.current.None? then Reply(s, Refused(NOT_FOUND))
    else
      var e := FindEvent(s.events, q.operationId, q.version);
      if e < |s.events| then Reply(s, AlreadyDone(s.events[e].fromVersion, s.events[e].generation))
      else if !Expected(s.current.value, q) then Reply(s, Refused(CONFLICT))
      else if !q.found.manifest then Reply(s, Refused(NOT_FOUND))
      else if !q.found.verified then Reply(s, Refused(UNPROCESSABLE))
      else if !Approved(q.approval, q.found.hash) then Reply(s, Refused(UNPROCESSABLE))
      else Moving(Promotion, s, q, q.found.hash, WithRelease(s.releases, q.version, q.found.hash))
  }

  function RollBack(s: Store, q: Request): Reply {
    if s.current.None? then Reply(s, Refused(NOT_FOUND))
    else if s.current.value.version == q.version then
      var e := FindEvent(s.events, q.operationId, q.version);
      if e < |s.events| then Reply(s, AlreadyDone(s.events[e].fromVersion, s.events[e].generation))
      else Reply(s, AlreadyDone(s.current.value.version, s.current.value.generation))
    else if !Expected(s.current.value, q) then Reply(s, Refused(CONFLICT))
    else
      var i := FindRelease(s.releases, q.version);
      if i == |s.releases| then Reply(s, Refused(NOT_FOUND))
      else if s.releases[i].status == OtherStatus then Reply(s, Refused(UNPROCESSABLE))
      else if !q.found.manifest then Reply(s, Refused(NOT_FOUND))
      else if !q.found.verified then Reply(s, Refused(UNPROCESSABLE))
      else
        var hash := if q.found.hash != "" then q.found.hash else s.releases[i].hash;
        if !ValidApproval(q.approval, hash) then Reply(s, Refused(UNPROCESSABLE))
        else Moving(Rollback, s, q, hash, s.releases)
  }

  const VERSION_KEY: Release -> Key := (r: Release) => [r.version]

  /** Seeding writes the history first, without its events, and a first pointer last. It writes in
      place: `cut` says that the write in which the process dies has already truncated its file. A
      truncated history reads as an empty one. */
  function Seed(s: Store, version: string, hash: string, fuse: Option<nat>, cut: bool): Store {
    if Lists(s.releases, version) then SeedPointer(s, version, fuse, cut)
    else if fuse == Some(0) then if cut then s.(releases := [], events := []) else s
    else
      var releases := SortBy(s.releases + [Release(version, hash, Validated)], VERSION_KEY);
      SeedPointer(s.(releases := releases, events := []), version,
                  if fuse.None? then None else Some(fuse.value - 1), cut)
  }

  function SeedPointer(s: Store, version: string, fuse: Option<nat>, cut: bool): Store {
    if s.current.Some? || s.damaged then s
    else if fuse == Some(0) then s.(damaged := cut)
    else s.(current := Some(Pointer(version, 1)))
  }

  datatype Op =
    | PromoteOp(q: Request)
    | RollbackOp(q: Request)
    | SeedOp(version: string, hash: string, fuse: Option<nat>, cut: bool)

  function Step(s: Store, op: Op): Store {
    match op
    case PromoteOp(q) => Promote(s, q).store
    case RollbackOp(q) => RollBack(s, q).store
    case SeedOp(v, h, f, c) => Seed(s, v, h, f, c)
  }

  function After(s: Store, ops: seq<Op>): Store {
    if |ops| == 0 then s else Step(After(s, ops[..|ops| - 1]), ops[|ops| - 1])
  }

  // ------------------------------------------------------- the imperative form

  /** The registry directory of one root. */
  class ReleaseRegistry {
    var current: Option<Pointer>
    var releases: seq<Release>
    var events: seq<Event>
    var damaged: bool

    constructor (s: Store)
      ensures Contents() == s
    {
      current, releases, events, damaged := s.current, s.releases, s.events, s.damaged;
    }

    ghost function Contents(): Store
      reads this
    {
      Store(current, releases, events, damaged)
    }

    /** The search of the event list for an operation that was already applied. */
    method SearchEvents(operationId: string, version: string) returns (i: nat)
      ensures i == FindEvent(events, operationId, version)
    {
      i := 0;
      while i < |events|
        invariant 0 <= i <= |events|
        invariant FindEvent(events, operationId, version)
                  == i + FindEvent(events[i..], operationId, version)
      {
        if events[i].operationId == operationId && events[i].toVersion == version { return; }
        assert events[i..][1..] == events[i + 1..];
        i := i + 1;
      }
    }

    method SearchReleases(version: string) returns (i: nat)
      ensures i == FindRelease(releases, version)
    {
      i := 0;
      while i < |releases|
        invariant 0 <= i <= |releases|
        invariant FindRelease(releases, version) == i + FindRelease(releases[i..], version)
      {
        if releases[i].version == version { return; }
        assert releases[i..][1..] == releases[i + 1..];
        i := i + 1;
      }
    }

    /** Replace current.json, then history.json. */
    method WriteMove(pointer: Pointer, listed: seq<Release>, event: Event, fuse: Option<nat>)
      returns (ok: bool)
      modifies this
      ensures Contents() == Save(old(Contents()),
                                 Store(Some(pointer), listed, old(events) + [event], old(damaged)), fuse)
      ensures ok == Survives(fuse)
    {
      if fuse == Some(0) { return false; }
      current := Some(pointer);
      if fuse == Some(1) { return false; }
      releases := listed;
      events := events + [event];
      ok := true;
    }

    method PromoteRelease(q: Request) returns (answer: Answer)
      modifies this
      ensures Reply(Contents(), answer) == Promote(old(Contents()), q)
    {
      if current.None? { return Refused(NOT_FOUND); }
      var e := SearchEvents(q.operationId, q.version);
      if e < |events| { return AlreadyDone(events[e].fromVersion, events[e].generation); }
      var pointer := current.value;
      if pointer.version != q.expectedVersion || pointer.generation != q.expectedGeneration {
        return Refused(CONFLICT);
      }
      if !q.found.manifest { return Refused(NOT_FOUND); }
      if !q.found.verified { return Refused(UNPROCESSABLE); }
      if !ValidApproval(q.approval, q.found.hash) { return Refused(UNPROCESSABLE); }
      if q.approval.target != "" && q.approval.target != q.found.hash {
        return Refused(UNPROCESSABLE);
      }
      var listed := releases;
      var i := SearchReleases(q.version);
      FindReleaseIsFirst(releases, q.version);
      if i == |releases| {
        listed := listed + [Release(q.version, q.found.hash, Validated)];
      }
      var generation := pointer.generation + 1;
      var event := Event(Promotion, pointer.version, q.version, generation,
                         q.expectedGeneration, q.operationId, q.found.hash);
      var ok := WriteMove(Pointer(q.version, generation), listed, event, q.fuse);
      answer := if ok then Moved(pointer.version, generation) else Died;
    }

    method RollBackRelease(q: Request) returns (answer: Answer)
      modifies this
      ensures Reply(Contents(), answer) == RollBack(old(Contents()), q)
    {
      if current.None? { return Refused(NOT_FOUND); }
      var pointer := current.value;
      if pointer.version == q.version {
        var e := SearchEvents(q.operationId, q.version);
        if e < |events| { return AlreadyDone(events[e].fromVersion, events[e].generation); }
        return AlreadyDone(pointer.version, pointer.generation);
      }
      if pointer.version != q.expectedVersion || pointer.generation != q.expectedGeneration {
        return Refused(CONFLICT);
      }
      var i := SearchReleases(q.version);
      if i == |releases| { return Refused(NOT_FOUND); }
      if releases[i].status == OtherStatus { return Refused(UNPROCESSABLE); }
      if !q.found.manifest { return Refused(NOT_FOUND); }
      if !q.found.verified { return Refused(UNPROCESSABLE); }
      var hash := if q.found.hash != "" then q.found.hash else releases[i].hash;
      if !ValidApproval(q.approval, hash) { return Refused(UNPROCESSABLE); }
      var generation := pointer.generation + 1;
      var event := Event(Rollback, pointer.version, q.version, generation,
                         q.expectedGeneration, q.operationId, hash);
      var ok := WriteMove(Pointer(q.version, generation), releases, event, q.fuse);
      answer := if ok then Moved(pointer.version, generation) else Died;
    }

    /** The registry part of seeding a release. */
    method SeedRelease(version: string, hash: string, fuse: Option<nat>, cut: bool) returns (ok: bool)
      modifies this
      ensures Contents() == Seed(old(Contents()), version, hash, fuse, cut)
    {
      var left := fuse;
      var i := SearchReleases(version);
      FindReleaseIsFirst(releases, version);
      if i == |releases| {
        if left == Some(0) {
          if cut { releases, events := [], []; }
          return false;
        }
        releases := SortBy(releases + [Release(version, hash, Validated)], VERSION_KEY);
        events := [];
        left := if left.Some? then Some(left.value - 1) else None;
      }
      if current.None? && !damaged {
        if left == Some(0) {
          damaged := cut;
          return false;
        }
        current := Some(Pointer(version, 1));
      }
      ok := true;
    }
  }

  // ----------------------------------------------------------------- lookups

  lemma {:induction false} FindReleaseIsFirst(releases: seq<Release>, version: string)
    ensures
      var i := FindRelease(releases, version);
      && (i < |releases| <==> Lists(releases, version))
      && (i < |releases| ==> releases[i].version == version)
      && (forall j | 0 <= j < i :: releases[j].version != version)
  {
    if |releases| > 0 && releases[0].version != version {
      FindReleaseIsFirst(releases[1..], version);
      var i := FindRelease(releases[1..], version);
      if i < |releases[1..]| { assert releases[i + 1] == releases[1..][i]; }
    }
  }

  lemma {:induction false} FindEventIsFirst(events: seq<Event>, operationId: string, version: string)
    ensures
      var i := FindEvent(events, operationId, version);
      && (i < |events| ==> events[i].operationId == operationId && events[i].toVersion == version)
      && (i < |events| <==> exists j | 0 <= j < |events| ::
            events[j].operationId == operationId && events[j].toVersion == version)
  {
    if |events| > 0 && !(events[0].operationId == operationId && events[0].toVersion == version) {
      FindEventIsFirst(events[1..], operationId, version);
      var i := FindEvent(events[1..], operationId, version);
      if i < |events[1..]| { assert events[i + 1] == events[1..][i]; }
      if j :| 0 <= j < |events| && events[j].operationId == operationId
              && events[j].toVersion == version {
        assert events[1..][j - 1] == events[j];
      }
    }
  }

  // ----------------------------------------------------------------- ABA safety

  function Generation(s: Store): nat {
    if s.current.Some? then s.current.value.generation else 0
  }

  /** The call changes an existing pointer. */
  predicate Moves(s: Store, op: Op) {
    s.current.Some? && Step(s, op).current != s.current
  }

  function ExpectedBy(op: Op): Option<(string, int)> {
    match op
    case PromoteOp(q) => Some((q.expectedVersion, q.expectedGeneration))
    case RollbackOp(q) => Some((q.expectedVersion, q.expectedGeneration))
    case SeedOp(_, _, _, _) => None
  }

  /** A call moves an existing pointer only if it expected exactly that pointer, and then the
      generation rises by one. */
  lemma MoveIsExpected(s: Store, op: Op)
    requires s.current.Some?
    ensures Step(s, op).current.Some?
    ensures Moves(s, op) ==>
      && ExpectedBy(op) == Some((s.current.value.version, s.current.value.generation))
      && Generation(Step(s, op)) == Generation(s) + 1
    ensures !Moves(s, op) ==> Generation(Step(s, op)) == Generation(s)
  {
  }

  function MoveCount(s: Store, ops: seq<Op>): nat {
    if |ops| == 0 then 0
    else
      var init := ops[..|ops| - 1];
      MoveCount(s, init) + (if Moves(After(s, init), ops[|ops| - 1]) then 1 else 0)
  }

  /** The generation counts the moves, over every history. */
  lemma {:induction false} GenerationsCountMoves(s: Store, ops: seq<Op>)
    requires s.current.Some?
    ensures After(s, ops).current.Some?
    ensures Generation(After(s, ops)) == Generation(s) + MoveCount(s, ops)
  {
    if |ops| > 0 {
      GenerationsCountMoves(s, ops[..|ops| - 1]);
      MoveIsExpected(After(s, ops[..|ops| - 1]), ops[|ops| - 1]);
    }
  }

  lemma {:induction false} MovesOnlyGrow(s: Store, ops: seq<Op>, i: nat)
    requires s.current.Some? && i <= |ops|
    ensures MoveCount(s, ops[..i]) <= MoveCount(s, ops)
    decreases |ops|
  {
    if i == |ops| {
      assert ops[..i] == ops;
    } else {
      MovesOnlyGrow(s, ops[..|ops| - 1], i);
      assert ops[..|ops| - 1][..i] == ops[..i];
    }
  }

  /** ABA safety: of all calls in a history that expect the same version and generation, at
      most one moves the pointer, crashes and returns to that version included. */
  lemma AtMostOneMovePerToken(s: Store, ops: seq<Op>, i: nat, j: nat)
    requires s.current.Some? && i < j < |ops|
    requires ExpectedBy(ops[i]) == ExpectedBy(ops[j])
    ensures !(Moves(After(s, ops[..i]), ops[i]) && Moves(After(s, ops[..j]), ops[j]))
  {
    hide Step;
    var si, sj := After(s, ops[..i]), After(s, ops[..j]);
    if Moves(si, ops[i]) && Moves(sj, ops[j]) {
      MoveIsExpected(si, ops[i]);
      MoveIsExpected(sj, ops[j]);
      assert ops[..i + 1][..i] == ops[..i];
      assert ops[..j][..i + 1] == ops[..i + 1];
      GenerationsCountMoves(s, ops[..i]);
      GenerationsCountMoves(s, ops[..i + 1]);
      GenerationsCountMoves(s, ops[..j]);
      MovesOnlyGrow(s, ops[..j], i + 1);
      assert false;
    }
  }

  // ------------------------------------------------------- the history as a chain

  function Fuse(op: Op): Option<nat> {
    match op
    case PromoteOp(q) => q.fuse
    case RollbackOp(q) => q.fuse
    case SeedOp(_, _, f, _) => f
  }

  /** The call is no seeding of a version that is not listed. */
  predicate Plain(s: Store, op: Op) {
    op.SeedOp? ==> Lists(s.releases, op.version)
  }

  /** The process died between the pointer and the history. */
  predicate Loses(s: Store, op: Op) {
    !op.SeedOp? && Fuse(op) == Some(1) && Moves(s, op)
  }

  ghost predicate AllPlain(s: Store, ops: seq<Op>) {
    forall k | 0 <= k < |ops| :: Plain(After(s, ops[..k]), ops[k])
  }

  ghost predicate NoneLost(s: Store, ops: seq<Op>) {
    forall k | 0 <= k < |ops| :: !Loses(After(s, ops[..k]), ops[k])
  }

  function LostCount(s: Store, ops: seq<Op>): nat {
    if |ops| == 0 then 0
    else
      var init := ops[..|ops| - 1];
      LostCount(s, init) + (if Loses(After(s, init), ops[|ops| - 1]) then 1 else 0)
  }

  lemma StepRecords(s: Store, op: Op)
    requires s.current.Some? && Plain(s, op)
    ensures
      var s' := Step(s, op);
      && s.events <= s'.events && s.releases <= s'.releases
      && |s'.events| == |s.events| + (if Moves(s, op) && !Loses(s, op) then 1 else 0)
  {
  }

  lemma AllPlainInit(s: Store, ops: seq<Op>)
    requires |ops| > 0
    ensures AllPlain(s, ops) ==> AllPlain(s, ops[..|ops| - 1]) && Plain(After(s, ops[..|ops| - 1]), ops[|ops| - 1])
    ensures NoneLost(s, ops) ==> NoneLost(s, ops[..|ops| - 1]) && !Loses(After(s, ops[..|ops| - 1]), ops[|ops| - 1])
  {
    forall k | 0 <= k < |ops| - 1 ensures ops[..|ops| - 1][..k] == ops[..k] {}
  }

  /** Exact accounting: without new seeds, the moves that the history does not show are
      exactly those whose process died between the two writes. */
  lemma {:induction false} LostMovesAreExactlyTheCrashes(s: Store, ops: seq<Op>)
    requires s.current.Some? && AllPlain(s, ops)
    ensures
      var s' := After(s, ops);
      && s.events <= s'.events && s.releases <= s'.releases
      && Generation(s') - Generation(s) == |s'.events| - |s.events| + LostCount(s, ops)
  {
    hide Step, Plain, Loses;
    if |ops| > 0 {
      var init := ops[..|ops| - 1];
      AllPlainInit(s, ops);
      LostMovesAreExactlyTheCrashes(s, init);
      GenerationsCountMoves(s, init);
      MoveIsExpected(After(s, init), ops[|ops| - 1]);
      StepRecords(After(s, init), ops[|ops| - 1]);
      LostOnlyMoves(After(s, init), ops[|ops| - 1]);
    }
  }

  lemma LostOnlyMoves(s: Store, op: Op)
    ensures Loses(s, op) ==> Moves(s, op)
  {
  }

  /** A version that rollback accepts as a member of the history. */
  predicate IsMember(releases: seq<Release>, version: string) {
    var i := FindRelease(releases, version);
    i < |releases| && releases[i].status != OtherStatus
  }

  /** The events form a chain from the seeded pointer to the current one. */
  ghost predicate Chain(s: Store, version: string) {
    && s.current.Some?
    && (forall k | 0 <= k < |s.events| ::
          && s.events[k].generation == k + 2
          && s.events[k].fromVersion == (if k == 0 then version else s.events[k - 1].toVersion)
          && s.events[k].expected == k + 1
          && IsMember(s.releases, s.events[k].toVersion))
    && IsMember(s.releases, version)
    && s.current.value ==
       (if |s.events| == 0 then Pointer(version, 1)
        else Pointer(s.events[|s.events| - 1].toVersion, s.events[|s.events| - 1].generation))
  }

  lemma {:induction false} FindInLonger(releases: seq<Release>, more: seq<Release>, version: string)
    requires releases <= more && FindRelease(releases, version) < |releases|
    ensures FindRelease(more, version) == FindRelease(releases, version)
  {
    if |releases| > 0 && releases[0].version != version {
      assert releases[1..] <= more[1..];
      FindInLonger(releases[1..], more[1..], version);
    }
  }

  lemma MembersStay(releases: seq<Release>, more: seq<Release>, version: string)
    requires releases <= more && IsMember(releases, version)
    ensures IsMember(more, version)
  {
    FindInLonger(releases, more, version);
  }

  /** A promoted version becomes a member, unless it is listed with another status. */
  lemma PromotedIsMember(releases: seq<Release>, version: string, hash: string)
    requires forall r | r in releases :: r.status != OtherStatus
    ensures IsMember(WithRelease(releases, version, hash), version)
    ensures forall r | r in WithRelease(releases, version, hash) :: r.status != OtherStatus
  {
    var listed := WithRelease(releases, version, hash);
    FindReleaseIsFirst(releases, version);
    FindReleaseIsFirst(listed, version);
    if !Lists(releases, version) { assert listed[|releases|].version == version; }
    assert forall r | r in listed :: r in releases || r == Release(version, hash, Validated);
  }

  ghost predicate AllUsable(releases: seq<Release>) {
    forall r | r in releases :: r.status != OtherStatus
  }

  /** A recorded move appends one event and lists its version. */
  ghost predicate Extends(s: Store, s': Store) {
    && s.current.Some? && s'.current.Some?
    && s.releases <= s'.releases
    && |s'.events| == |s.events| + 1 && s.events <= s'.events
    && var e := s'.events[|s.events|];
    && e.fromVersion == s.current.value.version
    && e.expected == s.current.value.generation
    && e.generation == s.current.value.generation + 1
    && s'.current.value == Pointer(e.toVersion, e.generation)
    && IsMember(s'.releases, e.toVersion)
  }

  lemma RecordedMove(s: Store, op: Op)
    requires s.current.Some? && AllUsable(s.releases)
    requires Plain(s, op) && !Loses(s, op)
    ensures AllUsable(Step(s, op).releases)
    ensures if Moves(s, op) then Extends(s, Step(s, op)) else Step(s, op) == s
  {
    hide AllUsable, IsMember, WithRelease;
    if op.PromoteOp? {
      PromotedUsable(s.releases, op.q.version, op.q.found.hash);
    } else if op.RollbackOp? {
      FoundIsMember(s.releases, op.q.version);
    }
  }

  lemma PromotedUsable(releases: seq<Release>, version: string, hash: string)
    requires AllUsable(releases)
    ensures
      var listed := WithRelease(releases, version, hash);
      releases <= listed && AllUsable(listed) && IsMember(listed, version)
  {
    PromotedIsMember(releases, version, hash);
  }

  lemma FoundIsMember(releases: seq<Release>, version: string)
    ensures
      var i := FindRelease(releases, version);
      i < |releases| && releases[i].status != OtherStatus ==> IsMember(releases, version)
  {
  }

  lemma StepChains(s: Store, op: Op, version: string)
    requires Chain(s, version) && Plain(s, op) && !Loses(s, op)
    requires AllUsable(s.releases)
    ensures Chain(Step(s, op), version) && AllUsable(Step(s, op).releases)
  {
    hide IsMember, Step, Moves, Plain, Loses, AllUsable;
    RecordedMove(s, op);
    var s' := Step(s, op);
    if s' != s {
      ChainExtends(s, s', version);
    }
  }

  lemma ChainExtends(s: Store, s': Store, version: string)
    requires Chain(s, version) && Extends(s, s')
    ensures Chain(s', version)
  {
    hide IsMember;
    var n := |s.events|;
    forall v | IsMember(s.releases, v) ensures IsMember(s'.releases, v) {
      MembersStay(s.releases, s'.releases, v);
    }
    assert s'.events[..n] == s.events;
    forall k | 0 <= k < n
      ensures s'.events[k] == s.events[k]
    {
      assert s'.events[..n][k] == s'.events[k];
    }
    if n > 0 {
      assert s'.events[n - 1] == s.events[n - 1];
      assert s'.events[n].fromVersion == s.events[n - 1].toVersion;
    }
  }

  const FIRST: (string, string) -> Store := (v: string, h: string) =>
    Store(Some(Pointer(v, 1)), [Release(v, h, Validated)], [], false)

  /** The history is a chain: from the first seed on, over calls none of which loses its
      event or seeds a new version, event n carries generation n + 1 and starts where the one
      before ended, the pointer is the last event, nothing recorded is ever changed, and
      every version that was ever current passes rollback's membership test. */
  lemma {:induction false} HistoryIsAChain(v: string, h: string, ops: seq<Op>)
    requires AllPlain(FIRST(v, h), ops) && NoneLost(FIRST(v, h), ops)
    ensures Chain(After(FIRST(v, h), ops), v)
    ensures AllUsable(After(FIRST(v, h), ops).releases)
    ensures IsMember(After(FIRST(v, h), ops).releases, After(FIRST(v, h), ops).current.value.version)
  {
    hide Step, Plain, Loses;
    if |ops| > 0 {
      AllPlainInit(FIRST(v, h), ops);
      HistoryIsAChain(v, h, ops[..|ops| - 1]);
      StepChains(After(FIRST(v, h), ops[..|ops| - 1]), ops[|ops| - 1], v);
    }
  }

  lemma FirstSeed(v: string, h: string, cut: bool)
    ensures Seed(EMPTY_STORE, v, h, None, cut) == FIRST(v, h)
  {
    assert [] + [Release(v, h, Validated)] == [Release(v, h, Validated)];
    assert SortBy([Release(v, h, Validated)], VERSION_KEY) == [Release(v, h, Validated)] by {
      assert [Release(v, h, Validated)][..0] == [];
    }
  }

  // -------------------------------------------------- where the history breaks

  /** The process died in the seed's write of the history and left the file truncated. */
  predicate Truncates(s: Store, op: Op) {
    op.SeedOp? && !Lists(s.releases, op.version) && op.fuse == Some(0) && op.cut
  }

  /** Seeding rewrites the history without its events exactly when the version is new, and loses
      the listed releases exactly when the process dies within that write. */
  lemma SeedDropsEventsIffNew(s: Store, version: string, hash: string, fuse: Option<nat>, cut: bool)
    ensures
      var s' := Seed(s, version, hash, fuse, cut);
      && (s'.events == s.events <==>
            s.events == [] || Lists(s.releases, version) || (fuse == Some(0) && !cut))
      && (s'.events == s.events || s'.events == [])
      && (if Truncates(s, SeedOp(version, hash, fuse, cut)) then s'.releases == []
          else multiset(s'.releases) >= multiset(s.releases))
  {
    hide SortBy, Lists;
    SortedKeeps(s.releases, Release(version, hash, Validated));
  }

  lemma SortedKeeps(releases: seq<Release>, r: Release)
    ensures multiset(SortBy(releases + [r], VERSION_KEY)) >= multiset(releases)
  {
    hide SortBy;
    SortByOrders(releases + [r], VERSION_KEY);
  }

  /** A first seed that dies within its write of the pointer leaves a root without a pointer for
      good: nothing that any later series of calls does gives it one, and every promotion and
      rollback answers "not found". */
  lemma {:induction false} DamagedForGood(s: Store, ops: seq<Op>, q: Request)
    requires s.current.None? && s.damaged
    ensures
      var s' := After(s, ops);
      && s'.current.None? && s'.damaged
      && Promote(s', q).answer == Refused(NOT_FOUND) && RollBack(s', q).answer == Refused(NOT_FOUND)
  {
    if |ops| > 0 { DamagedForGood(s, ops[..|ops| - 1], q); }
  }

  /** And it is the only call that does: a call leaves a readable or absent pointer file damaged if
      and only if it is a seed without a pointer that dies within that write. */
  lemma DamagedExactly(s: Store, op: Op)
    requires !s.damaged
    ensures Step(s, op).damaged <==>
      && op.SeedOp? && s.current.None? && op.cut
      && op.fuse == Some(if Lists(s.releases, op.version) then 0 else 1)
  {
  }

  /** The request would move the pointer if its process lived. */
  predicate WouldMove(s: Store, q: Request) {
    Promote(s, q.(fuse := None)).answer.Moved?
  }

  lemma {:induction false} FindAppended(events: seq<Event>, e: Event)
    requires FindEvent(events, e.operationId, e.toVersion) == |events|
    ensures FindEvent(events + [e], e.operationId, e.toVersion) == |events|
  {
    if |events| > 0 {
      assert (events + [e])[1..] == events[1..] + [e];
      FindAppended(events[1..], e);
    }
  }

  /** The history shows this operation on this version. */
  predicate Recorded(events: seq<Event>, q: Request) {
    exists i | 0 <= i < |events| :: Matches(events[i], q)
  }

  predicate Matches(e: Event, q: Request) {
    e.operationId == q.operationId && e.toVersion == q.version
  }

  /** The same operation again, whatever the retrying process finds on disk and however long it
      lives. */
  predicate Retries(q: Request, again: Request) {
    && again.operationId == q.operationId && again.version == q.version
    && again.expectedVersion == q.expectedVersion && again.expectedGeneration == q.expectedGeneration
  }

  /** After a promotion that moved the pointer, whether or not its process lived to record it, and
      after any later calls, crashes and seeds included: a retry changes nothing, and it is
      recognised if and only if the history of that moment shows a matching event, whose origin
      and generation it answers; otherwise it is a conflict. */
  lemma RetryIsRecognisedIffRecorded(s: Store, q: Request, ops: seq<Op>, again: Request)
    requires WouldMove(s, q) && q.fuse != Some(0) && Retries(q, again)
    ensures
      var s' := After(Promote(s, q).store, ops);
      var r := Promote(s', again);
      && r.store == s'
      && (r.answer.AlreadyDone? <==> Recorded(s'.events, q))
      && (r.answer.AlreadyDone? ==>
            exists i | 0 <= i < |s'.events| && Matches(s'.events[i], q) ::
              r.answer == AlreadyDone(s'.events[i].fromVersion, s'.events[i].generation))
      && (!r.answer.AlreadyDone? ==> r.answer == Refused(CONFLICT))
  {
    hide After;
    var s1 := Promote(s, q).store;
    GenerationsCountMoves(s1, ops);
    var s' := After(s1, ops);
    FindEventIsFirst(s'.events, q.operationId, q.version);
    var e := FindEvent(s'.events, q.operationId, q.version);
    if e < |s'.events| { assert Matches(s'.events[e], q); }
    if Recorded(s'.events, q) {
      var i :| 0 <= i < |s'.events| && Matches(s'.events[i], q);
      assert s'.events[i].operationId == q.operationId && s'.events[i].toVersion == q.version;
    }
  }

  lemma {:induction false} FindInLongerEvents(
      events: seq<Event>, more: seq<Event>, operationId: string, version: string)
    requires events <= more && FindEvent(events, operationId, version) < |events|
    ensures FindEvent(more, operationId, version) == FindEvent(events, operationId, version)
  {
    if |events| > 0 && !(events[0].operationId == operationId && events[0].toVersion == version) {
      assert events[1..] <= more[1..];
      FindInLongerEvents(events[1..], more[1..], operationId, version);
    }
  }

  /** Which of the two it is: as long as no new version is seeded, a retry of a promotion that
      lived is answered with that promotion's own move, however many calls later. */
  lemma RecordedStaysRecorded(s: Store, q: Request, ops: seq<Op>, again: Request)
    requires WouldMove(s, q) && Survives(q.fuse) && Retries(q, again)
    requires AllPlain(Promote(s, q).store, ops)
    ensures Promote(After(Promote(s, q).store, ops), again).answer
            == AlreadyDone(s.current.value.version, s.current.value.generation + 1)
  {
    hide After, AllPlain;
    var s1 := Promote(s, q).store;
    var e := MoveEvent(Promotion, s, q, q.found.hash);
    FindAppended(s.events, e);
    LostMovesAreExactlyTheCrashes(s1, ops);
    FindInLongerEvents(s1.events, After(s1, ops).events, q.operationId, q.version);
    assert After(s1, ops).events[|s.events|] == e;
  }

  /** A crash between the two writes, or the seeding of a new version right after, loses it: the
      retry is refused as a conflict although the pointer had moved. */
  lemma LostIsAConflict(
      s: Store, q: Request, again: Request, version: string, hash: string, cut: bool)
    requires WouldMove(s, q) && q.fuse != Some(0) && Retries(q, again)
    requires !Lists(Promote(s, q).store.releases, version)
    ensures
      var s1 := Promote(s, q).store;
      && s.current.Some? && s1.current != s.current
      && (q.fuse == Some(1) ==> Promote(s1, again).answer == Refused(CONFLICT))
      && Promote(Seed(s1, version, hash, None, cut), again).answer == Refused(CONFLICT)
  {
  }

  /** A promotion of a new version that dies between its two writes makes a version current
      that rollback does not know: once the pointer has moved on, it answers "not found". */
  lemma LostPromotionCannotBeRolledBackTo(s: Store, q: Request, onward: Request, back: Request)
    requires WouldMove(s, q) && q.fuse == Some(1) && !Lists(s.releases, q.version)
    requires
      var s1 := Promote(s, q).store;
      WouldMove(s1, onward) && Survives(onward.fuse) && onward.version != q.version
    requires
      var s2 := Promote(Promote(s, q).store, onward).store;
      s2.current.Some? && Expected(s2.current.value, back) && back.version == q.version
    ensures Promote(s, q).store.current.value.version == q.version
    ensures RollBack(Promote(Promote(s, q).store, onward).store, back).answer == Refused(NOT_FOUND)
  {
    var s2 := Promote(Promote(s, q).store, onward).store;
    FindReleaseIsFirst(s2.releases, q.version);
    forall i | 0 <= i < |s2.releases| ensures s2.releases[i].version != q.version {}
  }

  // --------------------------------------- when the current version is a rollback member

  /** A rollback that expects the pointer, and whose target verifies with an approved hash, is
      answered by its membership alone. */
  lemma RollbackMovesIffMember(s: Store, q: Request)
    requires s.current.Some? && Expected(s.current.value, q) && q.version != s.current.value.version
    requires q.found.manifest && q.found.verified && q.found.hash != ""
    requires ValidApproval(q.approval, q.found.hash) && Survives(q.fuse)
    ensures RollBack(s, q).answer.Moved? <==> IsMember(s.releases, q.version)
  {
  }

  /** A promotion of an unlisted version that dies between pointer and history, or a seed that
      dies within its write of the history. */
  predicate Strands(s: Store, op: Op) {
    (op.PromoteOp? && Loses(s, op) && !Lists(s.releases, op.q.version)) || Truncates(s, op)
  }

  predicate CurrentIsMember(s: Store) {
    s.current.Some? && IsMember(s.releases, s.current.value.version)
  }

  lemma UsableListed(releases: seq<Release>, version: string)
    requires AllUsable(releases)
    ensures IsMember(releases, version) <==> Lists(releases, version)
  {
    FindReleaseIsFirst(releases, version);
  }

  lemma Included(releases: seq<Release>, more: seq<Release>, version: string)
    requires multiset(releases) <= multiset(more)
    ensures Lists(releases, version) ==> Lists(more, version)
  {
    if i :| 0 <= i < |releases| && releases[i].version == version {
      assert releases[i] in multiset(releases);
      assert releases[i] in multiset(more);
      var j :| 0 <= j < |more| && more[j] == releases[i];
    }
  }

  lemma SeedUsable(s: Store, v: string, h: string, f: Option<nat>, c: bool)
    requires AllUsable(s.releases)
    ensures AllUsable(Seed(s, v, h, f, c).releases)
  {
    hide AllUsable, SortBy, Lists;
    NothingUnusable();
    SortedUsable(s.releases, Release(v, h, Validated));
  }

  lemma NothingUnusable()
    ensures AllUsable([])
  {
  }

  lemma SortedUsable(releases: seq<Release>, r: Release)
    requires AllUsable(releases) && r.status != OtherStatus
    ensures AllUsable(SortBy(releases + [r], VERSION_KEY))
  {
    hide SortBy;
    var more := releases + [r];
    SortByOrders(more, VERSION_KEY);
    forall x | x in SortBy(more, VERSION_KEY) ensures x.status != OtherStatus {
      assert x in multiset(SortBy(more, VERSION_KEY));
      assert x in more;
    }
  }

  /** What a call other than a seed leaves of pointer and releases. */
  lemma MoveLeaves(s: Store, op: Op)
    requires s.current.Some? && !op.SeedOp?
    ensures
      var s' := Step(s, op);
      && s'.current.Some?
      && (!Moves(s, op) ==> s'.current == s.current && s'.releases == s.releases)
      && (Moves(s, op) ==>
            && s'.current.value.version == op.q.version
            && (op.PromoteOp? ==>
                  s'.releases == (if Loses(s, op) then s.releases
                                  else WithRelease(s.releases, op.q.version, op.q.found.hash)))
            && (op.RollbackOp? ==> s'.releases == s.releases && IsMember(s.releases, op.q.version)))
  {
    hide WithRelease, Approved, ValidApproval;
  }

  /** A call keeps the releases usable, and only a truncating seed takes one out of the list. */
  lemma ReleasesStay(s: Store, op: Op)
    requires s.current.Some? && AllUsable(s.releases)
    ensures AllUsable(Step(s, op).releases)
    ensures !Truncates(s, op) ==> multiset(s.releases) <= multiset(Step(s, op).releases)
  {
    hide AllUsable, IsMember, Moves, Loses, Promote, RollBack, Seed;
    if op.SeedOp? {
      SeedUsable(s, op.version, op.hash, op.fuse, op.cut);
      SeedDropsEventsIffNew(s, op.version, op.hash, op.fuse, op.cut);
    } else {
      MoveLeaves(s, op);
      if op.PromoteOp? { PromotedUsable(s.releases, op.q.version, op.q.found.hash); }
    }
  }

  /** A call leaves a current version that rollback knows if and only if it does not strand it. */
  lemma MembershipStep(s: Store, op: Op)
    requires CurrentIsMember(s) && AllUsable(s.releases)
    ensures CurrentIsMember(Step(s, op)) <==> !Strands(s, op)
  {
    hide AllUsable, IsMember, Moves, Promote, RollBack, Seed, WithRelease, Lists;
    var s' := Step(s, op);
    ReleasesStay(s, op);
    MoveIsExpected(s, op);
    if op.SeedOp? {
      SeedLeaves(s, op);
      var v := s.current.value.version;
      UsableListed(s.releases, v);
      UsableListed(s'.releases, v);
      if !Truncates(s, op) { Included(s.releases, s'.releases, v); }
    } else {
      LostOnlyMoves(s, op);
      MoveLeaves(s, op);
      UsableListed(s.releases, op.q.version);
      if op.PromoteOp? { PromotedUsable(s.releases, op.q.version, op.q.found.hash); }
    }
  }

  lemma SeedLeaves(s: Store, op: Op)
    requires s.current.Some? && op.SeedOp?
    ensures Step(s, op).current == s.current
    ensures Truncates(s, op) ==> !Lists(Step(s, op).releases, s.current.value.version)
  {
  }

  /** Every version that has been current so far is a rollback member of every later state. */
  ghost predicate CurrentStaysMember(s: Store, ops: seq<Op>) {
    forall i, j | 0 <= i <= j <= |ops| ::
      After(s, ops[..i]).current.Some?
      && IsMember(After(s, ops[..j]).releases, After(s, ops[..i]).current.value.version)
  }

  ghost predicate NeverStranded(s: Store, ops: seq<Op>) {
    forall k | 0 <= k < |ops| :: !Strands(After(s, ops[..k]), ops[k])
  }

  lemma AfterNext(s: Store, ops: seq<Op>, k: nat)
    requires k < |ops|
    ensures After(s, ops[..k + 1]) == Step(After(s, ops[..k]), ops[k])
  {
    assert ops[..k + 1][..k] == ops[..k];
  }

  lemma {:induction false} MembersSoFar(s: Store, ops: seq<Op>, i: nat, j: nat)
    requires CurrentIsMember(s) && AllUsable(s.releases) && NeverStranded(s, ops) && i <= j <= |ops|
    ensures
      var si, sj := After(s, ops[..i]), After(s, ops[..j]);
      && CurrentIsMember(si) && CurrentIsMember(sj) && AllUsable(sj.releases)
      && IsMember(sj.releases, si.current.value.version)
    decreases j
  {
    hide Step, Strands, AllUsable, IsMember;
    if j > 0 {
      var s', op := After(s, ops[..j - 1]), ops[j - 1];
      MembersSoFar(s, ops, if i < j then i else j - 1, j - 1);
      AfterNext(s, ops, j - 1);
      MembershipStep(s', op);
      ReleasesStay(s', op);
      if i < j {
        var v := After(s, ops[..i]).current.value.version;
        UsableListed(s'.releases, v);
        UsableListed(Step(s', op).releases, v);
        StrandsTruncated(s', op);
        Included(s'.releases, Step(s', op).releases, v);
      }
    }
  }

  lemma StrandsTruncated(s: Store, op: Op)
    ensures Truncates(s, op) ==> Strands(s, op)
  {
  }

  /** From the first seed on, over histories with crashes and new seeds: every version that was
      ever current is and stays a version that rollback knows, if and only if no promotion of an
      unlisted version loses its event and no seed truncates the history. */
  lemma CurrentStaysMemberIff(v: string, h: string, ops: seq<Op>)
    ensures CurrentStaysMember(FIRST(v, h), ops) <==> NeverStranded(FIRST(v, h), ops)
  {
    hide Step, Strands, IsMember, AllUsable;
    var s := FIRST(v, h);
    FirstIsMember(v, h);
    if NeverStranded(s, ops) {
      forall i, j | 0 <= i <= j <= |ops|
        ensures After(s, ops[..i]).current.Some?
        ensures IsMember(After(s, ops[..j]).releases, After(s, ops[..i]).current.value.version)
      {
        MembersSoFar(s, ops, i, j);
      }
    } else {
      var k := FirstStranded(s, ops);
      MembersSoFar(s, ops[..k], k, k);
      assert ops[..k][..k] == ops[..k];
      AfterNext(s, ops, k);
      MembershipStep(After(s, ops[..k]), ops[k]);
      assert !CurrentIsMember(After(s, ops[..k + 1]));
    }
  }

  lemma FirstIsMember(v: string, h: string)
    ensures CurrentIsMember(FIRST(v, h)) && AllUsable(FIRST(v, h).releases)
  {
  }

  /** The first stranding call of a history that has one. */
  lemma {:induction false} FirstStranded(s: Store, ops: seq<Op>) returns (k: nat)
    requires !NeverStranded(s, ops)
    ensures k < |ops| && Strands(After(s, ops[..k]), ops[k]) && NeverStranded(s, ops[..k])
    decreases |ops|
  {
    hide Step, Strands;
    k := |ops| - 1;
    var init := ops[..k];
    forall j | 0 <= j < k ensures init[..j] == ops[..j] {}
    if !NeverStranded(s, init) {
      k := FirstStranded(s, init);
      assert init[..k] == ops[..k];
    }
  }

  // ------------------------------------------------- what a move demands, spelled out

  /** A promotion moves the pointer if and only if there is one, the history does not show this
      operation on this version, the pointer is the expected one, the manifest is there and
      verifies, reviewer, reason and policy are named, the approved hash is the candidate's, and
      the process lives to write the pointer. Then the candidate is current, one generation on. */
  lemma PromotionMovesExactly(s: Store, q: Request)
    ensures
      var s' := Promote(s, q).store;
      && (s'.current != s.current <==>
            && s.current.Some?
            && (forall e | e in s.events :: e.operationId != q.operationId || e.toVersion != q.version)
            && s.current.value.version == q.expectedVersion
            && s.current.value.generation == q.expectedGeneration
            && q.found.manifest && q.found.verified
            && !Blank(q.approval.reviewer) && !Blank(q.approval.reason) && !Blank(q.approval.policy)
            && q.approval.target == q.found.hash
            && q.fuse != Some(0))
      && (s'.current != s.current ==>
            s'.current == Some(Pointer(q.version, s.current.value.generation + 1)))
  {
    FindEventIsFirst(s.events, q.operationId, q.version);
  }

  /** The hash a rollback compares the approval with: the one found, or the listed one. */
  function ComparedHash(s: Store, q: Request): string
    requires exists r | r in s.releases :: r.version == q.version
  {
    FindReleaseIsFirst(s.releases, q.version);
    if q.found.hash != "" then q.found.hash else s.releases[FindRelease(s.releases, q.version)].hash
  }

  /** A rollback moves the pointer if and only if there is one at another version, it is the
      expected one, the target is listed first as validated or current, its manifest is there and
      verifies, reviewer, reason and policy are named, the approved hash is the target's where the
      target has one, and the process lives to write the pointer. */
  lemma RollbackMovesExactly(s: Store, q: Request)
    ensures
      var s' := RollBack(s, q).store;
      && (s'.current != s.current <==>
            && s.current.Some? && s.current.value.version != q.version
            && s.current.value.version == q.expectedVersion
            && s.current.value.generation == q.expectedGeneration
            && FirstListed(s.releases, q.version, {Validated, Current})
            && q.found.manifest && q.found.verified
            && !Blank(q.approval.reviewer) && !Blank(q.approval.reason) && !Blank(q.approval.policy)
            && (ComparedHash(s, q) == "" || q.approval.target == ComparedHash(s, q))
            && q.fuse != Some(0))
      && (s'.current != s.current ==>
            s'.current == Some(Pointer(q.version, s.current.value.generation + 1)))
  {
    FindReleaseIsFirst(s.releases, q.version);
    FirstListedFound(s.releases, q.version, {Validated, Current});
  }

  /** The first listed release of the version has one of these states. */
  predicate FirstListed(releases: seq<Release>, version: string, states: set<ReleaseStatus>) {
    exists i | 0 <= i < |releases| ::
      && releases[i].version == version && releases[i].status in states
      && forall j | 0 <= j < i :: releases[j].version != version
  }

  lemma FirstListedFound(releases: seq<Release>, version: string, states: set<ReleaseStatus>)
    ensures
      var i := FindRelease(releases, version);
      FirstListed(releases, version, states) <==> i < |releases| && releases[i].status in states
  {
    FindReleaseIsFirst(releases, version);
  }

  /** How a promotion is answered: the first demand that fails decides. */
  lemma PromotionAnswers(s: Store, q: Request)
    ensures
      var r := Promote(s, q);
      var shown := exists e | e in s.events :: e.operationId == q.operationId && e.toVersion == q.version;
      if s.current.None? then r.answer == Refused(404)
      else if shown then
        r.store == s && exists e | e in s.events ::
          && e.operationId == q.operationId && e.toVersion == q.version
          && r.answer == AlreadyDone(e.fromVersion, e.generation)
      else if s.current.value.version != q.expectedVersion || s.current.value.generation != q.expectedGeneration
      then r == Reply(s, Refused(409))
      else if !q.found.manifest then r == Reply(s, Refused(404))
      else if !q.found.verified then r == Reply(s, Refused(422))
      else if Blank(q.approval.reviewer) || Blank(q.approval.reason) || Blank(q.approval.policy)
              || q.approval.target != q.found.hash
      then r == Reply(s, Refused(422))
      else
        r.answer == if q.fuse.None? || q.fuse.value >= 2
                    then Moved(s.current.value.version, s.current.value.generation + 1) else Died
  {
    FindEventIsFirst(s.events, q.operationId, q.version);
    var i := FindEvent(s.events, q.operationId, q.version);
    if i < |s.events| { assert s.events[i] in s.events; }
  }

  /** How a rollback is answered: it is done already when the target is current, and else the first
      demand that fails decides. */
  lemma RollbackAnswers(s: Store, q: Request)
    ensures
      var r := RollBack(s, q);
      if s.current.None? then r == Reply(s, Refused(404))
      else if s.current.value.version == q.version then
        r.store == s && (if exists e | e in s.events :: e.operationId == q.operationId && e.toVersion == q.version
                         then exists e | e in s.events ::
                                && e.operationId == q.operationId && e.toVersion == q.version
                                && r.answer == AlreadyDone(e.fromVersion, e.generation)
                         else r.answer == AlreadyDone(q.version, s.current.value.generation))
      else if s.current.value.version != q.expectedVersion || s.current.value.generation != q.expectedGeneration
      then r == Reply(s, Refused(409))
      else if forall x | x in s.releases :: x.version != q.version then r == Reply(s, Refused(404))
      else if FirstListed(s.releases, q.version, {OtherStatus}) then r == Reply(s, Refused(422))
      else if !q.found.manifest then r == Reply(s, Refused(404))
      else if !q.found.verified then r == Reply(s, Refused(422))
      else if Blank(q.approval.reviewer) || Blank(q.approval.reason) || Blank(q.approval.policy)
              || (ComparedHash(s, q) != "" && q.approval.target != ComparedHash(s, q))
      then r == Reply(s, Refused(422))
      else
        r.answer == if q.fuse.None? || q.fuse.value >= 2
                    then Moved(s.current.value.version, s.current.value.generation + 1) else Died
  {
    FindEventIsFirst(s.events, q.operationId, q.version);
    var i := FindEvent(s.events, q.operationId, q.version);
    if i < |s.events| { assert s.events[i] in s.events; }
    FindReleaseIsFirst(s.releases, q.version);
    FirstListedFound(s.releases, q.version, {OtherStatus});
  }

  /** What a move that was recorded leaves in the history: one event more, with origin, target,
      generation, expectation, operation and hash of the move, and the version in the list. */
  lemma RecordedEvent(s: Store, op: Op)
    requires s.current.Some? && Moves(s, op) && Survives(Fuse(op))
    ensures
      var s', q := Step(s, op), op.q;
      && |s'.events| == |s.events| + 1 && s'.events[..|s.events|] == s.events
      && var e := s'.events[|s.events|];
      && e.move == (if op.PromoteOp? then Promotion else Rollback)
      && e.fromVersion == s.current.value.version && e.toVersion == q.version
      && e.generation == s.current.value.generation + 1
      && e.expected == q.expectedGeneration && e.operationId == q.operationId
      && (q.found.hash != "" ==> e.hash == q.found.hash)
      && (op.PromoteOp? ==> e.hash == q.found.hash)
      && (if op.PromoteOp? && (forall r | r in s.releases :: r.version != q.version)
          then s'.releases == s.releases + [Release(q.version, q.found.hash, Validated)]
          else s'.releases == s.releases)
  {
    hide Approved, ValidApproval;
    FindReleaseIsFirst(s.releases, op.q.version);
  }

  /** The call verified its version and carried an approval of it. */
  predicate Vouched(op: Op) {
    && !op.SeedOp? && op.q.found.manifest && op.q.found.verified
    && !Blank(op.q.approval.reviewer) && !Blank(op.q.approval.reason) && !Blank(op.q.approval.policy)
    && (op.q.found.hash != "" ==> op.q.approval.target == op.q.found.hash)
  }

  /** Every version that was ever current after the first seed is the seeded one or was verified
      and approved, under its hash, by the call that made it current. */
  lemma {:induction false} EveryCurrentWasVouchedFor(v: string, h: string, ops: seq<Op>)
    ensures
      var s := After(FIRST(v, h), ops);
      && s.current.Some?
      && (s.current == Some(Pointer(v, 1))
          || exists k | 0 <= k < |ops| ::
               && Vouched(ops[k]) && Moves(After(FIRST(v, h), ops[..k]), ops[k])
               && After(FIRST(v, h), ops[..k + 1]).current == s.current
               && ops[k].q.version == s.current.value.version)
  {
    hide Step, Moves;
    if |ops| > 0 {
      var init, op := ops[..|ops| - 1], ops[|ops| - 1];
      var before := After(FIRST(v, h), init);
      EveryCurrentWasVouchedFor(v, h, init);
      assert ops[..|ops|] == ops;
      MoveVouches(before, op);
      if Moves(before, op) {
        var k := |ops| - 1;
        assert ops[..k] == init && ops[..k + 1] == ops;
      } else if before.current != Some(Pointer(v, 1)) {
        var k :| 0 <= k < |init| && Vouched(init[k]) && Moves(After(FIRST(v, h), init[..k]), init[k])
                 && After(FIRST(v, h), init[..k + 1]).current == before.current
                 && init[k].q.version == before.current.value.version;
        assert init[..k] == ops[..k] && init[..k + 1] == ops[..k + 1] && init[k] == ops[k];
      }
    }
  }

  lemma MoveVouches(s: Store, op: Op)
    requires s.current.Some?
    ensures Step(s, op).current.Some?
    ensures if Moves(s, op) then Vouched(op) && op.q.version == Step(s, op).current.value.version
            else Step(s, op).current == s.current
  {
    hide FindEvent, WithRelease, Promote, RollBack, ComparedHash;
    match op
    case PromoteOp(q) => PromotionMovesExactly(s, q);
    case RollbackOp(q) => RollbackMovesExactly(s, q); HashCompared(s, q);
    case SeedOp(_, _, _, _) =>
  }

  lemma HashCompared(s: Store, q: Request)
    ensures (exists r | r in s.releases :: r.version == q.version) && q.found.hash != "" ==>
      ComparedHash(s, q) == q.found.hash
  {
  }

  /** What an undisturbed seed leaves: a new version is listed as validated, in the order of the
      versions and without events; a first pointer is set unless a pointer file is there. */
  lemma SeedExactly(s: Store, v: string, h: string, cut: bool)
    ensures
      var s' := Seed(s, v, h, None, cut);
      && (if exists r | r in s.releases :: r.version == v
          then s'.releases == s.releases && s'.events == s.events
          else
            && multiset(s'.releases) == multiset(s.releases) + multiset{Release(v, h, Validated)}
            && (forall i, j | 0 <= i < j < |s'.releases| :: StrLe(s'.releases[i].version, s'.releases[j].version))
            && s'.events == [])
      && s'.current == (if s.current.None? && !s.damaged then Some(Pointer(v, 1)) else s.current)
      && s'.damaged == s.damaged
  {
    hide SortBy;
    FindReleaseIsFirst(s.releases, v);
    var more := s.releases + [Release(v, h, Validated)];
    SortByOrders(more, VERSION_KEY);
    var sorted := SortBy(more, VERSION_KEY);
    forall i, j | 0 <= i < j < |sorted| ensures StrLe(sorted[i].version, sorted[j].version) {
      assert KeyLe(VERSION_KEY(sorted[i]), VERSION_KEY(sorted[j]));
    }
  }
}
