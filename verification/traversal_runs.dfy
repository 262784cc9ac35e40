/** What every run of checkpoint transitions keeps: constructor invariants, conservation, retry bounds. */
module TraversalRuns {
  import opened Wrappers
  import opened PythonText
  import opened Ordering
  import opened Identities
  import opened TraversalCheckpoints

  datatype Op =
    | DoEnqueue(uri: Uri, depth: nat, link: Option<Uuid>, parent: Option<Uuid>)
    | DoStart(id: Uuid, since: Option<real>)
    | DoFollowup(id: Uuid, expectedBytes: nat, since: Option<real>)
    | DoBytes(id: Uuid, bytes: nat)
    | DoBeginFinalization(id: Uuid, sha: Sha, observation: Uuid, elapsed: real)
    | DoCompleteFinalization(id: Uuid, elapsed: real)
    | DoComplete(id: Uuid, bytes: nat, elapsed: real)
    | DoFail(id: Uuid, reason: string, elapsed: real, bytes: nat)
    | DoRecoverInterrupted(reason: string)
    | DoRequeue(id: Uuid)
    | DoSkip(id: Uuid, reason: string)
    | DoAbandon(id: Uuid, reason: string, since0: real)
    | DoPolicyRequest(depth: nat, expectedBytes: nat, since: Option<real>)
    | DoPolicyBytes(bytes: nat)
    | DoPolicyElapsed(elapsed: real)

  /** Abandoning adds a clock difference to the elapsed time; a clock that moved backwards raises. */
  function Step(cp: Checkpoint, p: Policy, op: Op): Result<Checkpoint> {
    match op
    case DoEnqueue(uri, depth, link, parent) => Enqueue(cp, uri, depth, link, parent)
    case DoStart(id, since) => Start(cp, id, p, since)
    case DoFollowup(id, expectedBytes, since) => RecordFollowup(cp, id, p, expectedBytes, since)
    case DoBytes(id, bytes) => RecordBytes(cp, id, bytes)
    case DoBeginFinalization(id, sha, observation, elapsed) => BeginFinalization(cp, id, sha, observation, elapsed)
    case DoCompleteFinalization(id, elapsed) => CompleteFinalization(cp, id, elapsed)
    case DoComplete(id, bytes, elapsed) => Complete(cp, id, bytes, elapsed)
    case DoFail(id, reason, elapsed, bytes) => Fail(cp, id, reason, elapsed, bytes)
    case DoRecoverInterrupted(reason) => RecoverInterrupted(cp, reason)
    case DoRequeue(id) => RequeueFailed(cp, id, p)
    case DoSkip(id, reason) => Skip(cp, id, reason)
    case DoAbandon(id, reason, since0) => if since0 < 0.0 then Err
    else Abandon(cp, id, reason, cp.budget.elapsed + since0)
    case DoPolicyRequest(depth, expectedBytes, since) => BeginPolicyRequest(cp, p, depth, expectedBytes, since)
    case DoPolicyBytes(bytes) => Ok(RecordPolicyBytes(cp, bytes))
    case DoPolicyElapsed(elapsed) => RecordPolicyElapsed(cp, elapsed)
  }

  /** A checkpoint with what was charged to no target: follow-up and policy requests, policy bytes. */
  datatype Ledger = Ledger(cp: Checkpoint, extraRequests: nat, extraBytes: nat)

  function Apply(l: Ledger, p: Policy, op: Op): Ledger {
    match Step(l.cp, p, op)
    case Err => l
    case Ok(cp) =>
      Ledger(cp,
             l.extraRequests + (if op.DoFollowup? || op.DoPolicyRequest? then 1 else 0),
             l.extraBytes + (if op.DoPolicyBytes? then op.bytes else 0))
  }

  /** Operations that raise leave the caller with the checkpoint it had. */
  function Run(l: Ledger, p: Policy, ops: seq<Op>): Ledger
    decreases |ops|
  {
    if ops == [] then l else Run(Apply(l, p, ops[0]), p, ops[1..])
  }

  function Empty(id: Uuid): Ledger {
    Ledger(Checkpoint(id, [], Budget(0, 0, 0.0)), 0, 0)
  }

  // ----- the invariant

  ghost function Attempts(targets: seq<Target>): nat {
    if targets == [] then 0 else targets[0].attempts + Attempts(targets[1..])
  }

  ghost function BytesOf(targets: seq<Target>): nat {
    if targets == [] then 0 else targets[0].bytes + BytesOf(targets[1..])
  }

  /** Every request and every byte in the budget is accounted for, once. */
  ghost predicate Balanced(l: Ledger) {
    && l.cp.budget.requests == Attempts(l.cp.targets) + l.extraRequests
    && l.cp.budget.bytes == BytesOf(l.cp.targets) + l.extraBytes
  }

  /** A queued target has a retry left; no target has used more than it may. */
  ghost predicate RetriesHold(targets: seq<Target>, p: Policy) {
    forall i :: 0 <= i < |targets| ==>
                  targets[i].attempts <= p.maxRetries + 1 &&
                  (targets[i].status.Queued? ==> targets[i].attempts <= p.maxRetries)
  }

  ghost predicate Inv(l: Ledger, p: Policy) {
    && l.cp.Valid()
    && Balanced(l)
    && RetriesHold(l.cp.targets, p)
    && l.cp.budget.requests <= p.maxRequests
  }

  // ----- replacing one target

  lemma {:induction false} Unchanged(targets: seq<Target>, u: Target)
    requires forall i :: 0 <= i < |targets| ==> targets[i].id != u.id
    ensures ReplaceIn(targets, u) == targets
  {
  }

  lemma {:induction false} ReplaceSums(targets: seq<Target>, k: nat, u: Target)
    requires k < |targets| && u.id == targets[k].id && Unique(targets)
    ensures Attempts(ReplaceIn(targets, u)) == Attempts(targets) - targets[k].attempts + u.attempts
    ensures BytesOf(ReplaceIn(targets, u)) == BytesOf(targets) - targets[k].bytes + u.bytes
  {
    var rest := targets[1..];
    assert ReplaceIn(targets, u)[1..] == ReplaceIn(rest, u);
    if k == 0 {
      forall i | 0 <= i < |rest| ensures rest[i].id != u.id {
        assert rest[i] == targets[i + 1];
      }
      Unchanged(rest, u);
    } else {
      ReplaceSums(rest, k - 1, u);
      assert targets[0].id != targets[k].id;
    }
  }

  /** The same targets, in the same places, possibly followed by more. */
  ghost predicate SamePlaces(before: seq<Target>, after: seq<Target>) {
    |before| <= |after| && forall i :: 0 <= i < |before| ==>
      after[i].id == before[i].id && after[i].uri == before[i].uri
  }

  lemma PlacesKeepHas(before: seq<Target>, after: seq<Target>, id: Uuid)
    requires SamePlaces(before, after) && Has(before, id)
    ensures Has(after, id)
  {
    var i :| 0 <= i < |before| && before[i].id == id;
    assert after[i].id == id;
  }

  lemma ReplacePlaces(targets: seq<Target>, k: nat, u: Target)
    requires k < |targets| && u.id == targets[k].id && u.uri == targets[k].uri && Unique(targets)
    ensures SamePlaces(targets, ReplaceIn(targets, u)) && Unique(ReplaceIn(targets, u))
    ensures forall i :: 0 <= i < |targets| && i != k ==> ReplaceIn(targets, u)[i] == targets[i]
    ensures ReplaceIn(targets, u)[k] == u
  {
    forall i | 0 <= i < |targets| && i != k ensures targets[i].id != u.id {
      assert i < k || k < i;
    }
  }

  /** A replacement that keeps id and URI, is itself valid, and adds only existing parents. */
  lemma ReplaceKeepsValid(cp: Checkpoint, k: nat, u: Target)
    requires cp.Valid() && k < |cp.targets| && u.id == cp.targets[k].id && u.uri == cp.targets[k].uri && u.Valid()
    requires forall q :: q in u.parents ==> q in cp.targets[k].parents || Has(cp.targets, q)
    ensures ReplaceTarget(cp, u).Valid()
  {
    hide Target.Valid, Unique, Has;
    var next := ReplaceIn(cp.targets, u);
    ReplacePlaces(cp.targets, k, u);
    forall i, q | 0 <= i < |next| && q in next[i].parents ensures Has(next, q) {
      assert Has(cp.targets, q);
      PlacesKeepHas(cp.targets, next, q);
    }
  }

  lemma ReplaceKeepsRetries(targets: seq<Target>, p: Policy, u: Target)
    requires RetriesHold(targets, p) && u.attempts <= p.maxRetries + 1 &&
             (u.status.Queued? ==> u.attempts <= p.maxRetries)
    ensures RetriesHold(ReplaceIn(targets, u), p)
  {
  }

  // ----- each transition

  lemma TargetAt(targets: seq<Target>, t: Target) returns (k: nat)
    requires t in targets
    ensures k < |targets| && targets[k] == t
  {
    k :| 0 <= k < |targets| && targets[k] == t;
  }

  /** Everything a transition on one target changes, as one replacement and a new budget. */
  lemma Replacing(l: Ledger, p: Policy, t: Target, u: Target, budget: Budget, extra: nat)
    requires Inv(l, p) && t in l.cp.targets && u.id == t.id && u.uri == t.uri && u.Valid()
    requires forall q :: q in u.parents ==> q in t.parents || Has(l.cp.targets, q)
    requires u.attempts <= p.maxRetries + 1 && (u.status.Queued? ==> u.attempts <= p.maxRetries)
    requires budget.requests == l.cp.budget.requests + u.attempts - t.attempts + extra
    requires budget.bytes == l.cp.budget.bytes + u.bytes - t.bytes
    requires budget.elapsed >= 0.0 && budget.requests <= p.maxRequests
    ensures Inv(Ledger(ReplaceTarget(l.cp, u).(budget := budget), l.extraRequests + extra, l.extraBytes), p)
  {
    hide Target.Valid, Unique, Has, ParentsKnown, RetriesHold, Attempts, BytesOf;
    var k := TargetAt(l.cp.targets, t);
    ReplaceSums(l.cp.targets, k, u);
    ReplaceKeepsValid(l.cp, k, u);
    ReplaceKeepsRetries(l.cp.targets, p, u);
  }

  lemma EnrichedIsValid(t: Target, depth: nat, link: Option<Uuid>, parent: Option<Uuid>)
    requires t.Valid() && parent != Some(t.id)
    ensures t.(depth := depth, links := AppendUuid(t.links, link), parents := AppendUuid(t.parents, parent)).Valid()
  {
  }

  lemma EnqueueKeeps(l: Ledger, p: Policy, uri: Uri, depth: nat, link: Option<Uuid>, parent: Option<Uuid>)
    requires Inv(l, p) && Enqueue(l.cp, uri, depth, link, parent).Ok?
    ensures Inv(l.(cp := Enqueue(l.cp, uri, depth, link, parent).value), p)
  {
    hide Target.Valid, Unique, ParentsKnown, RetriesHold, Attempts, BytesOf;
    var cp := l.cp;
    if parent.Some? {
      var i := TargetAt(cp.targets, FindIn(cp.targets, parent.value).value);
      assert Has(cp.targets, parent.value);
    }
    var existing := FindUri(cp.targets, uri);
    if existing.Some? {
      var t := existing.value;
      var k := TargetAt(cp.targets, t);
      assert cp.targets[k].Valid() && TargetBounds(cp.targets[k], p) by { RetriesAt(cp.targets, p, k); }
      var d := if t.status.Queued? && depth < t.depth then depth else t.depth;
      EnrichedIsValid(t, d, link, parent);
      Replacing(l, p, t, t.(depth := d, links := AppendUuid(t.links, link), parents := AppendUuid(t.parents, parent)),
                cp.budget, 0);
    } else {
      AddKeeps(l, p, uri, depth, AppendUuid([], link), AppendUuid([], parent));
    }
  }

  ghost predicate TargetBounds(t: Target, p: Policy) {
    t.attempts <= p.maxRetries + 1 && (t.status.Queued? ==> t.attempts <= p.maxRetries)
  }

  lemma RetriesAt(targets: seq<Target>, p: Policy, k: nat)
    requires RetriesHold(targets, p) && k < |targets|
    ensures TargetBounds(targets[k], p)
  {
  }

  lemma {:induction false} SumsAppend(targets: seq<Target>, t: Target)
    ensures Attempts(targets + [t]) == Attempts(targets) + t.attempts
    ensures BytesOf(targets + [t]) == BytesOf(targets) + t.bytes
  {
    if targets != [] {
      assert (targets + [t])[1..] == targets[1..] + [t];
      SumsAppend(targets[1..], t);
    }
  }

  lemma {:induction false} AddKeeps(l: Ledger, p: Policy, uri: Uri, depth: nat, links: seq<Uuid>, parents: seq<Uuid>)
    requires Inv(l, p) && Distinct(links) && Distinct(parents)
    requires FindUri(l.cp.targets, uri).None? && FindIn(l.cp.targets, TargetUuid(l.cp.id, uri)).None?
    requires forall q :: q in parents ==> Has(l.cp.targets, q)
    ensures var t := Target(TargetUuid(l.cp.id, uri), uri, depth, Queued, 0, 0, links, parents, None, None, None);
            Inv(l.(cp := l.cp.(targets := l.cp.targets + [t])), p)
  {
    hide Target.Valid, Has, Attempts, BytesOf;
    var cp := l.cp;
    var t := Target(TargetUuid(cp.id, uri), uri, depth, Queued, 0, 0, links, parents, None, None, None);
    var next := cp.targets + [t];
    SumsAppend(cp.targets, t);
    NewTargetIsValid(cp.targets, t);
    assert SamePlaces(cp.targets, next);
    forall i, q | 0 <= i < |next| && q in next[i].parents ensures Has(next, q) {
      assert Has(cp.targets, q);
      PlacesKeepHas(cp.targets, next, q);
    }
  }

  lemma {:induction false} NewTargetIsValid(targets: seq<Target>, t: Target)
    requires t.status.Queued? && t.lastError.None? && t.artifact.None? && t.observation.None?
    requires Distinct(t.links) && Distinct(t.parents)
    requires FindIn(targets, t.id).None? && forall q :: q in t.parents ==> Has(targets, q)
    ensures t.Valid()
  {
  }

  lemma {:induction false} InterruptSums(targets: seq<Target>, reason: string)
    ensures Attempts(InterruptAll(targets, reason)) == Attempts(targets)
    ensures BytesOf(InterruptAll(targets, reason)) == BytesOf(targets)
  {
    if targets != [] {
      assert InterruptAll(targets, reason)[1..] == InterruptAll(targets[1..], reason);
      InterruptSums(targets[1..], reason);
    }
  }

  lemma {:induction false} StripTwice(s: string)
    ensures Strip(Strip(s)) == Strip(s)
    decreases |s|
  {
    if s != [] && IsSpace(s[0]) {
      StripTwice(s[1..]);
    } else if s != [] && IsSpace(s[|s| - 1]) {
      StripTwice(s[..|s| - 1]);
    }
  }

  lemma {:induction false} InterruptedIsValid(t: Target, reason: string)
    requires t.Valid() && Strip(reason) != []
    ensures Interrupted(t, Strip(reason)).Valid()
  {
    StripTwice(reason);
  }

  lemma {:induction false} InterruptKeeps(l: Ledger, p: Policy, reason: string)
    requires Inv(l, p) && Strip(reason) != []
    ensures Inv(l.(cp := RecoverInterrupted(l.cp, reason).value), p)
  {
    hide Target.Valid, Strip, Has, Attempts, BytesOf;
    var before, next := l.cp.targets, RecoverInterrupted(l.cp, reason).value.targets;
    InterruptSums(before, Strip(reason));
    forall i | 0 <= i < |next| ensures next[i].Valid() {
      InterruptedIsValid(before[i], reason);
    }
    assert SamePlaces(before, next);
    forall i, q | 0 <= i < |next| && q in next[i].parents ensures Has(next, q) {
      assert q in before[i].parents;
      PlacesKeepHas(before, next, q);
    }
  }

  // ----- one step

  /** The target a transition found, with what the invariant says of it. */
  lemma Found(l: Ledger, p: Policy, id: Uuid) returns (t: Target)
    requires Inv(l, p) && FindIn(l.cp.targets, id).Some?
    ensures t == FindIn(l.cp.targets, id).value && t in l.cp.targets && t.Valid() && TargetBounds(t, p)
  {
    hide Target.Valid, Unique, ParentsKnown, Attempts, BytesOf;
    t := FindIn(l.cp.targets, id).value;
    var k := TargetAt(l.cp.targets, t);
  }

  /** Transitions that move the target they name. */
  predicate MovesTarget(op: Op) {
    !(op.DoEnqueue? || op.DoRecoverInterrupted? || op.DoFollowup? || op.DoPolicyRequest? || op.DoPolicyBytes?
      || op.DoPolicyElapsed?)
  }

  ghost function Moved(t: Target, op: Op): Target {
    match op
    case DoStart(_, _) => t.(status := InProgress, attempts := t.attempts + 1, lastError := None, artifact := None,
                             observation := None)
    case DoBytes(_, bytes) => t.(bytes := t.bytes + bytes)
    case DoBeginFinalization(_, sha, observation, _) =>
      t.(status := Finalizing, artifact := Some(sha), observation := Some(observation))
    case DoCompleteFinalization(_, _) => t.(status := Completed)
    case DoComplete(_, bytes, _) => t.(status := Completed, bytes := t.bytes + bytes, lastError := None)
    case DoFail(_, reason, _, bytes) => t.(status := Failed, bytes := t.bytes + bytes, lastError := Some(Strip(reason)))
    case DoRequeue(_) => t.(status := Queued, lastError := None)
    case DoSkip(_, reason) => t.(status := Skipped, lastError := Some(Strip(reason)))
    case DoAbandon(_, reason, _) => t.(status := Failed, lastError := Some(reason), artifact := None,
                                       observation := None)
    case _ => t
  }

  lemma StepMoves(cp: Checkpoint, p: Policy, op: Op)
    requires MovesTarget(op) && Step(cp, p, op).Ok?
    ensures FindIn(cp.targets, op.id).Some?
    ensures var t, next := FindIn(cp.targets, op.id).value, Step(cp, p, op).value;
            && next == ReplaceTarget(cp, Moved(t, op)).(budget := next.budget)
            && next.budget.requests == cp.budget.requests + Moved(t, op).attempts - t.attempts
            && next.budget.bytes == cp.budget.bytes + Moved(t, op).bytes - t.bytes
            && next.budget.elapsed >= cp.budget.elapsed
            && (next.budget.requests > cp.budget.requests ==> cp.budget.requests < p.maxRequests)
  {
    hide FindIn, Strip, Enqueue, RecordFollowup, RecoverInterrupted;
  }

  lemma MovedIsValid(cp: Checkpoint, p: Policy, op: Op)
    requires MovesTarget(op) && Step(cp, p, op).Ok?
    requires FindIn(cp.targets, op.id).Some? && FindIn(cp.targets, op.id).value.Valid()
    ensures Moved(FindIn(cp.targets, op.id).value, op).Valid()
  {
    hide FindIn, Strip, Enqueue, RecordFollowup, RecoverInterrupted, ReplaceIn;
    if op.DoFail? || op.DoSkip? {
      StripTwice(op.reason);
    }
  }

  lemma MovedIsBounded(cp: Checkpoint, p: Policy, op: Op)
    requires MovesTarget(op) && Step(cp, p, op).Ok?
    requires FindIn(cp.targets, op.id).Some? && TargetBounds(FindIn(cp.targets, op.id).value, p)
    ensures TargetBounds(Moved(FindIn(cp.targets, op.id).value, op), p)
  {
    hide FindIn, Strip, Enqueue, RecordFollowup, RecoverInterrupted, ReplaceIn;
  }

  lemma TargetStepKeeps(l: Ledger, p: Policy, op: Op)
    requires Inv(l, p) && Step(l.cp, p, op).Ok? && MovesTarget(op)
    ensures Inv(Apply(l, p, op), p)
  {
    hide Inv, FindIn, Step, Target.Valid;
    StepMoves(l.cp, p, op);
    BudgetHolds(l, p);
    var t := Found(l, p, op.id);
    MovedIsValid(l.cp, p, op);
    MovedIsBounded(l.cp, p, op);
    Replacing(l, p, t, Moved(t, op), Step(l.cp, p, op).value.budget, 0);
  }

  lemma BudgetHolds(l: Ledger, p: Policy)
    requires Inv(l, p)
    ensures l.cp.budget.elapsed >= 0.0 && l.cp.budget.requests <= p.maxRequests
  {
  }

  lemma StepKeeps(l: Ledger, p: Policy, op: Op)
    requires Inv(l, p)
    ensures Inv(Apply(l, p, op), p)
    ensures Apply(l, p, op).cp.budget.elapsed >= l.cp.budget.elapsed
  {
    hide Target.Valid, Unique, ParentsKnown, RetriesHold, Attempts, BytesOf, Strip;
    if Step(l.cp, p, op).Ok? {
      match op
      case DoEnqueue(uri, depth, link, parent) => EnqueueKeeps(l, p, uri, depth, link, parent);
      case DoRecoverInterrupted(reason) => InterruptKeeps(l, p, reason);
      case DoFollowup(_, _, _) =>
      case DoPolicyRequest(_, _, _) =>
      case DoPolicyBytes(_) =>
      case DoPolicyElapsed(_) =>
      case _ => TargetStepKeeps(l, p, op);
    }
  }

  /** Main result: over every run, nothing is lost, counted twice, over-retried or over-requested. */
  lemma {:induction false} RunKeeps(l: Ledger, p: Policy, ops: seq<Op>)
    requires Inv(l, p)
    ensures Inv(Run(l, p, ops), p)
    ensures Run(l, p, ops).cp.budget.elapsed >= l.cp.budget.elapsed
    decreases |ops|
  {
    hide Inv, Apply;
    if ops != [] {
      StepKeeps(l, p, ops[0]);
      RunKeeps(Apply(l, p, ops[0]), p, ops[1..]);
    }
  }

  lemma EmptyHolds(id: Uuid, p: Policy)
    ensures Inv(Empty(id), p)
  {
  }

  lemma {:induction false} RunsFromEmpty(id: Uuid, p: Policy, ops: seq<Op>)
    ensures Inv(Run(Empty(id), p, ops), p)
  {
    EmptyHolds(id, p);
    RunKeeps(Empty(id), p, ops);
  }

  // ----- what can no longer change

  /** Completed and skipped targets keep status, outputs, attempts and bytes; targets never disappear or move. */
  ghost predicate Settled(before: Target, after: Target) {
    before.status.Completed? || before.status.Skipped? ==>
      && after.status == before.status
      && after.artifact == before.artifact && after.observation == before.observation
      && after.attempts == before.attempts && after.bytes == before.bytes && after.depth == before.depth
  }

  ghost predicate Follows(before: seq<Target>, after: seq<Target>) {
    && SamePlaces(before, after)
    && forall i :: 0 <= i < |before| ==> Settled(before[i], after[i]) && before[i].attempts <= after[i].attempts
  }

  lemma ReplaceFollows(targets: seq<Target>, t: Target, u: Target)
    requires Unique(targets) && t in targets && u.id == t.id && u.uri == t.uri && t.attempts <= u.attempts &&
             Settled(t, u)
    ensures Follows(targets, ReplaceIn(targets, u))
  {
    var k := TargetAt(targets, t);
    ReplacePlaces(targets, k, u);
  }

  lemma TargetStepFollows(cp: Checkpoint, p: Policy, op: Op)
    requires Unique(cp.targets) && Step(cp, p, op).Ok? && MovesTarget(op)
    ensures Follows(cp.targets, Step(cp, p, op).value.targets)
  {
    hide Unique, Follows, FindIn, Strip, Enqueue, RecordFollowup, RecoverInterrupted;
    StepMoves(cp, p, op);
    FindInBasics(cp.targets, op.id);
    var t := FindIn(cp.targets, op.id).value;
    ReplaceFollows(cp.targets, t, Moved(t, op));
  }

  lemma {:induction false} FindInBasics(targets: seq<Target>, id: Uuid)
    ensures FindIn(targets, id).Some? ==> FindIn(targets, id).value in targets && FindIn(targets, id).value.id == id
  {
  }

  lemma StepFollows(cp: Checkpoint, p: Policy, op: Op)
    requires cp.Valid() && Step(cp, p, op).Ok?
    ensures Follows(cp.targets, Step(cp, p, op).value.targets)
  {
    hide Target.Valid, ParentsKnown, Unique, Strip, Has;
    match op
    case DoEnqueue(uri, _, link, parent) =>
      var found := FindUri(cp.targets, uri);
      if found.Some? {
        var t := found.value;
        ReplaceFollows(cp.targets, t, t.(depth := if t.status.Queued? && op.depth < t.depth then op.depth else t.depth,
                                         links := AppendUuid(t.links, link), parents := AppendUuid(t.parents, parent)));
      }
    case DoRecoverInterrupted(_) =>
    case DoFollowup(_, _, _) =>
    case DoPolicyRequest(_, _, _) =>
    case DoPolicyBytes(_) =>
    case DoPolicyElapsed(_) =>
    case _ => TargetStepFollows(cp, p, op);
  }

  lemma {:induction false} RunFollows(l: Ledger, p: Policy, ops: seq<Op>)
    requires Inv(l, p)
    ensures Follows(l.cp.targets, Run(l, p, ops).cp.targets)
    decreases |ops|
  {
    if ops != [] {
      var next := Apply(l, p, ops[0]);
      StepKeeps(l, p, ops[0]);
      if Step(l.cp, p, ops[0]).Ok? {
        StepFollows(l.cp, p, ops[0]);
      }
      RunFollows(next, p, ops[1..]);
      FollowsOn(l.cp.targets, next.cp.targets, Run(l, p, ops).cp.targets);
    }
  }

  lemma FollowsOn(a: seq<Target>, b: seq<Target>, c: seq<Target>)
    requires Follows(a, b) && Follows(b, c)
    ensures Follows(a, c)
  {
  }

  // ----- the target lifecycle

  /** The status changes a transition may make. */
  predicate Edge(a: Status, b: Status) {
    || a == b
    || (a.Queued? && (b.InProgress? || b.Skipped?))
    || (a.InProgress? && (b.Finalizing? || b.Completed? || b.Failed?))
    || (a.Finalizing? && (b.Completed? || b.Failed?))
    || (a.Failed? && b.Queued?)
  }

  /** How one target may change in one transition. */
  predicate Advances(before: Target, after: Target) {
    && Edge(before.status, after.status)
    && after.attempts == before.attempts + (if before.status.Queued? && after.status.InProgress? then 1 else 0)
    && before.bytes <= after.bytes && (before.bytes < after.bytes ==> before.status.InProgress?)
    && (before.artifact.Some? && after.artifact.Some? ==>
          after.artifact == before.artifact && after.observation == before.observation)
    && (before.artifact.None? && after.artifact.Some? ==> before.status.InProgress? && after.status.Finalizing?)
    && (before.artifact.Some? && after.artifact.None? ==> before.status.Finalizing? && after.status.Failed?)
  }

  lemma MovedAdvances(cp: Checkpoint, p: Policy, op: Op)
    requires cp.Valid() && Step(cp, p, op).Ok? && MovesTarget(op)
    requires FindIn(cp.targets, op.id).Some? && FindIn(cp.targets, op.id).value.Valid()
    ensures Advances(FindIn(cp.targets, op.id).value, Moved(FindIn(cp.targets, op.id).value, op))
  {
    hide FindIn, ReplaceIn, Enqueue, RecordFollowup, RecoverInterrupted, Strip, Unique, ParentsKnown;
  }

  /**
   Every transition moves each target along the lifecycle: attempts count exactly the starts, bytes come
   only in progress, and outputs are named only on entering finalization and dropped only by failing it.
   */
  lemma StepAdvances(cp: Checkpoint, p: Policy, op: Op)
    requires cp.Valid() && Step(cp, p, op).Ok?
    ensures var next := Step(cp, p, op).value;
            && |cp.targets| <= |next.targets|
            && (forall i :: 0 <= i < |cp.targets| ==> Advances(cp.targets[i], next.targets[i]))
            && (forall i :: |cp.targets| <= i < |next.targets| ==>
                  next.targets[i].status.Queued? && next.targets[i].attempts == 0)
            && next.budget.requests ==
                 cp.budget.requests + (if op.DoStart? || op.DoFollowup? || op.DoPolicyRequest? then 1 else 0)
  {
    hide Target.Valid, Unique, ParentsKnown, Strip;
    if MovesTarget(op) {
      TargetStepAdvances(cp, p, op);
    } else if op.DoEnqueue? {
      EnqueueAdvances(cp, op.uri, op.depth, op.link, op.parent);
    }
  }

  /** The values and, if it is new, one more at the end. */
  ghost predicate Gains(before: seq<Uuid>, after: seq<Uuid>, value: Option<Uuid>) {
    && before <= after
    && (value.None? || value.value in before ==> after == before)
    && (value.Some? && value.value !in before ==> |after| == |before| + 1 && after[|before|] == value.value)
  }

  /** The smaller of two depths. */
  function MinDepth(a: nat, b: nat): (m: nat)
    ensures m <= a && m <= b && (m == a || m == b)
  {
    if a <= b then a else b
  }

  /**
   Enqueueing a known URI enriches its one target: a queued target moves to the smaller depth, the link and the parent
   are added once, and nothing else changes. It fails exactly for an unknown parent or for the target itself as parent.
   */
  lemma KnownUriIsEnriched(cp: Checkpoint, uri: Uri, depth: nat, link: Option<Uuid>, parent: Option<Uuid>, k: nat)
    requires cp.Valid() && k < |cp.targets| && cp.targets[k].uri == uri
    ensures Enqueue(cp, uri, depth, link, parent).Ok? <==>
            (parent.Some? ==> Has(cp.targets, parent.value) && parent.value != cp.targets[k].id)
    ensures Enqueue(cp, uri, depth, link, parent).Ok? ==>
              var next := Enqueue(cp, uri, depth, link, parent).value;
              && next == cp.(targets := next.targets) && |next.targets| == |cp.targets|
              && (forall j :: 0 <= j < |cp.targets| && j != k ==> next.targets[j] == cp.targets[j])
              && var t, u := cp.targets[k], next.targets[k];
                 && u == t.(depth := u.depth, links := u.links, parents := u.parents)
                 && u.depth == (if t.status.Queued? then MinDepth(t.depth, depth) else t.depth)
                 && Gains(t.links, u.links, link) && Gains(t.parents, u.parents, parent)
  {
    hide Target.Valid, ParentsKnown, Has, FindIn, FindUri;
    FoundByUri(cp, k);
    if parent.Some? {
      FoundIfHad(cp.targets, parent.value);
    }
    assert forall j :: 0 <= j < |cp.targets| && j != k ==> cp.targets[j].id != cp.targets[k].id;
  }

  lemma FoundByUri(cp: Checkpoint, k: nat)
    requires cp.Valid() && k < |cp.targets|
    ensures FindUri(cp.targets, cp.targets[k].uri) == Some(cp.targets[k])
  {
    hide Target.Valid, ParentsKnown;
    var j := TargetAt(cp.targets, FindUri(cp.targets, cp.targets[k].uri).value);
  }

  lemma {:induction false} FoundIfHad(targets: seq<Target>, id: Uuid)
    ensures FindIn(targets, id).Some? <==> Has(targets, id)
  {
    if FindIn(targets, id).Some? {
      var i := TargetAt(targets, FindIn(targets, id).value);
    }
  }

  /**
   Enqueueing a new URI puts one queued target at the end, with the derived identity; it needs a known parent, if any.
   */
  lemma NewUriIsAppended(cp: Checkpoint, uri: Uri, depth: nat, link: Option<Uuid>, parent: Option<Uuid>)
    requires cp.Valid() && forall i :: 0 <= i < |cp.targets| ==> cp.targets[i].uri != uri
    requires !Has(cp.targets, TargetUuid(cp.id, uri))
    ensures Enqueue(cp, uri, depth, link, parent).Ok? <==> (parent.Some? ==> Has(cp.targets, parent.value))
    ensures Enqueue(cp, uri, depth, link, parent).Ok? ==>
              var next := Enqueue(cp, uri, depth, link, parent).value;
              && next == cp.(targets := next.targets)
              && |next.targets| == |cp.targets| + 1 && cp.targets <= next.targets
              && var u := next.targets[|cp.targets|];
                 && u.id == TargetUuid(cp.id, uri) && u.uri == uri && u.depth == depth
                 && u.status.Queued? && u.attempts == 0 && u.bytes == 0
                 && u.links == (if link.Some? then [link.value] else [])
                 && u.parents == (if parent.Some? then [parent.value] else [])
                 && u.lastError.None? && u.artifact.None? && u.observation.None?
  {
    hide Target.Valid, ParentsKnown, Unique, Has, FindIn;
    FoundIfHad(cp.targets, TargetUuid(cp.id, uri));
    if parent.Some? {
      FoundIfHad(cp.targets, parent.value);
    }
  }

  // ----- the next target

  /** A target that can be started now. */
  ghost predicate Startable(cp: Checkpoint, p: Policy, since: Option<real>, k: nat)
    requires k < |cp.targets|
  {
    Start(cp, cp.targets[k].id, p, since).Ok?
  }

  /**
   `next_eligible`: the first target that `start` accepts, or nothing if it accepts none. It raises exactly if a queued
   target of an allowed URI meets a negative waiting time.
   */
  method NextEligible(cp: Checkpoint, p: Policy, since: Option<real>) returns (next: Result<Option<Target>>)
    requires cp.Valid()
    ensures next.Ok? && next.value.Some? ==>
              exists k :: && 0 <= k < |cp.targets| && cp.targets[k] == next.value.value && Startable(cp, p, since, k)
                          && forall i :: 0 <= i < k ==> !Startable(cp, p, since, i)
    ensures next == Ok(None) ==> forall k :: 0 <= k < |cp.targets| ==> !Startable(cp, p, since, k)
    ensures next.Err? <==>
            && since.Some? && since.value < 0.0
            && exists k :: 0 <= k < |cp.targets| && cp.targets[k].status.Queued? && p.allowsUri(cp.targets[k].uri)
  {
    hide Target.Valid, ParentsKnown, ReplaceTarget;
    for n := 0 to |cp.targets|
      invariant forall i :: 0 <= i < n ==> !Startable(cp, p, since, i)
      invariant since.Some? && since.value < 0.0 ==>
                  forall i :: 0 <= i < n ==> !(cp.targets[i].status.Queued? && p.allowsUri(cp.targets[i].uri))
    {
      var t := cp.targets[n];
      FoundById(cp, n);
      if t.status != Queued {
        continue;
      }
      if !p.allowsUri(t.uri) {
        continue;
      }
      var allowed := cp.budget.AllowsRequest(p, t.depth, 0, since);
      if allowed.Err? {
        return Err;
      }
      if allowed.value {
        return Ok(Some(t));
      }
    }
    return Ok(None);
  }

  lemma FoundById(cp: Checkpoint, k: nat)
    requires cp.Valid() && k < |cp.targets|
    ensures FindIn(cp.targets, cp.targets[k].id) == Some(cp.targets[k])
  {
    hide Target.Valid, ParentsKnown;
    var j := TargetAt(cp.targets, FindIn(cp.targets, cp.targets[k].id).value);
  }

  lemma EnqueueAdvances(cp: Checkpoint, uri: Uri, depth: nat, link: Option<Uuid>, parent: Option<Uuid>)
    requires cp.Valid() && Enqueue(cp, uri, depth, link, parent).Ok?
    ensures var next := Enqueue(cp, uri, depth, link, parent).value;
            && |cp.targets| <= |next.targets| && next.budget == cp.budget
            && (forall i :: 0 <= i < |cp.targets| ==> Advances(cp.targets[i], next.targets[i]))
            && (forall i :: |cp.targets| <= i < |next.targets| ==>
                  next.targets[i].status.Queued? && next.targets[i].attempts == 0)
  {
    hide Target.Valid, ParentsKnown;
    var found := FindUri(cp.targets, uri);
    if found.Some? {
      var k := TargetAt(cp.targets, found.value);
      assert forall i :: 0 <= i < |cp.targets| && cp.targets[i].id == found.value.id ==> i == k;
    }
  }

  lemma TargetStepAdvances(cp: Checkpoint, p: Policy, op: Op)
    requires cp.Valid() && Step(cp, p, op).Ok? && MovesTarget(op)
    ensures var next := Step(cp, p, op).value;
            && |cp.targets| == |next.targets|
            && (forall i :: 0 <= i < |cp.targets| ==> Advances(cp.targets[i], next.targets[i]))
            && next.budget.requests == cp.budget.requests + (if op.DoStart? then 1 else 0)
  {
    hide Target.Valid, FindIn, Strip, Enqueue, RecordFollowup, RecoverInterrupted, ParentsKnown, Moved, Advances;
    StepMoves(cp, p, op);
    FindInBasics(cp.targets, op.id);
    var t := FindIn(cp.targets, op.id).value;
    var k := TargetAt(cp.targets, t);
    MovedAdvances(cp, p, op);
    forall i | 0 <= i < |cp.targets| ensures Advances(cp.targets[i], Step(cp, p, op).value.targets[i]) {
      Stays(cp.targets[i]);
    }
  }

  lemma Stays(t: Target)
    ensures Advances(t, t)
  {
  }

  // ----- nothing is requested outside the policy

  /** The limits on one more request, for a depth, the bytes expected, and the time since the last one. */
  ghost predicate WithinLimits(b: Budget, p: Policy, depth: nat, bytes: nat, since: Option<real>) {
    && (since.Some? ==> since.value >= 0.0)
    && depth <= p.maxDepth
    && b.requests + 1 <= p.maxRequests
    && b.bytes + bytes <= p.maxBytes
    && (p.maxElapsed.Some? ==> b.elapsed < p.maxElapsed.value)
    && (b.requests == 0 || p.minInterval <= 0.0 || (since.Some? && since.value >= p.minInterval))
  }

  /** A charging transition succeeds exactly within the limits, for a target that stands ready where it has one. */
  lemma ChargesExactly(cp: Checkpoint, p: Policy, op: Op)
    requires op.DoStart? || op.DoFollowup? || op.DoPolicyRequest?
    ensures Step(cp, p, op).Ok? <==>
            match op
            case DoPolicyRequest(depth, bytes, since) => WithinLimits(cp.budget, p, depth, bytes, since)
            case DoStart(id, since) =>
              exists t :: FindIn(cp.targets, id) == Some(t) && t.status.Queued? && p.allowsUri(t.uri) &&
                          WithinLimits(cp.budget, p, t.depth, 0, since)
            case DoFollowup(id, bytes, since) =>
              exists t :: FindIn(cp.targets, id) == Some(t) && t.status.InProgress? &&
                          WithinLimits(cp.budget, p, t.depth, bytes, since)
            case _ => false
  {
    hide FindIn, ReplaceIn;
  }

  /** From which status, and under which conditions, a target may move on. */
  ghost predicate MayMove(t: Target, recorded: real, p: Policy, op: Op) {
    match op
    case DoBytes(_, _) => t.status.InProgress?
    case DoBeginFinalization(_, _, _, elapsed) => t.status.InProgress? && recorded <= elapsed
    case DoCompleteFinalization(_, elapsed) => t.status.Finalizing? && recorded <= elapsed
    case DoComplete(_, _, elapsed) => t.status.InProgress? && recorded <= elapsed
    case DoFail(_, reason, elapsed, _) => t.status.InProgress? && recorded <= elapsed && Strip(reason) != ""
    case DoRequeue(_) => t.status.Failed? && p.maxRetries >= 1 && t.attempts <= p.maxRetries
    case DoSkip(_, reason) => t.status.Queued? && Strip(reason) != ""
    case DoAbandon(_, reason, since0) => t.status.Finalizing? && since0 >= 0.0 && Strip(reason) != ""
    case _ => false
  }

  /** A transition that charges nothing succeeds exactly if its target is there and may move on. */
  lemma MovesExactly(cp: Checkpoint, p: Policy, op: Op)
    requires cp.budget.elapsed >= 0.0 && MovesTarget(op) && !op.DoStart?
    ensures Step(cp, p, op).Ok? <==>
            exists t :: FindIn(cp.targets, op.id) == Some(t) && MayMove(t, cp.budget.elapsed, p, op)
  {
    hide FindIn, ReplaceIn, Strip;
  }

  /** No transition charges a request that a limit forbids, or before the configured interval has passed. */
  lemma ChargingIsAllowed(cp: Checkpoint, p: Policy, op: Op)
    requires Step(cp, p, op).Ok? && (op.DoStart? || op.DoFollowup? || op.DoPolicyRequest?)
    ensures cp.budget.requests < p.maxRequests
    ensures cp.budget.bytes + (if op.DoStart? then 0 else op.expectedBytes) <= p.maxBytes
    ensures p.maxElapsed.Some? ==> cp.budget.elapsed < p.maxElapsed.value
    ensures cp.budget.requests > 0 && p.minInterval > 0.0 ==> op.since.Some? && op.since.value >= p.minInterval
    ensures op.DoPolicyRequest? ==> op.depth <= p.maxDepth
    ensures !op.DoPolicyRequest? ==>
              FindIn(cp.targets, op.id).Some? && FindIn(cp.targets, op.id).value.depth <= p.maxDepth
  {
    hide FindIn, ReplaceIn;
  }

  /** Every target that was ever requested is allowed by the policy and within its depth. */
  ghost predicate InPolicy(targets: seq<Target>, p: Policy) {
    forall i :: 0 <= i < |targets| ==>
      (targets[i].attempts > 0 ==> targets[i].depth <= p.maxDepth && p.allowsUri(targets[i].uri))
  }

  lemma StepStaysInPolicy(cp: Checkpoint, p: Policy, op: Op)
    requires cp.Valid() && Step(cp, p, op).Ok? && InPolicy(cp.targets, p)
    ensures InPolicy(Step(cp, p, op).value.targets, p)
  {
    hide Target.Valid, Unique, ParentsKnown, Strip;
    if MovesTarget(op) {
      TargetStepStaysInPolicy(cp, p, op);
    } else if op.DoEnqueue? {
      var found := FindUri(cp.targets, op.uri);
      if found.Some? {
        var k := TargetAt(cp.targets, found.value);
      }
    }
  }

  lemma TargetStepStaysInPolicy(cp: Checkpoint, p: Policy, op: Op)
    requires cp.Valid() && Step(cp, p, op).Ok? && InPolicy(cp.targets, p) && MovesTarget(op)
    ensures InPolicy(Step(cp, p, op).value.targets, p)
  {
    hide Target.Valid, Unique, ParentsKnown, Strip, FindIn, ReplaceIn, Enqueue, RecordFollowup, RecoverInterrupted;
    StepMoves(cp, p, op);
    FindInBasics(cp.targets, op.id);
    var k := TargetAt(cp.targets, FindIn(cp.targets, op.id).value);
  }

  /** Main result: over every run, no target outside the policy's URIs or depth has ever been requested. */
  lemma {:induction false} RunStaysInPolicy(l: Ledger, p: Policy, ops: seq<Op>)
    requires Inv(l, p) && InPolicy(l.cp.targets, p)
    ensures InPolicy(Run(l, p, ops).cp.targets, p)
    decreases |ops|
  {
    hide InPolicy, Step;
    if ops != [] {
      StepKeeps(l, p, ops[0]);
      if Step(l.cp, p, ops[0]).Ok? {
        StepStaysInPolicy(l.cp, p, ops[0]);
      }
      RunStaysInPolicy(Apply(l, p, ops[0]), p, ops[1..]);
    }
  }

  // ----- derived identities never clash

  /** Every target id is derived from its URI. */
  ghost predicate Derived(cp: Checkpoint) {
    forall i :: 0 <= i < |cp.targets| ==> cp.targets[i].id == TargetUuid(cp.id, cp.targets[i].uri)
  }

  lemma StepKeepsDerived(cp: Checkpoint, p: Policy, op: Op)
    requires cp.Valid() && Derived(cp) && Step(cp, p, op).Ok?
    ensures Derived(Step(cp, p, op).value)
  {
    hide Target.Valid, ParentsKnown, Unique, Strip, Has, Settled;
    StepFollows(cp, p, op);
    assert SamePlaces(cp.targets, Step(cp, p, op).value.targets);
  }

  lemma {:induction false} RunKeepsDerived(l: Ledger, p: Policy, ops: seq<Op>)
    requires Inv(l, p) && Derived(l.cp)
    ensures Derived(Run(l, p, ops).cp)
    decreases |ops|
  {
    hide Derived, Step;
    if ops != [] {
      StepKeeps(l, p, ops[0]);
      if Step(l.cp, p, ops[0]).Ok? {
        StepKeepsDerived(l.cp, p, ops[0]);
      }
      RunKeepsDerived(Apply(l, p, ops[0]), p, ops[1..]);
    }
  }

  /** Two targets of one derived identity have one URI. */
  lemma {:induction false} FoundAsDerived(cp: Checkpoint, id: Uuid, uri: Uri)
    requires Derived(cp) && FindIn(cp.targets, id).Some? && id == TargetUuid(cp.id, uri)
    ensures FindIn(cp.targets, id).value.uri == uri
  {
    hide FindIn;
    var k := TargetAt(cp.targets, FindIn(cp.targets, id).value);
  }

  lemma DerivedNeverClashes(cp: Checkpoint, uri: Uri, depth: nat, link: Option<Uuid>, parent: Option<Uuid>)
    requires Derived(cp)
    requires parent.Some? ==>
               FindIn(cp.targets, parent.value).Some? && FindIn(cp.targets, parent.value).value.uri != uri
    ensures Enqueue(cp, uri, depth, link, parent).Ok?
  {
    hide FindIn, FindUri, ReplaceTarget;
    var existing := FindUri(cp.targets, uri);
    if existing.Some? {
      var k := TargetAt(cp.targets, existing.value);
      if parent == Some(existing.value.id) {
        FoundAsDerived(cp, parent.value, uri);
      }
    } else if FindIn(cp.targets, TargetUuid(cp.id, uri)).Some? {
      FoundAsDerived(cp, TargetUuid(cp.id, uri), uri);
    }
  }

  /** After any run, enqueueing a URI with no parent, or under another known target, always succeeds. */
  lemma {:induction false} EnqueueSucceeds(id: Uuid, p: Policy, ops: seq<Op>, uri: Uri, depth: nat, link: Option<Uuid>,
                                           parent: Option<Uuid>)
    requires var targets := Run(Empty(id), p, ops).cp.targets;
             parent.Some? ==> FindIn(targets, parent.value).Some? && FindIn(targets, parent.value).value.uri != uri
    ensures Enqueue(Run(Empty(id), p, ops).cp, uri, depth, link, parent).Ok?
  {
    hide Run, Enqueue;
    EmptyHolds(id, p);
    RunKeepsDerived(Empty(id), p, ops);
    DerivedNeverClashes(Run(Empty(id), p, ops).cp, uri, depth, link, parent);
  }
}
