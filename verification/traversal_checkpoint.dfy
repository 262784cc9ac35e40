/**
 The resumable traversal frontier and its budget: immutable checkpoints and every
 transition between them (src/tarkka/domain/traversal.py,
 src/tarkka/domain/resource_acquisition.py, src/tarkka/domain/policy_requests.py).
 */
module TraversalCheckpoints {
  import opened Wrappers
  import opened PythonText
  import opened Ordering
  import opened Identities

  // ----- policy and budget

  datatype Policy = Policy(
    maxDepth: nat, maxRequests: nat, maxBytes: nat, maxRetries: nat, maxRedirects: nat,
    maxElapsed: Option<real>, minInterval: real, allowsUri: Uri -> bool, allowsAddress: string -> bool)
  {
    predicate Valid() {
      (maxElapsed.Some? ==> maxElapsed.value > 0.0) && minInterval >= 0.0
    }

    predicate AllowsRetry(retriesUsed: nat) {
      retriesUsed < maxRetries
    }
  }

  datatype Budget = Budget(requests: nat, bytes: nat, elapsed: real)
  {
    /** `allows_request`; a negative waiting time raises instead. */
    function AllowsRequest(p: Policy, depth: nat, expectedBytes: nat, since: Option<real>): Result<bool> {
      if since.Some? && since.value < 0.0 then Err
      else if depth > p.maxDepth then Ok(false)
      else if requests >= p.maxRequests then Ok(false)
      else if bytes + expectedBytes > p.maxBytes then Ok(false)
      else if p.maxElapsed.Some? && elapsed >= p.maxElapsed.value then Ok(false)
      else Ok(!(requests > 0 && p.minInterval > 0.0 && (since.None? || since.value < p.minInterval)))
    }
  }

  // ----- targets and checkpoints

  datatype Status = Queued | InProgress | Finalizing | Completed | Failed | Skipped

  datatype Target = Target(
    id: Uuid, uri: Uri, depth: nat, status: Status, attempts: nat, bytes: nat,
    links: seq<Uuid>, parents: seq<Uuid>, lastError: Option<string>,
    artifact: Option<Sha>, observation: Option<Uuid>)
  {
    /** What `TraversalTarget.__post_init__` enforces. */
    ghost predicate Valid() {
      && (lastError.Some? ==> Strip(lastError.value) != [])
      && (lastError.Some? <==> status.Failed? || status.Skipped?)
      && (status.InProgress? || status.Finalizing? || status.Completed? || status.Failed? ==> attempts > 0)
      && (artifact.Some? <==> observation.Some?)
      && (status.Finalizing? ==> artifact.Some?)
      && (artifact.Some? ==> status.Finalizing? || status.Completed?)
      && Distinct(links) && Distinct(parents)
      && id !in parents
    }
  }

  datatype Checkpoint = Checkpoint(id: Uuid, targets: seq<Target>, budget: Budget)
  {
    /** What `TraversalCheckpoint.__post_init__` enforces. */
    ghost predicate Valid() {
      && (forall i :: 0 <= i < |targets| ==> targets[i].Valid())
      && Unique(targets)
      && ParentsKnown(targets)
      && budget.elapsed >= 0.0
    }
  }

  ghost predicate Unique(targets: seq<Target>) {
    forall i, j :: 0 <= i < j < |targets| ==> targets[i].id != targets[j].id && targets[i].uri != targets[j].uri
  }

  ghost predicate Has(targets: seq<Target>, id: Uuid) {
    exists i :: 0 <= i < |targets| && targets[i].id == id
  }

  ghost predicate ParentsKnown(targets: seq<Target>) {
    forall i, p :: 0 <= i < |targets| && p in targets[i].parents ==> Has(targets, p)
  }

  function FindIn(targets: seq<Target>, id: Uuid): (found: Option<Target>)
    ensures found.Some? ==> found.value in targets && found.value.id == id
    ensures found.None? <==> forall i :: 0 <= i < |targets| ==> targets[i].id != id
  {
    if targets == [] then None
    else if targets[0].id == id then Some(targets[0])
    else FindIn(targets[1..], id)
  }

  function FindUri(targets: seq<Target>, uri: Uri): (found: Option<Target>)
    ensures found.Some? ==> found.value in targets && found.value.uri == uri
    ensures found.None? <==> forall i :: 0 <= i < |targets| ==> targets[i].uri != uri
  {
    if targets == [] then None
    else if targets[0].uri == uri then Some(targets[0])
    else FindUri(targets[1..], uri)
  }

  function ReplaceIn(targets: seq<Target>, updated: Target): (r: seq<Target>)
    ensures |r| == |targets|
    ensures forall i :: 0 <= i < |targets| ==> r[i] == if targets[i].id == updated.id then updated else targets[i]
  {
    seq(|targets|, i requires 0 <= i < |targets| => if targets[i].id == updated.id then updated else targets[i])
  }

  function ReplaceTarget(cp: Checkpoint, updated: Target): Checkpoint {
    cp.(targets := ReplaceIn(cp.targets, updated))
  }

  function AppendUuid(values: seq<Uuid>, value: Option<Uuid>): seq<Uuid> {
    if value.None? || value.value in values then values else values + [value.value]
  }

  // ----- transitions

  /** `uri` is the normalized URI; the parent, if any, must already be a target. */
  function Enqueue(cp: Checkpoint, uri: Uri, depth: nat, link: Option<Uuid>, parent: Option<Uuid>): Result<Checkpoint> {
    if parent.Some? && FindIn(cp.targets, parent.value).None? then Err
    else
      var existing := FindUri(cp.targets, uri);
      if existing.Some? then
        var t := existing.value;
        if parent == Some(t.id) then Err
        else Ok(ReplaceTarget(cp, t.(
          depth := if t.status.Queued? && depth < t.depth then depth else t.depth,
          links := AppendUuid(t.links, link),
          parents := AppendUuid(t.parents, parent))))
      else
        var id := TargetUuid(cp.id, uri);
        if parent == Some(id) || FindIn(cp.targets, id).Some? then Err
        else Ok(cp.(targets := cp.targets + [
          Target(id, uri, depth, Queued, 0, 0, AppendUuid([], link), AppendUuid([], parent), None, None, None)]))
  }

  function Start(cp: Checkpoint, id: Uuid, p: Policy, since: Option<real>): Result<Checkpoint> {
    var found := FindIn(cp.targets, id);
    if found.None? || !found.value.status.Queued? then Err
    else
      var t := found.value;
      if !p.allowsUri(t.uri) || cp.budget.AllowsRequest(p, t.depth, 0, since) != Ok(true) then Err
      else
        Ok(ReplaceTarget(cp, t.(status := InProgress, attempts := t.attempts + 1, lastError := None,
                                artifact := None, observation := None))
           .(budget := cp.budget.(requests := cp.budget.requests + 1)))
  }

  function RecordFollowup(cp: Checkpoint, id: Uuid, p: Policy, expectedBytes: nat,
                          since: Option<real>): Result<Checkpoint> {
    var found := FindIn(cp.targets, id);
    if found.None? || !found.value.status.InProgress? then Err
    else if cp.budget.AllowsRequest(p, found.value.depth, expectedBytes, since) != Ok(true) then Err
    else Ok(cp.(budget := cp.budget.(requests := cp.budget.requests + 1)))
  }

  function RecordBytes(cp: Checkpoint, id: Uuid, bytes: nat): Result<Checkpoint> {
    var found := FindIn(cp.targets, id);
    if found.None? || !found.value.status.InProgress? then Err
    else
      Ok(ReplaceTarget(cp, found.value.(bytes := found.value.bytes + bytes))
         .(budget := cp.budget.(bytes := cp.budget.bytes + bytes)))
  }

  function BeginFinalization(cp: Checkpoint, id: Uuid, sha: Sha, observation: Uuid, elapsed: real): Result<Checkpoint> {
    var found := FindIn(cp.targets, id);
    if found.None? || !found.value.status.InProgress? || elapsed < cp.budget.elapsed then Err
    else
      Ok(ReplaceTarget(cp, found.value.(status := Finalizing, artifact := Some(sha), observation := Some(observation)))
         .(budget := cp.budget.(elapsed := elapsed)))
  }

  function CompleteFinalization(cp: Checkpoint, id: Uuid, elapsed: real): Result<Checkpoint> {
    var found := FindIn(cp.targets, id);
    if found.None? || !found.value.status.Finalizing? || elapsed < cp.budget.elapsed then Err
    else Ok(ReplaceTarget(cp, found.value.(status := Completed)).(budget := cp.budget.(elapsed := elapsed)))
  }

  function Complete(cp: Checkpoint, id: Uuid, bytes: nat, elapsed: real): Result<Checkpoint> {
    var found := FindIn(cp.targets, id);
    if found.None? || !found.value.status.InProgress? || elapsed < cp.budget.elapsed then Err
    else
      Ok(ReplaceTarget(cp, found.value.(status := Completed, bytes := found.value.bytes + bytes, lastError := None))
         .(budget := cp.budget.(bytes := cp.budget.bytes + bytes, elapsed := elapsed)))
  }

  function Fail(cp: Checkpoint, id: Uuid, error: string, elapsed: real, bytes: nat): Result<Checkpoint> {
    var found := FindIn(cp.targets, id);
    if found.None? || !found.value.status.InProgress? || Strip(error) == [] || elapsed < cp.budget.elapsed then Err
    else
      Ok(ReplaceTarget(cp,
                       found.value.(status := Failed, bytes := found.value.bytes + bytes,
                                    lastError := Some(Strip(error))))
         .(budget := cp.budget.(bytes := cp.budget.bytes + bytes, elapsed := elapsed)))
  }

  function Interrupted(t: Target, reason: string): Target {
    if t.status.InProgress? then t.(status := Failed, lastError := Some(reason)) else t
  }

  function InterruptAll(targets: seq<Target>, reason: string): (r: seq<Target>)
    ensures |r| == |targets| && forall i :: 0 <= i < |r| ==> r[i] == Interrupted(targets[i], reason)
  {
    seq(|targets|, i requires 0 <= i < |targets| => Interrupted(targets[i], reason))
  }

  function RecoverInterrupted(cp: Checkpoint, reason: string): Result<Checkpoint> {
    if Strip(reason) == [] then Err
    else Ok(cp.(targets := InterruptAll(cp.targets, Strip(reason))))
  }

  function RequeueFailed(cp: Checkpoint, id: Uuid, p: Policy): Result<Checkpoint> {
    var found := FindIn(cp.targets, id);
    if found.None? || !found.value.status.Failed? then Err
    else if !p.AllowsRetry(if found.value.attempts > 0 then found.value.attempts - 1 else 0) then Err
    else Ok(ReplaceTarget(cp, found.value.(status := Queued, lastError := None)))
  }

  function Skip(cp: Checkpoint, id: Uuid, reason: string): Result<Checkpoint> {
    var found := FindIn(cp.targets, id);
    if found.None? || !found.value.status.Queued? || Strip(reason) == [] then Err
    else Ok(ReplaceTarget(cp, found.value.(status := Skipped, lastError := Some(Strip(reason)))))
  }

  /** `_abandon_finalization` of src/tarkka/application/http_acquisition.py. */
  function Abandon(cp: Checkpoint, id: Uuid, reason: string, elapsed: real): Result<Checkpoint> {
    var found := FindIn(cp.targets, id);
    if found.None? || !found.value.status.Finalizing? || Strip(reason) == [] || elapsed < 0.0 then Err
    else
      Ok(ReplaceTarget(cp,
                       found.value.(status := Failed, lastError := Some(reason), artifact := None, observation := None))
         .(budget := cp.budget.(elapsed := elapsed)))
  }

  function BeginPolicyRequest(cp: Checkpoint, p: Policy, depth: nat, expectedBytes: nat,
                              since: Option<real>): Result<Checkpoint> {
    if cp.budget.AllowsRequest(p, depth, expectedBytes, since) != Ok(true) then Err
    else Ok(cp.(budget := cp.budget.(requests := cp.budget.requests + 1)))
  }

  function RecordPolicyBytes(cp: Checkpoint, bytes: nat): Checkpoint {
    cp.(budget := cp.budget.(bytes := cp.budget.bytes + bytes))
  }

  function RecordPolicyElapsed(cp: Checkpoint, elapsed: real): Result<Checkpoint> {
    if elapsed < cp.budget.elapsed then Err else Ok(cp.(budget := cp.budget.(elapsed := elapsed)))
  }
}
