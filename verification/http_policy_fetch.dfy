/**
 Auxiliary policy fetches with a journalled output commit
 (src/tarkka/application/http_policy_fetch.py).
 */
module HttpPolicyFetch {
  import opened Wrappers
  import opened Identities
  import opened TraversalCheckpoints
  import opened TraversalRuns
  import opened DurableStores
  import opened HttpExchange
  import opened ElapsedTime

  datatype PolicyOutcome =
    | Fetched(cp: Checkpoint, body: Bytes, sha: Sha, observation: Uuid)
    | PolicyRefused
    | PolicyCheckpointLost
    | PolicyCommitInterrupted(cp: Checkpoint)
    | RedirectLimit(cp: Checkpoint)
    | FetchFailed(cp: Checkpoint)
    | PolicyRaised

  // ----- the journalled commit

  /** The marker is pending. */
  predicate Pending(d: Disk, m: Marker) {
    m.requestedUri in d.journal && d.journal[m.requestedUri] == m
  }

  /** The disk once the marker's outputs are committed. */
  function Committed(d: Disk, m: Marker): Disk {
    d.(artifacts := d.artifacts + {m.sha},
       observations := d.observations[m.observation := ArtifactUuid(m.sha)],
       journal := d.journal - {m.requestedUri})
  }

  /** Bytes, then observation, then the marker's removal; shared by `_finish_policy` and recovery. */
  method CommitPolicyOutputs(w: World, cp: Checkpoint, m: Marker, body: Bytes) returns (o: PolicyOutcome)
    requires w.Good() && w.Settled() && m.Valid() && Sha256(body) == m.sha && Pending(w.disk, m)
    modifies w`disk, w`history, w`faults
    ensures w.Good() && w.Settled() && Onward(w)
    ensures w.disk.calls == old(w.disk).calls && w.disk.durable == old(w.disk).durable &&
            w.disk.saves == old(w.disk).saves
    ensures o == Fetched(cp, body, m.sha, m.observation) || o == PolicyCommitInterrupted(cp)
    ensures o.Fetched? ==> OutputsDurable(w.disk, m.sha, m.observation) && m.requestedUri !in w.disk.journal
    ensures w.faults == old(w.faults) ==> o.Fetched? && w.disk == Committed(old(w.disk), m)
    ensures o.PolicyCommitInterrupted? ==> old(w.faults) < w.faults
  {
    hide Keeps, World.Good, World.Settled, Intended, OutputsDurable;
    PendingIsIntended(w.disk, m);
    var ok := StoreOutputs(w, m.sha, m.observation, body);
    if !ok {
      return PolicyCommitInterrupted(cp);
    }
    ghost var stored := w.disk;
    ok := w.DeleteMarker(m);
    KeepsOn(old(w.disk), stored, w.disk);
    PairStaysDurable(stored, w.disk, m.sha, m.observation);
    o := if ok then Fetched(cp, body, m.sha, m.observation) else PolicyCommitInterrupted(cp);
  }

  lemma PendingIsIntended(d: Disk, m: Marker)
    requires Pending(d, m)
    ensures Intended(d, Intent(m.sha, m.observation))
  {
    hide Naming;
  }

  /**
   `_recover_policy_result`: no network and no clock. With the artifact stored and no port failing it returns the
   original body and observation; with the outputs already durable, all that changes is that the marker goes.
   */
  method RecoverPolicyResult(w: World, cp: Checkpoint, m: Marker) returns (o: PolicyOutcome)
    requires w.Good() && w.Settled() && m.Valid() && Pending(w.disk, m)
    modifies w`disk, w`history, w`faults
    ensures w.Good() && w.Settled() && Onward(w)
    ensures w.disk.calls == old(w.disk).calls && w.disk.durable == old(w.disk).durable &&
            w.disk.saves == old(w.disk).saves
    ensures o.Fetched? || o.PolicyCommitInterrupted? || (o.PolicyRaised? && old(w.faults) < w.faults)
    ensures !o.PolicyRaised? ==> o.cp == cp
    ensures o.Fetched? ==>
              && m.sha in old(w.disk).artifacts && Sha256(o.body) == m.sha && o.sha == m.sha &&
                 o.observation == m.observation
              && OutputsDurable(w.disk, m.sha, m.observation) && m.requestedUri !in w.disk.journal
    ensures m.sha !in old(w.disk).artifacts ==> !o.Fetched? && w.disk == old(w.disk)
    ensures m.sha !in old(w.disk).artifacts && w.faults == old(w.faults) ==> o.PolicyCommitInterrupted?
    ensures m.sha in old(w.disk).artifacts && w.faults == old(w.faults) ==>
              o.Fetched? && w.disk == Committed(old(w.disk), m)
    ensures OutputsDurable(old(w.disk), m.sha, m.observation) && w.faults == old(w.faults) ==>
              w.disk == old(w.disk).(journal := old(w.disk).journal - {m.requestedUri})
  {
    hide Keeps, World.Good, World.Settled;
    KeepsItself(w.disk);
    var there := w.Exists(m.sha);
    if there.None? {
      return PolicyRaised;
    }
    if !there.value {
      return PolicyCommitInterrupted(cp);
    }
    var body := w.ReadBytes(m.sha);
    if body.None? || Sha256(body.value) != m.sha {
      return PolicyCommitInterrupted(cp);
    }
    o := CommitPolicyOutputs(w, cp, m, body.value);
    CommittedAgain(old(w.disk), m);
  }

  /** Committing what is already durable only removes the marker. */
  lemma CommittedAgain(d: Disk, m: Marker)
    ensures OutputsDurable(d, m.sha, m.observation) ==> Committed(d, m) == d.(journal := d.journal - {m.requestedUri})
  {
    if OutputsDurable(d, m.sha, m.observation) {
      assert d.artifacts + {m.sha} == d.artifacts;
      assert d.observations[m.observation := ArtifactUuid(m.sha)] == d.observations;
    }
  }

  /** The marker of a response. */
  function MarkerOf(checkpoint: Uuid, facts: Facts, body: Bytes): Marker {
    Marker(checkpoint, facts.requestedUri, Sha256(body), ObservationUuid(ArtifactUuid(Sha256(body)), facts), facts)
  }

  /** `_finish_policy`: the marker is durable before any output is. */
  method FinishPolicy(w: World, cp: Checkpoint, facts: Facts, body: Bytes) returns (o: PolicyOutcome)
    requires w.Good() && w.Settled()
    modifies w`disk, w`history, w`faults
    ensures w.Good() && w.Settled() && Onward(w)
    ensures w.disk.calls == old(w.disk).calls && w.disk.durable == old(w.disk).durable &&
            w.disk.saves == old(w.disk).saves
    ensures var m := MarkerOf(cp.id, facts, body);
            && (o == Fetched(cp, body, m.sha, m.observation) || o == PolicyCommitInterrupted(cp))
            && (o.Fetched? ==> m in w.disk.everMarked && OutputsDurable(w.disk, m.sha, m.observation) &&
                               m.requestedUri !in w.disk.journal)
    ensures w.faults == old(w.faults) && facts.requestedUri !in old(w.disk).journal ==> o.Fetched?
    ensures o.PolicyCommitInterrupted? ==> old(w.faults) < w.faults || facts.requestedUri in old(w.disk).journal
  {
    hide Keeps, World.Good, World.Settled, OutputsDurable;
    KeepsItself(w.disk);
    var m := MarkerOf(cp.id, facts, body);
    var ok := w.SaveMarker(m);
    if !ok {
      return PolicyCommitInterrupted(cp);
    }
    ghost var marked := w.disk;
    w.PendingWasMarked(m);
    o := CommitPolicyOutputs(w, cp, m, body);
    KeepsOn(old(w.disk), marked, w.disk);
    KeepsMarks(marked, w.disk);
  }

  lemma KeepsMarks(before: Disk, after: Disk)
    requires Keeps(before, after)
    ensures before.everMarked <= after.everMarked
  {
  }

  // ----- checkpoints in hand

  /** A checkpoint in hand that may be saved. */
  ghost predicate Held(d: Disk, p: Policy, cp: Checkpoint) {
    TargetsSafe(d, cp.targets) && Charged(d, p, cp)
  }

  /** Saves a checkpoint in hand that takes no time from the clock. */
  method SaveHeld(w: World, cp: Checkpoint) returns (ok: bool)
    requires w.Good() && w.disk.durable.Some? && Held(w.disk, w.policy, cp)
    requires Recorded(w.disk) == cp.budget.elapsed
    requires w.disk.received - cp.budget.bytes <= Excused(w.policy, w.faults)
    requires Slack(w.disk) <= Excused(w.policy, w.faults) + w.policy.maxBytes
    modifies w`disk, w`history, w`faults
    ensures w.Good() && w.Settled() && Onward(w)
    ensures w.faults == old(w.faults) + (if ok then 0 else 1) && (w.reliable ==> ok == !w.SaveFails(cp))
    ensures OnlySaved(old(w.disk), w.disk)
    ensures w.disk.durable == old(w.disk).durable || w.disk.durable == Some(cp)
    ensures ok ==> w.disk.durable == Some(cp) && Held(w.disk, w.policy, cp)
    ensures w.disk.saves == old(w.disk).saves ||
            (|w.disk.saves| == |old(w.disk).saves| + 1 && old(w.disk).saves <= w.disk.saves &&
             w.disk.saves[|old(w.disk).saves|].cp == cp)
  {
    hide World.Good, Accounted, Keeps, TargetsSafe, Naming;
    SavedKeepsTargets(w.disk, cp, w.clock.Last());
    ok := w.SaveCheckpoint(cp);
  }

  /** Storing and receiving more keeps a checkpoint in hand fit for saving. */
  lemma StoringKeepsHeld(before: Disk, after: Disk, p: Policy, cp: Checkpoint)
    requires Held(before, p, cp) && Keeps(before, after) && after.calls <= cp.budget.requests &&
             Spent(after) <= cp.budget.bytes
    ensures Held(after, p, cp)
  {
    hide TargetsSafe, Accounted, Keeps;
    KeepsTargetsSafe(before, after, cp.targets);
    KeepsReceived(before, after);
  }

  lemma PolicyChargeHolds(d: Disk, p: Policy, cp: Checkpoint, depth: nat, since: Option<real>)
    requires Held(d, p, cp)
    ensures BeginPolicyRequest(cp, p, depth, 0, since).Ok? <==> cp.budget.AllowsRequest(p, depth, 0, since) == Ok(true)
    ensures BeginPolicyRequest(cp, p, depth, 0, since).Ok? ==>
              var next := BeginPolicyRequest(cp, p, depth, 0, since).value;
              && Held(d, p, next) && d.calls < next.budget.requests
              && next.budget == cp.budget.(requests := cp.budget.requests + 1)
  {
    hide TargetsSafe, Accounted;
    if BeginPolicyRequest(cp, p, depth, 0, since).Ok? {
      StepKeepsAccounted(cp, p, DoPolicyRequest(depth, 0, since));
    }
  }

  lemma PolicyBytesHold(d: Disk, p: Policy, cp: Checkpoint, bytes: nat)
    requires Held(d, p, cp) && cp.budget.bytes + bytes <= p.maxBytes && cp.budget.bytes + bytes <= d.received
    ensures Held(d, p, RecordPolicyBytes(cp, bytes))
  {
    hide TargetsSafe, Accounted;
    StepKeepsAccounted(cp, p, DoPolicyBytes(bytes));
  }

  lemma PolicyElapsedHolds(d: Disk, p: Policy, cp: Checkpoint, elapsed: real, at: real, steady: bool)
    requires Held(d, p, cp) && elapsed >= cp.budget.elapsed && (steady ==> Recorded(d) <= elapsed)
    ensures RecordPolicyElapsed(cp, elapsed).Ok?
    ensures var next := RecordPolicyElapsed(cp, elapsed).value;
            && next.budget == cp.budget.(elapsed := elapsed)
            && MaySave(d, p, next, steady) && Held(Saved(d, next, at), p, cp)
  {
    hide TargetsSafe, Accounted, Naming;
    StepKeepsAccounted(cp, p, DoPolicyElapsed(elapsed));
    SavedKeepsTargets(d, RecordPolicyElapsed(cp, elapsed).value, at);
  }

  // ----- one pass of the loop

  datatype PolicyHop =
    | PolicyFollow(active: Checkpoint, next: string)
    | PolicyFinal(active: Checkpoint, response: Response)
    | PolicyLimit(active: Checkpoint)
    | PolicyHopFailed(active: Checkpoint)
    | PolicyHopLost

  /** An acceptable redirect past the last one allowed. */
  predicate HitsLimit(p: Policy, redirects: nat, r: Response) {
    && !r.limitExceeded && r.location.Reference? && r.status in {301, 302, 303, 307, 308}
    && redirects >= p.maxRedirects
  }

  /** The last reply of a fetch is one, at the index `maxRedirects` of its trail. */
  predicate EndsAtLimit(p: Policy, replies: seq<Reply>, n: nat) {
    n < |replies| && HitsLimit(p, |replies| - n - 1, replies[|replies| - 1].response)
  }

  lemma EndsOrBouncesIsNoLimit(p: Policy, web: Web, uri: string, redirects: nat, r: Response)
    ensures HitsLimit(p, redirects, r) ==> Rule(p, web, uri, redirects, r).Stops?
  {
  }

  lemma SentOnIsNoLimit(p: Policy, web: Web, replies: seq<Reply>, n: nat)
    requires SentOn(p, web, replies, n)
    ensures !EndsAtLimit(p, replies, n)
  {
  }

  /** One pass: request, account, and either finish, fail, or charge the next hop. */
  method OnePolicyHop(w: World, web: Web, active0: Checkpoint, depth: nat, uri: string, redirects: nat,
                      startedAt: real, ghost b0: nat)
    returns (hop: PolicyHop)
    requires w.policy.Valid() && w.Good() && w.Settled() && OnTime(w.clock, startedAt, b0)
    requires w.disk.durable == Some(active0) && Held(w.disk, w.policy, active0)
    requires w.disk.calls < active0.budget.requests && w.policy.allowsUri(uri)
    modifies w, w.clock
    ensures w.Good() && w.Settled() && Onward(w) && OnTime(w.clock, startedAt, b0) &&
            w.disk.calls <= old(w.disk).calls + 1
    ensures w.disk.journal == old(w.disk).journal
    ensures Level(w.disk.saves, |old(w.disk).saves|, active0.budget.elapsed)
    ensures hop.PolicyHopLost? ==> old(w.faults) < w.faults
    ensures !hop.PolicyHopLost? ==>
              && w.disk.durable == Some(hop.active) && Held(w.disk, w.policy, hop.active)
              && hop.active.budget.elapsed == active0.budget.elapsed
    ensures hop.PolicyFinal? || hop.PolicyFollow? || hop.PolicyLimit? ==>
              && |w.replies| == |old(w.replies)| + 1 && |w.answers| == |old(w.answers)| + 1
              && var reply := w.replies[|old(w.replies)|];
                 && reply.uri == uri
                 && hop.active.budget.bytes == active0.budget.bytes + |reply.response.body|
                 && (hop.PolicyFinal? ==>
                       hop.response == reply.response && Rule(w.policy, web, uri, redirects, hop.response).Ends?)
                 && (hop.PolicyFollow? ==> Rule(w.policy, web, uri, redirects, reply.response) == Bounces(hop.next))
                 && (hop.PolicyLimit? ==> HitsLimit(w.policy, redirects, reply.response))
    ensures Pinned(w.policy, web, uri, w.answers, |old(w.answers)|, w.replies, |old(w.replies)|)
    ensures hop.PolicyFinal? || hop.PolicyLimit? ==>
              BudgetChecked(w.policy, active0.budget.elapsed, startedAt, w.clock.readings, |old(w.clock.readings)|, 3)
    ensures hop.PolicyFollow? ==>
              BudgetChecked(w.policy, active0.budget.elapsed, startedAt, w.clock.readings, |old(w.clock.readings)|, 5)
    ensures hop.PolicyFollow? ==> w.disk.calls < hop.active.budget.requests
    ensures Undisturbed(w, active0.budget.elapsed, startedAt, b0) ==>
              && !hop.PolicyHopLost?
              && (hop.PolicyHopFailed? || hop.PolicyLimit? ==>
                    HopStopped(w.policy, web, uri, redirects, depth, hop.active.budget,
                               w.replies, |old(w.replies)|, w.answers, |old(w.answers)|))
    ensures Undisturbed(w, active0.budget.elapsed, startedAt, b0) && hop.PolicyHopFailed? &&
            |w.replies| > |old(w.replies)| ==>
              !HitsLimit(w.policy, redirects, w.replies[|old(w.replies)|].response)
    ensures |w.replies| <= |old(w.replies)| + 1
    ensures |w.replies| > |old(w.replies)| ==> w.replies[|old(w.replies)|].uri == uri
    ensures w.policy.maxElapsed.None? ==> w.clock.readings == old(w.clock.readings)
  {
    hide BudgetChecked, Pinned, Reaches, Keeps, World.Good, Accounted, TargetsSafe, MaySave, Rule, FirstAllowed;
    var active := active0;
    KeepsItself(w.disk);
    var response := RequestOnce(w, web, active, uri, startedAt, b0);
    ghost var answered, read := w.disk, w.clock.readings;
    PinnedUri(w.policy, web, uri, w.answers, |old(w.answers)|, w.replies, |old(w.replies)|);
    KeepsReceived(old(w.disk), w.disk);
    StoringKeepsHeld(old(w.disk), w.disk, w.policy, active);
    if response.None? {
      return PolicyHopFailed(active);
    }
    PolicyBytesHold(w.disk, w.policy, active, |response.value.body|);
    active := RecordPolicyBytes(active, |response.value.body|);
    var ok := SaveHeld(w, active);
    KeepsOn(old(w.disk), answered, w.disk);
    if !ok {
      return PolicyHopLost;
    }
    ghost var saved := w.disk;
    hop := JudgePolicyResponse(w, web, active, depth, uri, redirects, response.value, startedAt, b0);
    KeepsOn(old(w.disk), saved, w.disk);
    KeepsReceived(old(w.disk), answered);
    KeepsReceived(answered, saved);
    KeepsReceived(saved, w.disk);
    if !hop.PolicyHopLost? && !hop.PolicyHopFailed? {
      CheckedAgain(w.policy, active0.budget.elapsed, startedAt, read, w.clock.readings, |old(w.clock.readings)|, 2,
                   if hop.PolicyFollow? then 3 else 1);
    }
  }

  /** What follows an accounted response. */
  method JudgePolicyResponse(w: World, web: Web, active: Checkpoint, depth: nat, uri: string, redirects: nat,
                             response: Response, startedAt: real, ghost b0: nat)
    returns (hop: PolicyHop)
    requires w.policy.Valid() && w.Good() && w.Settled() && OnTime(w.clock, startedAt, b0)
    requires w.disk.durable == Some(active) && Held(w.disk, w.policy, active)
    modifies w`disk, w`history, w`faults, w.clock
    ensures w.Good() && w.Settled() && Onward(w) && OnTime(w.clock, startedAt, b0)
    ensures w.disk.calls == old(w.disk).calls && w.disk.journal == old(w.disk).journal
    ensures Level(w.disk.saves, |old(w.disk).saves|, active.budget.elapsed)
    ensures hop.PolicyHopLost? ==> old(w.faults) < w.faults
    ensures !hop.PolicyHopLost? ==>
              && w.disk.durable == Some(hop.active) && Held(w.disk, w.policy, hop.active)
              && hop.active.budget.elapsed == active.budget.elapsed && hop.active.budget.bytes == active.budget.bytes
    ensures hop.PolicyFinal? ==> hop.response == response && Rule(w.policy, web, uri, redirects, response).Ends?
    ensures hop.PolicyFollow? ==>
              Rule(w.policy, web, uri, redirects, response) == Bounces(hop.next) &&
              w.disk.calls < hop.active.budget.requests
    ensures hop.PolicyLimit? ==>
              HitsLimit(w.policy, redirects, response) && Rule(w.policy, web, uri, redirects, response).Stops?
    ensures Undisturbed(w, active.budget.elapsed, startedAt, b0) && !hop.PolicyFinal? && !hop.PolicyFollow? &&
            !hop.PolicyLimit? ==>
              && hop.PolicyHopFailed?
              && var rule := Rule(w.policy, web, uri, redirects, response);
                 (rule.Stops? && !HitsLimit(w.policy, redirects, response)) ||
                 (rule.Bounces? && !HitsLimit(w.policy, redirects, response) &&
                  hop.active.budget.AllowsRequest(w.policy, depth, 0, Some(w.policy.minInterval)) != Ok(true))
    ensures hop.PolicyFinal? || hop.PolicyLimit? ==>
              BudgetChecked(w.policy, active.budget.elapsed, startedAt, w.clock.readings, |old(w.clock.readings)|, 1)
    ensures hop.PolicyFollow? ==>
              BudgetChecked(w.policy, active.budget.elapsed, startedAt, w.clock.readings, |old(w.clock.readings)|, 3)
    ensures w.policy.maxElapsed.None? ==> w.clock.readings == old(w.clock.readings)
  {
    hide Keeps, World.Good, Accounted, TargetsSafe, MaySave, Budget.AllowsRequest, OnlySaved;
    KeepsItself(w.disk);
    if response.limitExceeded || active.budget.bytes > w.policy.maxBytes {
      return PolicyHopFailed(active);
    }
    var ok, remaining := RemainingElapsed(w, active, startedAt, b0);
    ghost var read := w.clock.readings;
    if !ok || response.location.BadLocation? {
      return PolicyHopFailed(active);
    }
    if !IsRedirect(response.status) {
      return PolicyFinal(active, response);
    }
    if response.location.NoLocation? {
      return PolicyHopFailed(active);
    }
    if redirects >= w.policy.maxRedirects {
      return PolicyLimit(active);
    }
    var next := web.join(uri, response.location.text);
    if !w.policy.allowsUri(next) {
      return PolicyHopFailed(active);
    }
    hop := ChargePolicyHop(w, active, depth, next, startedAt, b0);
    if hop.PolicyFollow? {
      CheckedAgain(w.policy, active.budget.elapsed, startedAt, read, w.clock.readings, |old(w.clock.readings)|, 1, 2);
    }
  }

  /** Wait, charge the follow-up request, and save it before the connection is opened. */
  method ChargePolicyHop(w: World, active: Checkpoint, depth: nat, next: string, startedAt: real, ghost b0: nat)
    returns (hop: PolicyHop)
    requires w.policy.Valid() && w.Good() && w.Settled() && OnTime(w.clock, startedAt, b0)
    requires w.disk.durable == Some(active) && Held(w.disk, w.policy, active)
    modifies w`disk, w`history, w`faults, w.clock
    ensures w.Good() && w.Settled() && Onward(w) && OnTime(w.clock, startedAt, b0)
    ensures w.disk.calls == old(w.disk).calls && w.disk.journal == old(w.disk).journal
    ensures Level(w.disk.saves, |old(w.disk).saves|, active.budget.elapsed)
    ensures hop.PolicyFollow? || hop.PolicyHopFailed? || (hop.PolicyHopLost? && old(w.faults) < w.faults)
    ensures !hop.PolicyHopLost? ==>
              && w.disk.durable == Some(hop.active) && Held(w.disk, w.policy, hop.active)
              && hop.active.budget.elapsed == active.budget.elapsed && hop.active.budget.bytes == active.budget.bytes
    ensures hop.PolicyFollow? ==> hop.next == next && w.disk.calls < hop.active.budget.requests
    ensures Undisturbed(w, active.budget.elapsed, startedAt, b0) && hop.PolicyHopFailed? ==>
              hop.active.budget.AllowsRequest(w.policy, depth, 0, Some(w.policy.minInterval)) != Ok(true)
    ensures hop.PolicyFollow? ==>
              BudgetChecked(w.policy, active.budget.elapsed, startedAt, w.clock.readings, |old(w.clock.readings)|, 2)
    ensures w.policy.maxElapsed.None? ==> w.clock.readings == old(w.clock.readings)
  {
    hide Keeps, World.Good, Accounted, TargetsSafe, MaySave, Budget.AllowsRequest;
    KeepsItself(w.disk);
    var ok := WaitForFollowup(w, active, depth, startedAt, b0);
    if !ok {
      return PolicyHopFailed(active);
    }
    PolicyChargeHolds(w.disk, w.policy, active, depth, Some(w.policy.minInterval));
    var charged := BeginPolicyRequest(active, w.policy, depth, 0, Some(w.policy.minInterval));
    if charged.Err? {
      return PolicyHopFailed(active);
    }
    ok := SaveHeld(w, charged.value);
    hop := if ok then PolicyFollow(charged.value, next) else PolicyHopLost;
  }

  // ----- the end of a fetch

  /** A final response that could not be marked: the time was recorded, and recorded again for the failure. */
  predicate RecordedTwice(o: PolicyOutcome, readings: seq<Option<real>>, m: nat, saves: seq<Save>, k: nat, base: real,
                          startedAt: real) {
    && |readings| == m + 2
    && (Usable(readings[m + 1], startedAt) <==> o.FetchFailed?)
    && |saves| == k + (if Usable(readings[m], startedAt) then 1 else 0) + (if o.FetchFailed? then 1 else 0)
    && (Usable(readings[m], startedAt) ==> saves[k].readAt == readings[m].value && Timed(saves[k], base, startedAt))
    && (o.FetchFailed? ==>
          saves[|saves| - 1].readAt == readings[m + 1].value && Timed(saves[|saves| - 1], base, startedAt))
  }

  /** The same for saves that start somewhere from `from` on. */
  predicate RecordedTwiceFrom(o: PolicyOutcome, readings: seq<Option<real>>, m: nat, saves: seq<Save>, from: nat,
                              base: real, startedAt: real) {
    exists k :: from <= k <= |saves| && RecordedTwice(o, readings, m, saves, k, base, startedAt)
  }

  /** Spent budget is kept when a fetch fails: the elapsed time is recorded and saved, from the checkpoint in hand. */
  method RecordPolicyFailure(w: World, active: Checkpoint, startedAt: real, limit: bool, ghost k: nat)
    returns (o: PolicyOutcome)
    requires w.Good() && w.Settled() && Held(w.disk, w.policy, active) && TimeKept(w, active, startedAt)
    requires Tail(w.disk.saves, k, active.budget.elapsed, startedAt) && |w.disk.saves| <= k + 1
    modifies w`disk, w`history, w`faults, w.clock
    ensures w.Good() && w.Settled() && Onward(w) && OnlySaved(old(w.disk), w.disk)
    ensures o.PolicyRaised? || o.PolicyCheckpointLost? || (if limit then o.RedirectLimit? else o.FetchFailed?)
    ensures o.RedirectLimit? || o.FetchFailed? ==>
              w.disk.durable == Some(o.cp) && o.cp.budget == active.budget.(elapsed := o.cp.budget.elapsed) &&
              o.cp.targets == active.targets
    ensures o.PolicyCheckpointLost? ==> old(w.faults) < w.faults
    ensures o.PolicyRaised? ==> w.disk == old(w.disk) && Hitched(w.clock, startedAt) && TimeKept(w, active, startedAt)
    ensures Tail(w.disk.saves, k, active.budget.elapsed, startedAt)
    ensures o.RedirectLimit? || o.FetchFailed? ==>
              TimedAtLast(w.disk.saves, w.clock.readings, active.budget.elapsed, startedAt)
    ensures |w.clock.readings| == |old(w.clock.readings)| + 1
    ensures o.PolicyRaised? <==> !Usable(w.clock.readings[|old(w.clock.readings)|], startedAt)
    ensures o.RedirectLimit? || o.FetchFailed? ==>
              |w.disk.saves| == |old(w.disk).saves| + 1 && old(w.disk).saves <= w.disk.saves
  {
    hide Keeps, World.Good, World.Settled, Held, MaySave, Naming;
    KeepsItself(w.disk);
    var elapsed := Elapsed(w, active, startedAt);
    if elapsed.None? {
      return PolicyRaised;
    }
    PolicyElapsedHolds(w.disk, w.policy, active, elapsed.value, w.clock.Last(), w.clock.backward == 0);
    var failed := RecordPolicyElapsed(active, elapsed.value).value;
    ghost var finished := w.disk.saves;
    var ok := w.SaveCheckpoint(failed);
    assert w.disk.saves != finished ==> w.disk.saves == finished + [Save(failed, w.clock.Last())];
    o := if !ok then PolicyCheckpointLost else if limit then RedirectLimit(failed) else FetchFailed(failed);
  }

  /** The elapsed time is recorded, then the marker, then the outputs; a snapshot that cannot be marked is a failure. */
  method CompletePolicyFetch(w: World, active: Checkpoint, facts: Option<Facts>, body: Bytes, startedAt: real,
                             ghost b0: nat, ghost k: nat)
    returns (o: PolicyOutcome)
    requires w.Good() && w.Settled() && OnTime(w.clock, startedAt, b0)
    requires w.disk.durable == Some(active) && Held(w.disk, w.policy, active) && k == |w.disk.saves|
    modifies w`disk, w`history, w`faults, w.clock
    ensures w.Good() && w.Settled() && Onward(w) && w.disk.calls == old(w.disk).calls
    ensures !o.PolicyRefused? && !o.RedirectLimit?
    ensures Tail(w.disk.saves, k, active.budget.elapsed, startedAt)
    ensures o.Fetched? ==>
              && facts.Some? && o.body == body && o.sha == Sha256(body)
              && o.observation == ObservationUuid(ArtifactUuid(o.sha), facts.value)
              && OutputsDurable(w.disk, o.sha, o.observation) && facts.value.requestedUri !in w.disk.journal
    ensures o.FetchFailed? || o.Fetched? || o.PolicyCommitInterrupted? ==> w.disk.durable == Some(o.cp)
    ensures o.FetchFailed? || o.PolicyRaised? ==> SameSpending(w.disk, active)
    ensures o.PolicyCheckpointLost? ==> old(w.faults) < w.faults
    ensures o.PolicyCommitInterrupted? ==>
              old(w.faults) < w.faults || (facts.Some? && facts.value.requestedUri in old(w.disk).journal)
    ensures w.faults == old(w.faults) && !Hitched(w.clock, startedAt) ==>
              if facts.Some? then facts.value.requestedUri in old(w.disk).journal || o.Fetched? else o.FetchFailed?
    ensures w.faults == old(w.faults) && facts.None? ==>
              RecordedTwice(o, w.clock.readings, |old(w.clock.readings)|, w.disk.saves, k, active.budget.elapsed,
                            startedAt)
  {
    hide Keeps, World.Good, World.Settled, Held, MaySave, Naming, OutputsDurable, TimeKept;
    var recorded := RecordCompletion(w, active, startedAt, b0);
    ghost var saved := w.disk;
    match recorded
    case RecordLost =>
      return PolicyCheckpointLost;
    case NotRecorded =>
      o := RecordPolicyFailure(w, active, startedAt, false, k);
    case TimeRecorded(completed) =>
      if facts.None? {
        o := RecordPolicyFailure(w, active, startedAt, false, k);
      } else {
        o := FinishPolicy(w, completed, facts.value, body);
      }
    KeepsOn(old(w.disk), saved, w.disk);
  }

  datatype Completion = TimeRecorded(cp: Checkpoint) | NotRecorded | RecordLost

  /** The elapsed time of a fetch that has its response becomes durable before anything is written. */
  method RecordCompletion(w: World, active: Checkpoint, startedAt: real, ghost b0: nat) returns (c: Completion)
    requires w.Good() && w.Settled() && OnTime(w.clock, startedAt, b0)
    requires w.disk.durable == Some(active) && Held(w.disk, w.policy, active)
    modifies w`disk, w`history, w`faults, w.clock
    ensures w.Good() && w.Settled() && Onward(w) && OnlySaved(old(w.disk), w.disk)
    ensures |w.clock.readings| == |old(w.clock.readings)| + 1
    ensures var reading := w.clock.readings[|old(w.clock.readings)|];
            && (c.NotRecorded? <==> !Usable(reading, startedAt))
            && (c.TimeRecorded? ==>
                  |w.disk.saves| == |old(w.disk).saves| + 1 &&
                  w.disk.saves[|old(w.disk).saves|].readAt == reading.value)
    ensures c.NotRecorded? ==> w.disk == old(w.disk) && Hitched(w.clock, startedAt)
    ensures c.RecordLost? ==> old(w.faults) < w.faults
    ensures c.TimeRecorded? ==> w.disk.durable == Some(c.cp) && c.cp.id == active.id
    ensures Tail(w.disk.saves, |old(w.disk).saves|, active.budget.elapsed, startedAt)
    ensures |w.disk.saves| <= |old(w.disk).saves| + 1
    ensures !c.RecordLost? ==>
              Held(w.disk, w.policy, active) && TimeKept(w, active, startedAt) && SameSpending(w.disk, active)
  {
    hide Keeps, World.Good, World.Settled, Held, MaySave, Naming;
    KeepsItself(w.disk);
    TailStarts(w.disk.saves, active.budget.elapsed, startedAt);
    var elapsed := Elapsed(w, active, startedAt);
    if elapsed.None? {
      return NotRecorded;
    }
    PolicyElapsedHolds(w.disk, w.policy, active, elapsed.value, w.clock.Last(), w.clock.backward == 0);
    var completed := RecordPolicyElapsed(active, elapsed.value).value;
    var ok := w.SaveCheckpoint(completed);
    assert w.disk.saves != old(w.disk).saves ==> w.disk.saves == old(w.disk).saves + [Save(completed, w.clock.Last())];
    c := if ok then TimeRecorded(completed) else RecordLost;
  }

  /** What one fetch reports, and what it left durable. */
  ghost predicate PolicyReported(o: PolicyOutcome, p: Policy, web: Web, requested: string, depth: nat, base: real,
                                 startedAt: real, d: Disk, from: nat, replies: seq<Reply>, n: nat) {
    && (o.Fetched? ==>
          && Served(p, web, requested, depth, replies, n)
          && o.body == replies[|replies| - 1].response.body && o.sha == Sha256(o.body)
          && o.observation == ObservationUuid(ArtifactUuid(o.sha), SnapshotOf(web, requested, depth, replies, n).value)
          && OutputsDurable(d, o.sha, o.observation)
          && SnapshotOf(web, requested, depth, replies, n).value.requestedUri !in d.journal)
    && (o.RedirectLimit? || o.FetchFailed? || o.Fetched? || o.PolicyCommitInterrupted? ==> d.durable == Some(o.cp))
    && (o.RedirectLimit? ==> n < |replies| && HitsLimit(p, |replies| - n - 1, replies[|replies| - 1].response))
    && (Falls(d.saves, from) <==> Regresses(d.saves, from, base, startedAt))
  }

  predicate LastUsable(readings: seq<Option<real>>, startedAt: real) {
    readings != [] && Usable(readings[|readings| - 1], startedAt)
  }

  /** The redirect limit is reported only if the clock could be used throughout the end of the fetch. */
  predicate LimitInTime(o: PolicyOutcome, readings: seq<Option<real>>, startedAt: real) {
    o.RedirectLimit? ==>
      |readings| >= 2 && Usable(readings[|readings| - 1], startedAt) && Usable(readings[|readings| - 2], startedAt)
  }

  lemma CheckedIsUsable(p: Policy, base: real, startedAt: real, readings: seq<Option<real>>, n: nat)
    requires BudgetChecked(p, base, startedAt, readings, n, 3) && p.maxElapsed.Some?
    ensures LastUsable(readings, startedAt)
  {
    assert Within(p, base, startedAt, readings[n + 2]);
  }

  /** The pass failed, or the redirect limit was hit: the elapsed time is recorded. */
  method StopFetch(w: World, web: Web, last: Checkpoint, limit: bool, requested: string, depth: nat, startedAt: real,
                   ghost b0: nat, ghost from: nat, ghost n: nat)
    returns (o: PolicyOutcome)
    requires w.Good() && w.Settled() && OnTime(w.clock, startedAt, b0)
    requires w.disk.durable == Some(last) && Held(w.disk, w.policy, last)
    requires from <= |w.disk.saves| && Level(w.disk.saves, from, last.budget.elapsed)
    requires limit ==> n < |w.replies| && HitsLimit(w.policy, |w.replies| - n - 1, w.replies[|w.replies| - 1].response)
    requires limit ==> LastUsable(w.clock.readings, startedAt)
    modifies w`disk, w`history, w`faults, w.clock
    ensures w.Good() && w.Settled() && Onward(w) && w.disk.calls == old(w.disk).calls
    ensures o.FetchFailed? || o.RedirectLimit? || o.PolicyCheckpointLost? || o.PolicyRaised?
    ensures o.PolicyCheckpointLost? ==> old(w.faults) < w.faults
    ensures o.PolicyRaised? ==> Hitched(w.clock, startedAt)
    ensures !o.PolicyCheckpointLost? ==> SameSpending(w.disk, last)
    ensures w.faults == old(w.faults) && !Hitched(w.clock, startedAt) ==>
              if limit then o.RedirectLimit? else o.FetchFailed?
    ensures LimitInTime(o, w.clock.readings, startedAt)
    ensures PolicyReported(o, w.policy, web, requested, depth, last.budget.elapsed, startedAt, w.disk, from, w.replies,
                           n)
  {
    hide Keeps, World.Good, World.Settled, Held, Tail, Falls, Regresses, Level, TimedAtLast, HitsLimit;
    ghost var level := w.disk.saves;
    TailStarts(level, last.budget.elapsed, startedAt);
    ghost var was := w.disk;
    o := RecordPolicyFailure(w, last, startedAt, limit, |level|);
    if limit && o.PolicyRaised? {
      // The clock failed while the limit was recorded: the general handler tries once more.
      o := RecordPolicyFailure(w, last, startedAt, false, |level|);
    }
    KeepsReceived(was, w.disk);
    EndOfCall(level, w.disk.saves, from, last.budget.elapsed, startedAt);
  }

  /** The loop has its final response. */
  method ConcludeFetch(w: World, web: Web, last: Checkpoint, requested: string, depth: nat, facts: Option<Facts>,
                       body: Bytes, startedAt: real, ghost b0: nat, ghost from: nat, ghost n: nat)
    returns (o: PolicyOutcome)
    requires w.Good() && w.Settled() && OnTime(w.clock, startedAt, b0)
    requires w.disk.durable == Some(last) && Held(w.disk, w.policy, last)
    requires from <= |w.disk.saves| && Level(w.disk.saves, from, last.budget.elapsed)
    requires n < |w.replies| && facts == SnapshotOf(web, requested, depth, w.replies, n)
    requires body == w.replies[|w.replies| - 1].response.body
    requires facts.Some? ==> Served(w.policy, web, requested, depth, w.replies, n)
    modifies w`disk, w`history, w`faults, w.clock
    ensures w.Good() && w.Settled() && Onward(w) && w.disk.calls == old(w.disk).calls
    ensures !o.PolicyRefused? && !o.RedirectLimit? && (o.Fetched? ==> facts.Some?)
    ensures o.PolicyCheckpointLost? ==> old(w.faults) < w.faults
    ensures o.PolicyCommitInterrupted? ==>
              old(w.faults) < w.faults || (facts.Some? && facts.value.requestedUri in old(w.disk).journal)
    ensures w.faults == old(w.faults) && !Hitched(w.clock, startedAt) ==>
              if facts.Some? then facts.value.requestedUri in old(w.disk).journal || o.Fetched? else o.FetchFailed?
    ensures w.faults == old(w.faults) && facts.None? ==>
              RecordedTwiceFrom(o, w.clock.readings, |old(w.clock.readings)|, w.disk.saves, from, last.budget.elapsed,
                                startedAt)
    ensures o.FetchFailed? || o.PolicyRaised? ==> SameSpending(w.disk, last)
    ensures PolicyReported(o, w.policy, web, requested, depth, last.budget.elapsed, startedAt, w.disk, from, w.replies,
                           n)
  {
    hide Keeps, World.Good, World.Settled, Held, Tail, Falls, Regresses, Level, Served, SnapshotOf, OutputsDurable,
      RecordedTwice;
    ghost var level := w.disk.saves;
    ghost var was := w.disk;
    o := CompletePolicyFetch(w, last, facts, body, startedAt, b0, |level|);
    KeepsReceived(was, w.disk);
    EndOfCall(level, w.disk.saves, from, last.budget.elapsed, startedAt);
  }

  /**
   The final response of a trail of redirects: concluded if the snapshot can be marked, and a cause of failure if not.
   */
  method ConcludeTrail(w: World, web: Web, last: Checkpoint, requested: string, depth: nat, uri: string,
                       chain: seq<string>, response: Response, startedAt: real, ghost b0: nat, ghost from: nat,
                       ghost before: seq<Reply>, ghost n: nat, ghost a: nat)
    returns (o: PolicyOutcome)
    requires w.Good() && w.Settled() && OnTime(w.clock, startedAt, b0)
    requires w.disk.durable == Some(last) && Held(w.disk, w.policy, last)
    requires from <= |w.disk.saves| && Level(w.disk.saves, from, last.budget.elapsed)
    requires Trail(before, n, requested, chain, uri) && |w.answers| == a + |chain| + 1
    requires |w.replies| == |before| + 1 && before <= w.replies && w.replies[|before|].uri == uri
    requires w.replies[|before|].response == response && Rule(w.policy, web, uri, |chain|, response).Ends?
    modifies w`disk, w`history, w`faults, w.clock
    ensures w.Good() && w.Settled() && Onward(w) && w.disk.calls == old(w.disk).calls
    ensures !o.PolicyRefused? && !o.RedirectLimit?
    ensures o.PolicyCheckpointLost? ==> old(w.faults) < w.faults
    ensures o.PolicyCommitInterrupted? && w.faults == old(w.faults) ==>
              Served(w.policy, web, requested, depth, w.replies, n) &&
              SnapshotOf(web, requested, depth, w.replies, n).value.requestedUri in old(w.disk).journal
    ensures w.faults == old(w.faults) && !Hitched(w.clock, startedAt) ==>
              if Served(w.policy, web, requested, depth, w.replies, n)
              then o.Fetched? ||
              SnapshotOf(web, requested, depth, w.replies, n).value.requestedUri in old(w.disk).journal
              else o.FetchFailed?
    ensures w.faults == old(w.faults) && Unmarkable(w.policy, web, requested, depth, w.replies, n) ==>
              RecordedTwiceFrom(o, w.clock.readings, |old(w.clock.readings)|, w.disk.saves, from, last.budget.elapsed,
                                startedAt)
    ensures w.faults == old(w.faults) && !Served(w.policy, web, requested, depth, w.replies, n) ==>
              && w.disk.durable.Some? && !o.Fetched?
              && Stopped(w.policy, web, requested, depth, w.disk.durable.value.budget.(elapsed := last.budget.elapsed),
                         w.replies, n, w.answers, a)
    ensures PolicyReported(o, w.policy, web, requested, depth, last.budget.elapsed, startedAt, w.disk, from, w.replies,
                           n)
  {
    hide Keeps, World.Good, World.Settled, Held, Level, Trail, Served, Unmarkable, Stopped, SnapshotOf, Rule,
      PolicyReported, RecordedTwiceFrom;
    var facts := web.snapshot(requested, uri, response.status, response.headers, chain, depth);
    FinalIsServed(w.policy, web, requested, depth, last.budget, uri, chain, before, w.replies, n, w.answers, a);
    o := ConcludeFetch(w, web, last, requested, depth, facts, response.body, startedAt, b0, from, n);
  }

  /** A pass that did not send the loop on ends the fetch. */
  method EndFetch(w: World, web: Web, hop: PolicyHop, requested: string, depth: nat, uri: string, chain: seq<string>,
                  startedAt: real, ghost b0: nat, ghost base: real, ghost from: nat, ghost before: seq<Reply>,
                  ghost n: nat, ghost a: nat)
    returns (o: PolicyOutcome)
    requires w.Good() && w.Settled() && OnTime(w.clock, startedAt, b0) && !hop.PolicyFollow?
    requires from <= |w.disk.saves| && Level(w.disk.saves, from, base)
    requires Trail(before, n, requested, chain, uri) && SentOn(w.policy, web, before, n)
    requires before <= w.replies && |w.answers| >= a + |chain|
    requires !hop.PolicyHopLost? ==>
               && w.disk.durable == Some(hop.active) && Held(w.disk, w.policy, hop.active) &&
                  hop.active.budget.elapsed == base
    requires hop.PolicyFinal? || hop.PolicyLimit? ==>
               && |w.replies| == |before| + 1 && |w.answers| == a + |chain| + 1 && w.replies[|before|].uri == uri
               && (hop.PolicyLimit? ==> HitsLimit(w.policy, |chain|, w.replies[|before|].response))
               && (hop.PolicyFinal? ==>
                     hop.response == w.replies[|before|].response &&
                     Rule(w.policy, web, uri, |chain|, hop.response).Ends?)
    requires hop.PolicyLimit? ==> LastUsable(w.clock.readings, startedAt)
    modifies w`disk, w`history, w`faults, w.clock
    ensures w.Good() && w.Settled() && Onward(w) && w.disk.calls == old(w.disk).calls && !o.PolicyRefused?
    ensures o.PolicyCheckpointLost? ==> old(w.faults) < w.faults || hop.PolicyHopLost?
    ensures o.PolicyCommitInterrupted? && w.faults == old(w.faults) ==>
              Served(w.policy, web, requested, depth, w.replies, n) &&
              SnapshotOf(web, requested, depth, w.replies, n).value.requestedUri in old(w.disk).journal
    ensures EndsWell(w.policy, web, hop, uri, depth, chain, w.replies, before, w.answers, a) &&
            w.faults == old(w.faults) ==>
              if Served(w.policy, web, requested, depth, w.replies, n)
              then Hitched(w.clock, startedAt) || o.Fetched? ||
                   SnapshotOf(web, requested, depth, w.replies, n).value.requestedUri in old(w.disk).journal
              else && (Hitched(w.clock, startedAt) ||
                       (if EndsAtLimit(w.policy, w.replies, n) then o.RedirectLimit? else o.FetchFailed?))
                   && w.disk.durable.Some? && !o.Fetched?
                   && Stopped(w.policy, web, requested, depth, w.disk.durable.value.budget.(elapsed := base),
                              w.replies, n, w.answers, a)
    ensures EndsWell(w.policy, web, hop, uri, depth, chain, w.replies, before, w.answers, a) &&
            w.faults == old(w.faults) &&
            Unmarkable(w.policy, web, requested, depth, w.replies, n) ==>
              RecordedTwiceFrom(o, w.clock.readings, |old(w.clock.readings)|, w.disk.saves, from, base, startedAt)
    ensures LimitInTime(o, w.clock.readings, startedAt)
    ensures PolicyReported(o, w.policy, web, requested, depth, base, startedAt, w.disk, from, w.replies, n)
  {
    hide Keeps, World.Good, World.Settled, Held, Level, Trail, Served, Unmarkable, Stopped, SnapshotOf, Rule,
      PolicyReported, HopStopped, SentOn, HitsLimit, Budget.AllowsRequest, RecordedTwiceFrom;
    KeepsItself(w.disk);
    if EndsWell(w.policy, web, hop, uri, depth, chain, w.replies, before, w.answers, a) && !hop.PolicyFinal? {
      HopStoppedIsStopped(w.policy, web, requested, depth, hop.active.budget, uri, chain, before, w.replies, n,
                          w.answers, a);
    }
    if EndsWell(w.policy, web, hop, uri, depth, chain, w.replies, before, w.answers, a) {
      LimitAtEnd(w.policy, web, hop, uri, depth, chain, requested, w.replies, before, w.answers, n, a);
    }
    match hop
    case PolicyHopLost =>
      LostFetchIsReported(w.policy, web, requested, depth, base, startedAt, w.disk, from, w.replies, n);
      o := PolicyCheckpointLost;
    case PolicyHopFailed(last) =>
      o := StopFetch(w, web, last, false, requested, depth, startedAt, b0, from, n);
    case PolicyLimit(last) =>
      TrailGrows(before, n, requested, chain, uri, w.replies[|before|], uri);
      assert w.replies == before + [w.replies[|before|]];
      o := StopFetch(w, web, last, true, requested, depth, startedAt, b0, from, n);
    case PolicyFinal(last, response) =>
      o := ConcludeTrail(w, web, last, requested, depth, uri, chain, response, startedAt, b0, from, before, n, a);
  }

  /** The pass had a final response, or stopped for a cause on record. */
  ghost predicate EndsWell(p: Policy, web: Web, hop: PolicyHop, uri: string, depth: nat, chain: seq<string>,
                           replies: seq<Reply>, before: seq<Reply>, answers: seq<Answer>, a: nat) {
    || hop.PolicyFinal?
    || ((hop.PolicyHopFailed? || hop.PolicyLimit?) &&
        HopStopped(p, web, uri, |chain|, depth, hop.active.budget, replies, |before|, answers, a + |chain|) &&
        (hop.PolicyHopFailed? && |before| < |replies| ==> !HitsLimit(p, |chain|, replies[|before|].response)))
  }

  /** The last reply is at the limit exactly if the pass said so. */
  lemma LimitAtEnd(p: Policy, web: Web, hop: PolicyHop, uri: string, depth: nat, chain: seq<string>, requested: string,
                   replies: seq<Reply>, before: seq<Reply>, answers: seq<Answer>, n: nat, a: nat)
    requires Trail(before, n, requested, chain, uri) && SentOn(p, web, before, n) && before <= replies
    requires EndsWell(p, web, hop, uri, depth, chain, replies, before, answers, a)
    requires hop.PolicyFinal? || hop.PolicyLimit? ==>
               && |replies| == |before| + 1
               && (hop.PolicyLimit? ==> HitsLimit(p, |chain|, replies[|before|].response))
               && (hop.PolicyFinal? ==> Rule(p, web, uri, |chain|, replies[|before|].response).Ends?)
    ensures EndsAtLimit(p, replies, n) <==> hop.PolicyLimit?
  {
    hide Rule, HitsLimit, SentOn;
    assert |before| == n + |chain| by {
      assert |Uris(before[n..]) + [uri]| == |[requested] + chain|;
    }
    if |replies| == |before| {
      assert replies == before;
      SentOnIsNoLimit(p, web, before, n);
    } else {
      EndsOrBouncesIsNoLimit(p, web, uri, |chain|, replies[|before|].response);
    }
  }

  // ----- the loop

  /**
   Nothing the policy fetch may use: the snapshot must carry the normalized URI, or the marker's constructor raises.
   */
  function Checked(web: Web): Web {
    web.(snapshot :=
         (requested: string, uri: string, status: int, headers: seq<(string, string)>, chain: seq<string>,
          depth: nat) =>
           var facts := web.snapshot(requested, uri, status, headers, chain, depth);
           if facts.Some? && web.normalize(requested) == Some(facts.value.requestedUri) then facts else None)
  }

  /** With it, a reply serves the resource only if its snapshot also names the URI as the normalization spells it. */
  lemma CheckedServed(p: Policy, web: Web, requested: string, depth: nat, replies: seq<Reply>, n: nat)
    ensures Served(p, Checked(web), requested, depth, replies, n) <==>
            && Served(p, web, requested, depth, replies, n)
            && web.normalize(requested) == Some(SnapshotOf(web, requested, depth, replies, n).value.requestedUri)
    ensures Served(p, Checked(web), requested, depth, replies, n) ==>
              SnapshotOf(Checked(web), requested, depth, replies, n) == SnapshotOf(web, requested, depth, replies, n)
  {
    hide HitsLimit;
  }

  lemma CheckedRedirects(p: Policy, web: Web, requested: string, replies: seq<Reply>, n: nat)
    ensures Redirected(p, Checked(web), requested, replies, n) <==> Redirected(p, web, requested, replies, n)
  {
    assert forall r: Reply, next: string :: SentTo(p, Checked(web), r, next) <==> SentTo(p, web, r, next);
  }

  /** The loop of `fetch`. */
  method FollowPolicyRedirects(w: World, web: Web, active0: Checkpoint, depth: nat, requested: Uri, startedAt: real,
                               ghost b0: nat, ghost from: nat)
    returns (o: PolicyOutcome)
    requires w.policy.Valid() && w.Good() && w.Settled() && OnTime(w.clock, startedAt, b0) &&
             w.policy.allowsUri(requested)
    requires w.disk.durable == Some(active0) && Held(w.disk, w.policy, active0) &&
             w.disk.calls < active0.budget.requests
    requires from <= |w.disk.saves| && Level(w.disk.saves, from, active0.budget.elapsed)
    requires LastUsable(w.clock.readings, startedAt)
    modifies w, w.clock
    ensures w.Good() && w.Settled() && Onward(w) && !o.PolicyRefused?
    ensures w.disk.calls <= old(w.disk).calls + w.policy.maxRedirects + 1
    ensures Redirected(w.policy, web, requested, w.replies, |old(w.replies)|)
    ensures LimitInTime(o, w.clock.readings, startedAt)
    ensures PolicyReported(o, w.policy, web, requested, depth, active0.budget.elapsed, startedAt, w.disk, from,
                           w.replies, |old(w.replies)|)
    ensures o.PolicyCheckpointLost? ==> old(w.faults) < w.faults
    ensures o.PolicyCommitInterrupted? && w.faults == old(w.faults) ==>
              Served(w.policy, web, requested, depth, w.replies, |old(w.replies)|) &&
              SnapshotOf(web, requested, depth, w.replies, |old(w.replies)|).value.requestedUri in old(w.disk).journal
    ensures Undisturbed(w, active0.budget.elapsed, startedAt, b0) ==>
              || Served(w.policy, web, requested, depth, w.replies, |old(w.replies)|)
              || (w.disk.durable.Some? && !o.Fetched? &&
                  Stopped(w.policy, web, requested, depth,
                          w.disk.durable.value.budget.(elapsed := active0.budget.elapsed), w.replies, |old(w.replies)|,
                          w.answers, |old(w.answers)|))
    ensures Calm(w, active0.budget.elapsed, startedAt, b0) ==>
              if Served(w.policy, web, requested, depth, w.replies, |old(w.replies)|)
              then o.Fetched? ||
              SnapshotOf(web, requested, depth, w.replies, |old(w.replies)|).value.requestedUri in old(w.disk).journal
              else if EndsAtLimit(w.policy, w.replies, |old(w.replies)|) then o.RedirectLimit?
              else o.FetchFailed?
    ensures w.faults == old(w.faults) && w.policy.maxElapsed.None? &&
            Unmarkable(w.policy, web, requested, depth, w.replies, |old(w.replies)|) ==>
              RecordedTwiceFrom(o, w.clock.readings, |old(w.clock.readings)|, w.disk.saves, from,
                                active0.budget.elapsed, startedAt)
  {
    hide BudgetChecked, Pinned, Reaches, Redirected, RedirectedTo, EndsAtLimit;
    hide Keeps, World.Good, World.Settled, Held, Trail, Served, Unmarkable, RecordedTwiceFrom, Stopped, SnapshotOf,
      SentOn, HopStopped, Rule, HitsLimit, PolicyReported, Budget.AllowsRequest, Level, FirstAllowed;
    var active, uri: string, chain: seq<string> := active0, requested, [];
    KeepsItself(w.disk);
    TrailStarts(w.replies, requested);
    RedirectedStarts(w.policy, web, requested, w.replies);
    SentOnStarts(w.policy, web, w.replies);
    while true
      invariant w.Good() && w.Settled() && Onward(w) && OnTime(w.clock, startedAt, b0) && w.policy.allowsUri(uri)
      invariant w.disk.durable == Some(active) && Held(w.disk, w.policy, active) &&
                w.disk.journal == old(w.disk).journal
      invariant w.disk.calls < active.budget.requests && active.budget.elapsed == active0.budget.elapsed
      invariant |chain| <= w.policy.maxRedirects && w.disk.calls <= old(w.disk).calls + |chain|
      invariant from <= |w.disk.saves| && Level(w.disk.saves, from, active0.budget.elapsed)
      invariant w.policy.maxElapsed.None? ==> w.clock.readings == old(w.clock.readings)
      invariant SentOn(w.policy, web, w.replies, |old(w.replies)|)
      invariant RedirectedTo(w.policy, web, requested, w.replies, |old(w.replies)|, uri)
      invariant Trail(w.replies, |old(w.replies)|, requested, chain, uri) && |w.answers| == |old(w.answers)| + |chain|
      decreases w.policy.maxRedirects - |chain|
    {
      ghost var before, was, read := w.replies, w.disk, |w.clock.readings|;
      var hop := OnePolicyHop(w, web, active, depth, uri, |chain|, startedAt, b0);
      KeepsOn(old(w.disk), was, w.disk);
      KeepsReceived(was, w.disk);
      KeepsReceived(old(w.disk), was);
      ghost var hopped := w.disk;
      LevelJoins(was.saves, w.disk.saves, from, active0.budget.elapsed);
      if hop.PolicyFollow? {
        TrailGoesOn(w.policy, web, requested, before, w.replies, |old(w.replies)|, chain, uri, hop.next);
        active, uri, chain := hop.active, hop.next, chain + [hop.next];
      } else {
        RedirectedGrows(w.policy, web, requested, before, w.replies, |old(w.replies)|, uri);
        if hop.PolicyLimit? && w.policy.maxElapsed.Some? {
          CheckedIsUsable(w.policy, active.budget.elapsed, startedAt, w.clock.readings, read);
        }
        o := EndFetch(w, web, hop, requested, depth, uri, chain, startedAt, b0, active0.budget.elapsed, from, before,
                      |old(w.replies)|, |old(w.answers)|);
        KeepsOn(old(w.disk), hopped, w.disk);
        return;
      }
    }
  }

  lemma LostFetchIsReported(p: Policy, web: Web, requested: string, depth: nat, base: real, startedAt: real, d: Disk,
                            from: nat, replies: seq<Reply>, n: nat)
    requires from <= |d.saves| && Level(d.saves, from, base)
    ensures PolicyReported(PolicyCheckpointLost, p, web, requested, depth, base, startedAt, d, from, replies, n)
  {
    hide Tail, Falls, Regresses;
    TailStarts(d.saves, base, startedAt);
    EndOfCall(d.saves, d.saves, from, base, startedAt);
  }

  // ----- the fetch

  /** The calls `fetch` refuses before it does anything; a pending marker is never refused. */
  predicate RefusesFetch(d: Disk, p: Policy, web: Web, cp: Checkpoint, uri: string, depth: nat, since: Option<real>) {
    var normalized := web.normalize(uri);
    || normalized.None? || !p.allowsUri(normalized.value)
    || (normalized.value !in d.journal && BeginPolicyRequest(cp, p, depth, 0, since).Err?)
  }

  /** What a fetch owes when nothing fails; `Progress` of an acquisition, with a marker in place of a target. */
  twostate predicate PolicyProgress(w: World, web: Web, o: PolicyOutcome, requested: string, depth: nat, base: real,
                                    startedAt: real)
    reads w, w.clock
  {
    var n, a := |old(w.replies)|, |old(w.answers)|;
    var served := Served(w.policy, web, requested, depth, w.replies, n);
    && (Undisturbed(w, base, startedAt, old(w.clock.backward)) ==>
          || served
          || (w.disk.durable.Some? && !o.Fetched? &&
              Stopped(w.policy, web, requested, depth, w.disk.durable.value.budget.(elapsed := base), w.replies, n,
                      w.answers, a)))
    && (Calm(w, base, startedAt, old(w.clock.backward)) ==>
          if served then o.Fetched? ||
             SnapshotOf(web, requested, depth, w.replies, n).value.requestedUri in old(w.disk).journal
          else if EndsAtLimit(w.policy, w.replies, n) then o.RedirectLimit?
          else o.FetchFailed?)
    && (w.faults == old(w.faults) && w.policy.maxElapsed.None? &&
        Unmarkable(w.policy, web, requested, depth, w.replies, n) ==>
          RecordedTwiceFrom(o, w.clock.readings, |old(w.clock.readings)| + 1, w.disk.saves, |old(w.disk).saves|, base,
                            startedAt))
    && (o.PolicyCheckpointLost? ==> old(w.faults) < w.faults)
    && (o.PolicyCommitInterrupted? && w.faults == old(w.faults) ==>
          served && SnapshotOf(web, requested, depth, w.replies, n).value.requestedUri in old(w.disk).journal)
  }

  /** `fetch`: a pending marker is recovered without network or clock; otherwise every request is charged first. */
  method Fetch(w: World, web: Web, checkpoint: Checkpoint, uri: string, depth: nat, since: Option<real>)
    returns (o: PolicyOutcome)
    requires w.policy.Valid() && w.Good() && w.Settled() && w.disk.durable == Some(checkpoint)
    modifies w, w.clock
    ensures w.Good() && w.Settled() && Onward(w)
    ensures w.disk.calls <= old(w.disk).calls + w.policy.maxRedirects + 1
    ensures o.PolicyRefused? ==> RefusesFetch(old(w.disk), w.policy, web, checkpoint, uri, depth, since)
    ensures RefusesFetch(old(w.disk), w.policy, web, checkpoint, uri, depth, since) && w.faults == old(w.faults) ==>
              o.PolicyRefused?
    ensures web.normalize(uri).None? || !w.policy.allowsUri(web.normalize(uri).value) ==> o.PolicyRefused?
    ensures o.PolicyRefused? ==> w.disk == old(w.disk) && w.clock.readings == old(w.clock.readings)
    ensures !o.PolicyRefused? && web.normalize(uri).value in old(w.disk).journal ==>
              && w.disk.calls == old(w.disk).calls && w.disk.durable == old(w.disk).durable &&
                 w.disk.saves == old(w.disk).saves
              && w.replies == old(w.replies) && w.clock.readings == old(w.clock.readings)
              && var m := old(w.disk).journal[web.normalize(uri).value];
                 && (o.Fetched? || o.PolicyCommitInterrupted? || (o.PolicyRaised? && old(w.faults) < w.faults))
                 && (!o.PolicyRaised? ==> o.cp == checkpoint)
                 && (o.Fetched? ==> && m.sha in old(w.disk).artifacts && Sha256(o.body) == m.sha && o.sha == m.sha
                                    && o.observation == m.observation && OutputsDurable(w.disk, m.sha, m.observation)
                                    && m.requestedUri !in w.disk.journal)
                 && (m.sha !in old(w.disk).artifacts ==> !o.Fetched? && w.disk == old(w.disk))
                 && (m.sha in old(w.disk).artifacts && w.faults == old(w.faults) ==>
                       o.Fetched? && w.disk == Committed(old(w.disk), m))
    ensures !o.PolicyRefused? && web.normalize(uri).value !in old(w.disk).journal &&
            !StartRead(w.clock.readings, |old(w.clock.readings)|) ==>
              && (o.PolicyCheckpointLost? || o.PolicyRaised?)
              && (o.PolicyCheckpointLost? ==> old(w.faults) < w.faults)
              && (o.PolicyRaised? ==>
                    || old(w.faults) < w.faults
                    || (|old(w.clock.readings)| < |w.clock.readings| && old(w.clock.unusable) < w.clock.unusable))
              && !Falls(w.disk.saves, |old(w.disk).saves|)
    ensures !o.PolicyRefused? && web.normalize(uri).value !in old(w.disk).journal &&
            StartRead(w.clock.readings, |old(w.clock.readings)|) ==>
              var startedAt := w.clock.readings[|old(w.clock.readings)|].value;
              && Redirected(w.policy, web, web.normalize(uri).value, w.replies, |old(w.replies)|)
              && LimitInTime(o, w.clock.readings, startedAt)
              && PolicyReported(o, w.policy, Checked(web), web.normalize(uri).value, depth, checkpoint.budget.elapsed,
                                startedAt, w.disk, |old(w.disk).saves|, w.replies, |old(w.replies)|)
              && PolicyProgress(w, Checked(web), o, web.normalize(uri).value, depth, checkpoint.budget.elapsed,
                                startedAt)
  {
    hide Keeps, World.Good, World.Settled, TargetsSafe, Held, PolicyReported, Falls, Charged, Checked, Served, Stopped,
      Unmarkable, RecordedTwiceFrom, SnapshotOf, InTime,
      OutputsDurable, BeginPolicyRequest, Budget.AllowsRequest;
    KeepsItself(w.disk);
    var normalized := web.normalize(uri);
    if normalized.None? || !w.policy.allowsUri(normalized.value) {
      return PolicyRefused;
    }
    var pending := w.GetMarker(normalized.value);
    if pending.None? {
      StartIsLevel(w.disk.saves, w.disk.saves, checkpoint);
      return PolicyRaised;
    }
    if pending.value.Some? {
      w.JournalIsKeyed(normalized.value);
      o := RecoverPolicyResult(w, checkpoint, pending.value.value);
      return;
    }
    DurableIsHeld(w);
    HeldIs(w.disk, w.policy, checkpoint);
    var begun := BeginPolicyRequest(checkpoint, w.policy, depth, 0, since);
    if begun.Err? {
      return PolicyRefused;
    }
    PolicyChargeHolds(w.disk, w.policy, checkpoint, depth, since);
    o := BeginAndFollow(w, Checked(web), begun.value, depth, normalized.value);
    CheckedRedirects(w.policy, web, normalized.value, w.replies, |old(w.replies)|);
  }

  lemma HeldIs(d: Disk, p: Policy, cp: Checkpoint)
    requires TargetsSafe(d, cp.targets) && Charged(d, p, cp)
    ensures Held(d, p, cp)
  {
  }

  /** The charged checkpoint is durable, then the clock is read, then the loop runs. */
  method BeginAndFollow(w: World, web: Web, active: Checkpoint, depth: nat, requested: Uri) returns (o: PolicyOutcome)
    requires w.policy.Valid() && w.Good() && w.Settled() && w.disk.durable.Some? && w.policy.allowsUri(requested)
    requires Held(w.disk, w.policy, active) && w.disk.calls < active.budget.requests
    requires active.budget.bytes == w.disk.durable.value.budget.bytes && active.budget.elapsed == Recorded(w.disk)
    modifies w, w.clock
    ensures w.Good() && w.Settled() && Onward(w) && !o.PolicyRefused?
    ensures w.disk.calls <= old(w.disk).calls + w.policy.maxRedirects + 1
    ensures !StartRead(w.clock.readings, |old(w.clock.readings)|) ==>
              && (o.PolicyCheckpointLost? || o.PolicyRaised?)
              && (o.PolicyCheckpointLost? ==> old(w.faults) < w.faults)
              && (o.PolicyRaised? ==>
                    |old(w.clock.readings)| < |w.clock.readings| && old(w.clock.unusable) < w.clock.unusable)
              && !Falls(w.disk.saves, |old(w.disk).saves|)
    ensures StartRead(w.clock.readings, |old(w.clock.readings)|) ==>
              var startedAt := w.clock.readings[|old(w.clock.readings)|].value;
              && Redirected(w.policy, web, requested, w.replies, |old(w.replies)|)
              && LimitInTime(o, w.clock.readings, startedAt)
              && PolicyReported(o, w.policy, web, requested, depth, active.budget.elapsed, startedAt,
                                w.disk, |old(w.disk).saves|, w.replies, |old(w.replies)|)
              && PolicyProgress(w, web, o, requested, depth, active.budget.elapsed, startedAt)
  {
    hide Keeps, World.Good, World.Settled, Held, PolicyReported, Served, Unmarkable, RecordedTwiceFrom, Stopped,
      SnapshotOf, Level, Falls;
    KeepsItself(w.disk);
    SettledSlack(w, active);
    var ok := SaveHeld(w, active);
    StartIsLevel(old(w.disk).saves, w.disk.saves, active);
    if !ok {
      return PolicyCheckpointLost;
    }
    var clock := w.ReadClock();
    if clock.None? {
      return PolicyRaised;
    }
    ghost var was := w.disk;
    o := FollowPolicyRedirects(w, web, active, depth, requested, clock.value, w.clock.backward, |old(w.disk).saves|);
    KeepsOn(old(w.disk), was, w.disk);
    KeepsReceived(old(w.disk), was);
  }
}
