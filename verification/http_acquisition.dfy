/**
 Bounded HTTP acquisition (src/tarkka/application/http_acquisition.py).
 The checkpoint passed in is the durable one, as its single writer's callers resume from it.
 */
module HttpAcquisition {
  import opened Wrappers
  import opened PythonText
  import opened Identities
  import opened TraversalCheckpoints
  import opened TraversalRuns
  import opened DurableStores
  import opened HttpExchange
  import opened ElapsedTime

  datatype Outcome =
    | Acquired(cp: Checkpoint, sha: Sha, observation: Uuid)
    | Refused
    | CheckpointLost
    | CommitInterrupted(cp: Checkpoint)
    | AcquisitionFailed(cp: Checkpoint)
    | Raised

  // ----- checkpoints in hand

  /** A checkpoint in hand that may be saved, with its target in the given status. */
  ghost predicate Holds(d: Disk, p: Policy, cp: Checkpoint, id: Uuid, status: Status) {
    && TargetsSafe(d, cp.targets)
    && Charged(d, p, cp)
    && FindIn(cp.targets, id).Some? && FindIn(cp.targets, id).value.status == status
  }

  /** A transition of the target that leaves requests alone, or charges one more. */
  lemma MoveHolds(d: Disk, p: Policy, cp: Checkpoint, op: Op)
    requires TargetsSafe(d, cp.targets) && Charged(d, p, cp)
    requires MovesTarget(op) && !op.DoCompleteFinalization? && Step(cp, p, op).Ok?
    requires op.DoBeginFinalization? ==> WellNamed(op.sha, op.observation)
    requires Step(cp, p, op).value.budget.bytes <= p.maxBytes && Step(cp, p, op).value.budget.bytes <= d.received
    ensures var next := Step(cp, p, op).value;
            && FindIn(cp.targets, op.id).Some?
            && Holds(d, p, next, op.id, Moved(FindIn(cp.targets, op.id).value, op).status)
            && FindIn(next.targets, op.id) == Some(Moved(FindIn(cp.targets, op.id).value, op))
  {
    hide Step, TargetsSafe, Accounted;
    MoveIsSafe(d, cp, p, op);
    StepMoves(cp, p, op);
    StepKeepsAccounted(cp, p, op);
    MovedCounts(FindIn(cp.targets, op.id).value, op);
  }

  lemma MovedCounts(t: Target, op: Op)
    ensures t.attempts <= Moved(t, op).attempts && t.bytes <= Moved(t, op).bytes
  {
  }

  lemma HoldsMaySave(d: Disk, p: Policy, cp: Checkpoint, id: Uuid, status: Status, at: real, steady: bool)
    requires Holds(d, p, cp, id, status) && (steady ==> Recorded(d) <= cp.budget.elapsed)
    ensures MaySave(d, p, cp, steady)
    ensures Holds(Saved(d, cp, at), p, cp, id, status)
  {
    hide FindIn, TargetsSafe, Accounted;
    SavedKeepsTargets(d, cp, at);
  }

  /** Storing and receiving more keeps a checkpoint in hand fit for saving. */
  lemma StoringKeepsHolds(before: Disk, after: Disk, p: Policy, cp: Checkpoint, id: Uuid, status: Status)
    requires Holds(before, p, cp, id, status) && Keeps(before, after)
    requires after.calls <= cp.budget.requests && Spent(after) <= cp.budget.bytes
    ensures Holds(after, p, cp, id, status)
  {
    hide TargetsSafe, FindIn, Accounted, Keeps;
    KeepsTargetsSafe(before, after, cp.targets);
    assert before.received <= after.received by {
      KeepsReceived(before, after);
    }
  }

  // ----- one pass of the loop

  ghost predicate DepthIs(cp: Checkpoint, id: Uuid, depth: nat) {
    FindIn(cp.targets, id).Some? && FindIn(cp.targets, id).value.depth == depth
  }

  lemma {:induction false} StartHolds(d: Disk, p: Policy, cp: Checkpoint, id: Uuid, since: Option<real>)
    requires TargetsSafe(d, cp.targets) && Charged(d, p, cp) && Start(cp, id, p, since).Ok?
    ensures FindIn(cp.targets, id).Some?
    ensures var next := Start(cp, id, p, since).value;
            && Holds(d, p, next, id, InProgress) && d.calls < next.budget.requests
            && next.budget == cp.budget.(requests := cp.budget.requests + 1)
            && DepthIs(next, id, FindIn(cp.targets, id).value.depth)
  {
    hide TargetsSafe, FindIn, ReplaceIn, Accounted;
    StartCharges(cp, p, id, since);
    MoveHolds(d, p, cp, DoStart(id, since));
  }

  lemma StartCharges(cp: Checkpoint, p: Policy, id: Uuid, since: Option<real>)
    requires Start(cp, id, p, since).Ok?
    ensures var next := Start(cp, id, p, since).value;
            next.budget == cp.budget.(requests := cp.budget.requests + 1) && cp.budget.requests < p.maxRequests
  {
    hide FindIn, ReplaceIn;
  }

  lemma BytesHold(d: Disk, p: Policy, cp: Checkpoint, id: Uuid, depth: nat, bytes: nat)
    requires Holds(d, p, cp, id, InProgress) && DepthIs(cp, id, depth)
    requires cp.budget.bytes + bytes <= p.maxBytes && cp.budget.bytes + bytes <= d.received
    ensures RecordBytes(cp, id, bytes).Ok?
    ensures var next := RecordBytes(cp, id, bytes).value;
            && Holds(d, p, next, id, InProgress) && DepthIs(next, id, depth)
            && next.budget == cp.budget.(bytes := cp.budget.bytes + bytes)
  {
    hide TargetsSafe, FindIn, ReplaceIn, Accounted;
    MoveHolds(d, p, cp, DoBytes(id, bytes));
  }

  lemma FollowupHolds(d: Disk, p: Policy, cp: Checkpoint, id: Uuid, depth: nat, since: Option<real>)
    requires Holds(d, p, cp, id, InProgress) && DepthIs(cp, id, depth)
    ensures RecordFollowup(cp, id, p, 0, since).Ok? <==> cp.budget.AllowsRequest(p, depth, 0, since) == Ok(true)
    ensures RecordFollowup(cp, id, p, 0, since).Ok? ==>
              var next := RecordFollowup(cp, id, p, 0, since).value;
              && Holds(d, p, next, id, InProgress) && DepthIs(next, id, depth) && d.calls < next.budget.requests
              && next.budget == cp.budget.(requests := cp.budget.requests + 1)
  {
    hide TargetSafe, FindIn, Accounted;
    if RecordFollowup(cp, id, p, 0, since).Ok? {
      StepKeepsAccounted(cp, p, DoFollowup(id, 0, since));
    }
  }

  /** What one pass of the loop decides. */
  datatype Hop = Follow(active: Checkpoint, next: string) | Final(active: Checkpoint, response: Response)
               | HopFailed(active: Checkpoint) | HopLost

  /** One pass: request, account, and either finish, fail, or charge the next hop. */
  method OneHop(w: World, web: Web, active0: Checkpoint, id: Uuid, depth: nat, uri: string, redirects: nat,
                startedAt: real, ghost b0: nat)
    returns (hop: Hop)
    requires w.policy.Valid() && w.Good() && w.Settled() && OnTime(w.clock, startedAt, b0)
    requires w.disk.durable == Some(active0) && Holds(w.disk, w.policy, active0, id, InProgress) &&
             DepthIs(active0, id, depth)
    requires w.disk.calls < active0.budget.requests && w.policy.allowsUri(uri)
    modifies w, w.clock
    ensures w.Good() && w.Settled() && Onward(w) && OnTime(w.clock, startedAt, b0) &&
            w.disk.calls <= old(w.disk).calls + 1
    ensures Level(w.disk.saves, |old(w.disk).saves|, active0.budget.elapsed)
    ensures w.faults == old(w.faults) + (if hop.HopLost? then 1 else 0) ||
            (hop.HopFailed? && !w.reliable && old(w.faults) < w.faults)
    ensures !hop.HopLost? ==>
              && w.disk.durable == Some(hop.active) && Holds(w.disk, w.policy, hop.active, id, InProgress)
              && DepthIs(hop.active, id, depth) && hop.active.budget.elapsed == active0.budget.elapsed
    ensures Pinned(w.policy, web, uri, w.answers, |old(w.answers)|, w.replies, |old(w.replies)|)
    ensures !hop.HopFailed? ==>
              |w.replies| == |old(w.replies)| + 1 &&
              w.disk.received == old(w.disk).received + |w.replies[|old(w.replies)|].response.body|
    ensures |w.replies| <= |old(w.replies)| + 1
    ensures |w.replies| > |old(w.replies)| ==> w.replies[|old(w.replies)|].uri == uri
    ensures FirstPass(w, web, active0, id, uri, w.replies, |old(w.replies)|, old(w.disk).received, w.disk, hop.HopLost?)
    ensures hop.Final? ==>
              BudgetChecked(w.policy, active0.budget.elapsed, startedAt, w.clock.readings, |old(w.clock.readings)|, 3)
    ensures hop.Follow? ==>
              BudgetChecked(w.policy, active0.budget.elapsed, startedAt, w.clock.readings, |old(w.clock.readings)|, 5)
    ensures hop.Final? || hop.Follow? ==>
              && |w.replies| == |old(w.replies)| + 1 && |w.answers| == |old(w.answers)| + 1
              && var reply := w.replies[|old(w.replies)|];
                 && reply.uri == uri
                 && hop.active.budget.bytes == active0.budget.bytes + |reply.response.body|
                 && (hop.Final? ==>
                       hop.response == reply.response && Rule(w.policy, web, uri, redirects, hop.response).Ends?)
                 && (hop.Follow? ==> Rule(w.policy, web, uri, redirects, reply.response) == Bounces(hop.next))
    ensures hop.Follow? ==> w.disk.calls < hop.active.budget.requests
    ensures Undisturbed(w, active0.budget.elapsed, startedAt, b0) ==>
              && !hop.HopLost?
              && (hop.HopFailed? ==> HopStopped(w.policy, web, uri, redirects, depth, hop.active.budget,
                                                w.replies, |old(w.replies)|, w.answers, |old(w.answers)|))
    ensures w.policy.maxElapsed.None? ==> w.clock.readings == old(w.clock.readings)
  {
    hide World.Good, Holds, DepthIs, Keeps, BudgetChecked, Pinned, Reaches, AccountFails, Rule, FirstAllowed, Level,
      Budget.AllowsRequest;
    var asked := AskAndAccount(w, web, active0, id, depth, uri, startedAt, b0);
    ghost var read, saved := w.clock.readings, w.disk;
    PinnedUri(w.policy, web, uri, w.answers, |old(w.answers)|, w.replies, |old(w.replies)|);
    match asked
    case Unanswered => hop := HopFailed(active0);
    case Unaccounted => hop := HopLost;
    case Answered(active, response) =>
      hop := JudgeResponse(w, web, active, id, depth, uri, redirects, response, startedAt, b0);
      KeepsOn(old(w.disk), saved, w.disk);
      KeepsReceived(old(w.disk), saved);
      KeepsReceived(saved, w.disk);
      LevelJoins(saved.saves, w.disk.saves, |old(w.disk).saves|, active0.budget.elapsed);
      if hop.Final? || hop.Follow? {
        CheckedAgain(w.policy, active0.budget.elapsed, startedAt, read, w.clock.readings, |old(w.clock.readings)|, 2,
                     if hop.Final? then 1 else 3);
      }
  }

  /** The account of this body is one whose save is set to fail. */
  predicate AccountFails(w: World, active: Checkpoint, id: Uuid, body: Bytes) {
    RecordBytes(active, id, |body|).Ok? && w.SaveFails(RecordBytes(active, id, |body|).value)
  }

  /**
   In a world whose ports answer, reply `n` is the one to this request, within what was left, and it was received; if
   its account is set to fail, the call is lost there, with nothing of it charged.
   */
  ghost predicate FirstPass(w: World, web: Web, active: Checkpoint, id: Uuid, uri: string, replies: seq<Reply>, n: nat,
                            received: nat, d: Disk, lost: bool) {
    Reaches(w, web, uri) ==>
      && n < |replies|
      && replies[n].uri == uri && replies[n].cap == w.policy.maxBytes - active.budget.bytes
      && received + |replies[n].response.body| <= d.received
      && (AccountFails(w, active, id, replies[n].response.body) ==>
            lost && d.durable == Some(active) && received + |replies[n].response.body| == d.received)
  }

  /** The first pass concerns worlds without an elapsed limit. */
  lemma FirstPassUnlimited(w: World, web: Web, active: Checkpoint, id: Uuid, uri: string, replies: seq<Reply>, n: nat,
                           received: nat, d: Disk, lost: bool)
    requires FirstPass(w, web, active, id, uri, replies, n, received, d, true) && (w.policy.maxElapsed.None? ==> lost)
    ensures FirstPass(w, web, active, id, uri, replies, n, received, d, lost)
  {
    hide AccountFails;
  }

  /** A first pass that was not lost stays in the past. */
  lemma FirstPassStays(w: World, web: Web, active: Checkpoint, id: Uuid, uri: string, replies: seq<Reply>,
                       later: seq<Reply>, n: nat, received: nat, d: Disk, next: Disk, lost: bool)
    requires FirstPass(w, web, active, id, uri, replies, n, received, d, false)
    requires replies <= later && d.received <= next.received
    ensures FirstPass(w, web, active, id, uri, later, n, received, next, lost)
  {
    hide Reaches, AccountFails;
  }

  datatype Asked = Answered(active: Checkpoint, response: Response) | Unanswered | Unaccounted

  /** The request of a pass, and the durable account of its bytes. */
  method AskAndAccount(w: World, web: Web, active0: Checkpoint, id: Uuid, depth: nat, uri: string, startedAt: real,
                       ghost b0: nat)
    returns (asked: Asked)
    requires w.policy.Valid() && w.Good() && w.Settled() && OnTime(w.clock, startedAt, b0)
    requires w.disk.durable == Some(active0) && Holds(w.disk, w.policy, active0, id, InProgress) &&
             DepthIs(active0, id, depth)
    requires w.disk.calls < active0.budget.requests && w.policy.allowsUri(uri)
    modifies w, w.clock
    ensures w.Good() && w.Settled() && Onward(w) && OnTime(w.clock, startedAt, b0) &&
            w.disk.calls <= old(w.disk).calls + 1
    ensures Level(w.disk.saves, |old(w.disk).saves|, active0.budget.elapsed)
    ensures asked.Answered? ==> w.faults == old(w.faults)
    ensures asked.Unaccounted? ==> w.faults == old(w.faults) + 1
    ensures asked.Unanswered? ==>
              && w.disk.durable == Some(active0) && Holds(w.disk, w.policy, active0, id, InProgress)
              && (w.reliable ==> w.faults == old(w.faults))
    ensures asked.Answered? ==>
              && w.disk.durable == Some(asked.active) && Holds(w.disk, w.policy, asked.active, id, InProgress)
              && DepthIs(asked.active, id, depth)
              && asked.active.budget.elapsed == active0.budget.elapsed
              && asked.active.budget.bytes == active0.budget.bytes + |asked.response.body|
              && BudgetChecked(w.policy, active0.budget.elapsed, startedAt, w.clock.readings, |old(w.clock.readings)|,
                               2)
    ensures Pinned(w.policy, web, uri, w.answers, |old(w.answers)|, w.replies, |old(w.replies)|)
    ensures Reaches(w, web, uri) ==> !asked.Unanswered?
    ensures !asked.Unanswered? ==>
              && |w.replies| == |old(w.replies)| + 1 && |w.answers| == |old(w.answers)| + 1 &&
                 w.replies[|old(w.replies)|].uri == uri
              && w.disk.received == old(w.disk).received + |w.replies[|old(w.replies)|].response.body|
              && w.replies[|old(w.replies)|].cap == w.policy.maxBytes - active0.budget.bytes
    ensures asked.Answered? ==> asked.response == w.replies[|old(w.replies)|].response
    ensures !asked.Unanswered? && AccountFails(w, active0, id, w.replies[|old(w.replies)|].response.body) ==>
              asked.Unaccounted? && w.disk.durable == Some(active0)
    ensures asked.Unanswered? && Undisturbed(w, active0.budget.elapsed, startedAt, b0) ==>
              && w.replies == old(w.replies) && |w.answers| == |old(w.answers)| + 1
              && FirstAllowed(w.policy, w.answers[|old(w.answers)|].addresses).None?
    ensures w.policy.maxElapsed.None? ==> w.clock.readings == old(w.clock.readings)
  {
    hide World.Good, Accounted, TargetsSafe, FindIn, RecordBytes, MaySave, Saved, BudgetChecked, Pinned, Reaches,
      FirstAllowed;
    var response := RequestOnce(w, web, active0, uri, startedAt, b0);
    KeepsReceived(old(w.disk), w.disk);
    StoringKeepsHolds(old(w.disk), w.disk, w.policy, active0, id, InProgress);
    if response.None? {
      return Unanswered;
    }
    BytesHold(w.disk, w.policy, active0, id, depth, |response.value.body|);
    var active := RecordBytes(active0, id, |response.value.body|).value;
    var ok := SaveActive(w, active, id);
    asked := if ok then Answered(active, response.value) else Unaccounted;
  }

  /** What follows an accounted response: the end of the loop, a failure, or the next hop. */
  method JudgeResponse(w: World, web: Web, active: Checkpoint, id: Uuid, depth: nat, uri: string, redirects: nat,
                       response: Response, startedAt: real, ghost b0: nat)
    returns (hop: Hop)
    requires w.policy.Valid() && w.Good() && w.Settled() && OnTime(w.clock, startedAt, b0)
    requires w.disk.durable == Some(active) && Holds(w.disk, w.policy, active, id, InProgress) &&
             DepthIs(active, id, depth)
    modifies w`disk, w`history, w`faults, w.clock
    ensures w.Good() && w.Settled() && Onward(w) && OnTime(w.clock, startedAt, b0) && w.disk.calls == old(w.disk).calls
    ensures Level(w.disk.saves, |old(w.disk).saves|, active.budget.elapsed)
    ensures w.faults == old(w.faults) + (if hop.HopLost? then 1 else 0) && w.disk.received == old(w.disk).received
    ensures !hop.HopLost? ==>
              && w.disk.durable == Some(hop.active) && Holds(w.disk, w.policy, hop.active, id, InProgress)
              && DepthIs(hop.active, id, depth)
              && hop.active.budget.elapsed == active.budget.elapsed && hop.active.budget.bytes == active.budget.bytes
    ensures hop.Final? ==> hop.response == response && Rule(w.policy, web, uri, redirects, response).Ends?
    ensures hop.Follow? ==>
              Rule(w.policy, web, uri, redirects, response) == Bounces(hop.next) &&
              w.disk.calls < hop.active.budget.requests
    ensures Undisturbed(w, active.budget.elapsed, startedAt, b0) && !hop.Final? && !hop.Follow? ==>
              && hop.HopFailed?
              && var rule := Rule(w.policy, web, uri, redirects, response);
                 rule.Stops? ||
                 (rule.Bounces? &&
                  hop.active.budget.AllowsRequest(w.policy, depth, 0, Some(w.policy.minInterval)) != Ok(true))
    ensures hop.Final? ==>
              BudgetChecked(w.policy, active.budget.elapsed, startedAt, w.clock.readings, |old(w.clock.readings)|, 1)
    ensures hop.Follow? ==>
              BudgetChecked(w.policy, active.budget.elapsed, startedAt, w.clock.readings, |old(w.clock.readings)|, 3)
    ensures w.policy.maxElapsed.None? ==> w.clock.readings == old(w.clock.readings)
  {
    hide World.Good, Accounted, TargetsSafe, FindIn, MaySave, Budget.AllowsRequest;
    if response.limitExceeded || active.budget.bytes > w.policy.maxBytes {
      return HopFailed(active);
    }
    var ok, remaining := RemainingElapsed(w, active, startedAt, b0);
    ghost var read := w.clock.readings;
    if !ok || response.location.BadLocation? {
      return HopFailed(active);
    }
    if !IsRedirect(response.status) {
      return Final(active, response);
    }
    if response.location.NoLocation? || redirects >= w.policy.maxRedirects {
      return HopFailed(active);
    }
    var next := web.join(uri, response.location.text);
    if !w.policy.allowsUri(next) {
      return HopFailed(active);
    }
    hop := ChargeHop(w, active, id, depth, next, startedAt, b0);
    if hop.Follow? {
      CheckedAgain(w.policy, active.budget.elapsed, startedAt, read, w.clock.readings, |old(w.clock.readings)|, 1, 2);
    }
  }

  /** Saves a checkpoint in hand that brings the account of received bytes up to date. */
  method SaveActive(w: World, cp: Checkpoint, id: Uuid) returns (ok: bool)
    requires w.Good() && w.disk.durable.Some? && Holds(w.disk, w.policy, cp, id, InProgress)
    requires Recorded(w.disk) == cp.budget.elapsed
    requires w.disk.received - cp.budget.bytes <= Excused(w.policy, w.faults)
    requires Slack(w.disk) <= Excused(w.policy, w.faults) + w.policy.maxBytes
    modifies w`disk, w`history, w`faults
    ensures w.Good() && w.Settled() && old(w.history) <= w.history && Keeps(old(w.disk), w.disk)
    ensures w.faults == old(w.faults) + (if ok then 0 else 1)
    ensures w.disk.calls == old(w.disk).calls && w.disk.received == old(w.disk).received
    ensures w.reliable ==> ok == !w.SaveFails(cp)
    ensures w.SaveFails(cp) ==> w.disk == old(w.disk)
    ensures ok ==> w.disk.durable == Some(cp) && Holds(w.disk, w.policy, cp, id, InProgress)
    ensures w.disk.saves == old(w.disk).saves ||
            (|w.disk.saves| == |old(w.disk).saves| + 1 && old(w.disk).saves <= w.disk.saves &&
             w.disk.saves[|old(w.disk).saves|].cp == cp)
  {
    hide World.Good, Accounted, Keeps, TargetsSafe, FindIn, Naming, MaySave;
    HoldsMaySave(w.disk, w.policy, cp, id, InProgress, w.clock.Last(), w.clock.backward == 0);
    ok := w.SaveCheckpoint(cp);
  }

  /** Wait, charge the follow-up request, and save it before the connection is opened. */
  method ChargeHop(w: World, active: Checkpoint, id: Uuid, depth: nat, next: string, startedAt: real, ghost b0: nat)
    returns (hop: Hop)
    requires w.policy.Valid() && w.Good() && w.Settled() && OnTime(w.clock, startedAt, b0)
    requires w.disk.durable == Some(active) && Holds(w.disk, w.policy, active, id, InProgress) &&
             DepthIs(active, id, depth)
    modifies w`disk, w`history, w`faults, w.clock
    ensures w.Good() && w.Settled() && Onward(w) && OnTime(w.clock, startedAt, b0) && w.disk.calls == old(w.disk).calls
    ensures Level(w.disk.saves, |old(w.disk).saves|, active.budget.elapsed)
    ensures !hop.Final?
    ensures w.faults == old(w.faults) + (if hop.HopLost? then 1 else 0) && w.disk.received == old(w.disk).received
    ensures hop.Follow? ==>
              BudgetChecked(w.policy, active.budget.elapsed, startedAt, w.clock.readings, |old(w.clock.readings)|, 2)
    ensures !hop.HopLost? ==>
              && w.disk.durable == Some(hop.active) && Holds(w.disk, w.policy, hop.active, id, InProgress)
              && DepthIs(hop.active, id, depth)
              && hop.active.budget.elapsed == active.budget.elapsed && hop.active.budget.bytes == active.budget.bytes
    ensures hop.Follow? ==> hop.next == next && w.disk.calls < hop.active.budget.requests
    ensures Undisturbed(w, active.budget.elapsed, startedAt, b0) ==>
              && !hop.HopLost?
              && (hop.HopFailed? ==>
                    hop.active.budget.AllowsRequest(w.policy, depth, 0, Some(w.policy.minInterval)) != Ok(true))
    ensures w.policy.maxElapsed.None? ==> w.clock.readings == old(w.clock.readings)
  {
    hide World.Good, Accounted, TargetsSafe, FindIn, RecordFollowup, MaySave;
    var ok := WaitForFollowup(w, active, depth, startedAt, b0);
    if !ok {
      return HopFailed(active);
    }
    FollowupHolds(w.disk, w.policy, active, id, depth, Some(w.policy.minInterval));
    var charged := RecordFollowup(active, id, w.policy, 0, Some(w.policy.minInterval));
    if charged.Err? {
      return HopFailed(active);
    }
    ok := SaveActive(w, charged.value, id);
    hop := if ok then Follow(charged.value, next) else HopLost;
  }

  // ----- finishing

  datatype Finish = Done(cp: Checkpoint) | Interrupted(cp: Checkpoint) | Lost | Broken

  /** The target has this status and names these outputs. */
  ghost predicate Names(cp: Checkpoint, id: Uuid, status: Status, sha: Sha, observation: Uuid) {
    && FindIn(cp.targets, id).Some?
    && var t := FindIn(cp.targets, id).value;
       t.status == status && t.artifact == Some(sha) && t.observation == Some(observation)
  }

  /** The durable target is being finalized with these outputs, or is completed with them. */
  ghost predicate Committing(d: Disk, id: Uuid, sha: Sha, observation: Uuid) {
    d.durable.Some? &&
    (Names(d.durable.value, id, Finalizing, sha, observation) ||
     Names(d.durable.value, id, Completed, sha, observation))
  }

  lemma BeginNames(d: Disk, p: Policy, cp: Checkpoint, id: Uuid, sha: Sha, observation: Uuid, elapsed: real)
    requires Holds(d, p, cp, id, InProgress) && elapsed >= cp.budget.elapsed && WellNamed(sha, observation)
    ensures BeginFinalization(cp, id, sha, observation, elapsed).Ok?
    ensures var next := BeginFinalization(cp, id, sha, observation, elapsed).value;
            && Holds(d, p, next, id, Finalizing) && Names(next, id, Finalizing, sha, observation)
            && next.budget == cp.budget.(elapsed := elapsed)
  {
    hide TargetsSafe, FindIn, ReplaceIn, Accounted;
    MoveHolds(d, p, cp, DoBeginFinalization(id, sha, observation, elapsed));
  }

  lemma CompleteNames(d: Disk, p: Policy, cp: Checkpoint, id: Uuid, sha: Sha, observation: Uuid, elapsed: real)
    requires Holds(d, p, cp, id, Finalizing) && Names(cp, id, Finalizing, sha, observation) &&
             elapsed >= cp.budget.elapsed
    requires OutputsDurable(d, sha, observation)
    ensures CompleteFinalization(cp, id, elapsed).Ok?
    ensures var next := CompleteFinalization(cp, id, elapsed).value;
            && Holds(d, p, next, id, Completed) && Names(next, id, Completed, sha, observation)
            && next.budget == cp.budget.(elapsed := elapsed) && next.id == cp.id
  {
    hide TargetsSafe, FindIn, ReplaceIn, OutputsDurable, Accounted;
    MoveIsSafe(d, cp, p, DoCompleteFinalization(id, elapsed));
    StepMoves(cp, p, DoCompleteFinalization(id, elapsed));
    StepKeepsAccounted(cp, p, DoCompleteFinalization(id, elapsed));
  }

  /** A durable finalizing target intends its outputs. */
  lemma NamedIsIntended(d: Disk, id: Uuid, sha: Sha, observation: Uuid)
    requires d.durable.Some? && Names(d.durable.value, id, Finalizing, sha, observation)
    ensures Intended(d, Intent(sha, observation))
  {
    var t := FindIn(d.durable.value.targets, id).value;
    assert t in d.durable.value.targets;
  }

  /** A save that entered finalization at its clock reading. */
  ghost predicate Begun(x: Save, base: real, id: Uuid, sha: Sha, observation: Uuid, startedAt: real) {
    && Names(x.cp, id, Finalizing, sha, observation)
    && x.readAt >= startedAt && x.cp.budget.elapsed == base + (x.readAt - startedAt)
  }

  /** A save that completed it: the time since the start is added once more. */
  ghost predicate Ended(y: Save, before: real, id: Uuid, sha: Sha, observation: Uuid, startedAt: real) {
    && Names(y.cp, id, Completed, sha, observation)
    && y.readAt >= startedAt && y.cp.budget.elapsed == before + (y.readAt - startedAt)
  }

  /** The second half of `_finish`: bytes, then observation, then completion. */
  method CommitOutputs(w: World, finalizing: Checkpoint, id: Uuid, sha: Sha, observation: Uuid, body: Bytes,
                       startedAt: real)
    returns (f: Finish)
    requires w.Good() && w.Settled() && w.disk.durable == Some(finalizing) &&
             Holds(w.disk, w.policy, finalizing, id, Finalizing)
    requires Names(finalizing, id, Finalizing, sha, observation) && WellNamed(sha, observation) && sha == Sha256(body)
    modifies w`disk, w`history, w`faults, w.clock
    ensures f.Broken? ==> Hitched(w.clock, startedAt)
    ensures w.Good() && w.Settled() && Onward(w) && w.disk.calls == old(w.disk).calls &&
            w.disk.received == old(w.disk).received
    ensures Committing(w.disk, id, sha, observation) && !f.Lost? && Spent(w.disk) == finalizing.budget.bytes
    ensures f.Interrupted? ==> f.cp == finalizing && old(w.faults) < w.faults
    ensures f.Done? ==> w.disk.durable == Some(f.cp) && Names(f.cp, id, Completed, sha, observation) &&
                        OutputsDurable(w.disk, sha, observation)
    ensures f.Broken? ==> w.disk.saves == old(w.disk).saves && w.disk.durable == old(w.disk).durable
    ensures f.Done? ==> |w.disk.saves| == |old(w.disk).saves| + 1 && w.disk.saves[|old(w.disk).saves|].cp == f.cp
    ensures w.disk.saves == old(w.disk).saves ||
            (|w.disk.saves| == |old(w.disk).saves| + 1 && old(w.disk).saves <= w.disk.saves &&
             var y := w.disk.saves[|old(w.disk).saves|];
             && |w.clock.readings| == |old(w.clock.readings)| + 1
             && w.clock.readings[|old(w.clock.readings)|] == Some(y.readAt)
             && Ended(y, finalizing.budget.elapsed, id, sha, observation, startedAt))
    ensures !f.Interrupted? ==> |w.clock.readings| == |old(w.clock.readings)| + 1
    ensures f.Done? || f.Broken? ==> (f.Done? <==> Usable(w.clock.readings[|old(w.clock.readings)|], startedAt))
  {
    hide World.Good, World.Settled, Holds, Names, OutputsDurable, MaySave, Naming, Intended, WellNamed;
    NamedIsIntended(w.disk, id, sha, observation);
    var ok := StoreOutputs(w, sha, observation, body);
    if !ok {
      return Interrupted(finalizing);
    }
    HoldsCalls(w.disk, w.policy, finalizing, id, Finalizing, old(w.disk));
    f := CompleteDurably(w, finalizing, id, sha, observation, startedAt);
  }

  /** With both outputs durable, the completion is recorded. */
  method CompleteDurably(w: World, finalizing: Checkpoint, id: Uuid, sha: Sha, observation: Uuid, startedAt: real)
    returns (f: Finish)
    requires w.Good() && w.Settled() && w.disk.durable == Some(finalizing) &&
             Holds(w.disk, w.policy, finalizing, id, Finalizing)
    requires Names(finalizing, id, Finalizing, sha, observation) && OutputsDurable(w.disk, sha, observation)
    modifies w`disk, w`history, w`faults, w.clock
    ensures f.Broken? ==> Hitched(w.clock, startedAt)
    ensures |w.clock.readings| == |old(w.clock.readings)| + 1
    ensures w.Good() && w.Settled() && Onward(w) && OnlySaved(old(w.disk), w.disk)
    ensures w.disk.durable == old(w.disk).durable ||
            (w.disk.durable.Some? && Names(w.disk.durable.value, id, Completed, sha, observation))
    ensures Committing(w.disk, id, sha, observation) && !f.Lost? && Spent(w.disk) == finalizing.budget.bytes
    ensures f.Interrupted? ==> f.cp == finalizing && old(w.faults) < w.faults
    ensures f.Done? ==> w.disk.durable == Some(f.cp) && Names(f.cp, id, Completed, sha, observation) &&
                        OutputsDurable(w.disk, sha, observation)
    ensures f.Broken? ==> w.disk == old(w.disk)
    ensures f.Done? ==> Holds(w.disk, w.policy, f.cp, id, Completed) && f.cp.id == finalizing.id
    ensures f.Done? ==> |w.disk.saves| == |old(w.disk).saves| + 1 && w.disk.saves[|old(w.disk).saves|].cp == f.cp
    ensures w.disk.saves == old(w.disk).saves ||
            (|w.disk.saves| == |old(w.disk).saves| + 1 && old(w.disk).saves <= w.disk.saves &&
             var y := w.disk.saves[|old(w.disk).saves|];
             && w.clock.readings[|old(w.clock.readings)|] == Some(y.readAt)
             && Ended(y, finalizing.budget.elapsed, id, sha, observation, startedAt))
    ensures f.Done? || f.Broken? ==> (f.Done? <==> Usable(w.clock.readings[|old(w.clock.readings)|], startedAt))
  {
    hide Keeps, World.Good, World.Settled, Holds, Names, OutputsDurable, MaySave, Naming, CompleteFinalization, FindIn,
      OnTime;
    KeepsItself(w.disk);
    var elapsed := Elapsed(w, finalizing, startedAt);
    if elapsed.None? {
      return Broken;
    }
    CompleteNames(w.disk, w.policy, finalizing, id, sha, observation, elapsed.value);
    var completed := CompleteFinalization(finalizing, id, elapsed.value).value;
    HoldsMaySave(w.disk, w.policy, completed, id, Completed, w.clock.Last(), w.clock.backward == 0);
    var ok := w.SaveCheckpoint(completed);
    PairStaysDurable(old(w.disk), w.disk, sha, observation);
    f := if ok then Done(completed) else Interrupted(finalizing);
  }

  /** Storing outputs keeps a checkpoint in hand fit for saving. */
  lemma HoldsCalls(after: Disk, p: Policy, cp: Checkpoint, id: Uuid, status: Status, before: Disk)
    requires Holds(before, p, cp, id, status) && Keeps(before, after)
    requires after.calls == before.calls && after.durable == before.durable
    ensures Holds(after, p, cp, id, status)
  {
    hide TargetsSafe, FindIn, Accounted, Keeps;
    StoringKeepsHolds(before, after, p, cp, id, status);
  }

  /** The first half of `_finish`: the intent, named by digest and observation, is durable before any output. */
  method BeginDurably(w: World, active: Checkpoint, id: Uuid, sha: Sha, observation: Uuid, startedAt: real)
    returns (f: Finish, finalizing: Checkpoint)
    requires w.Good() && w.Settled() && w.disk.durable == Some(active) &&
             Holds(w.disk, w.policy, active, id, InProgress)
    requires WellNamed(sha, observation)
    modifies w`disk, w`history, w`faults, w.clock
    ensures f.Broken? ==> Hitched(w.clock, startedAt)
    ensures |w.clock.readings| == |old(w.clock.readings)| + 1
    ensures w.Good() && w.Settled() && Onward(w) && OnlySaved(old(w.disk), w.disk) &&
            Spent(w.disk) == active.budget.bytes
    ensures f.Done? || f.Lost? || f.Broken?
    ensures f.Lost? ==>
              old(w.faults) < w.faults && (w.disk.durable == Some(active) || Committing(w.disk, id, sha, observation))
    ensures f.Broken? ==> w.disk == old(w.disk)
    ensures f.Done? ==> w.disk.durable == Some(finalizing) && Holds(w.disk, w.policy, finalizing, id, Finalizing) &&
                        Names(finalizing, id, Finalizing, sha, observation) && w.faults == old(w.faults) &&
                        SameSpending(w.disk, active)
    ensures f.Done? ==> |w.disk.saves| == |old(w.disk).saves| + 1 && w.disk.saves[|old(w.disk).saves|].cp == finalizing
    ensures w.disk.saves == old(w.disk).saves ||
            (|w.disk.saves| == |old(w.disk).saves| + 1 && old(w.disk).saves <= w.disk.saves &&
             var x := w.disk.saves[|old(w.disk).saves|];
             && w.clock.readings[|old(w.clock.readings)|] == Some(x.readAt)
             && Begun(x, active.budget.elapsed, id, sha, observation, startedAt))
    ensures f.Broken? <==> !Usable(w.clock.readings[|old(w.clock.readings)|], startedAt)
    ensures f.Done? ==> w.clock.latest == w.clock.readings[|old(w.clock.readings)|]
  {
    hide Keeps, World.Good, World.Settled, Holds, Names, MaySave, Naming, BeginFinalization, FindIn;
    KeepsItself(w.disk);
    finalizing := active;
    var elapsed := Elapsed(w, active, startedAt);
    if elapsed.None? {
      return Broken, active;
    }
    BeginNames(w.disk, w.policy, active, id, sha, observation, elapsed.value);
    finalizing := BeginFinalization(active, id, sha, observation, elapsed.value).value;
    HoldsMaySave(w.disk, w.policy, finalizing, id, Finalizing, w.clock.Last(), w.clock.backward == 0);
    var ok := w.SaveCheckpoint(finalizing);
    f := if ok then Done(finalizing) else Lost;
  }

  /** `_finish`. `facts` is the sanitized snapshot, if it could be built. */
  method FinishAcquisition(w: World, active: Checkpoint, id: Uuid, facts: Option<Facts>, body: Bytes, startedAt: real)
    returns (f: Finish, sha: Sha, observation: Uuid)
    requires w.Good() && w.Settled() && w.disk.durable == Some(active) &&
             Holds(w.disk, w.policy, active, id, InProgress)
    requires w.clock.latest.Some? && (w.clock.backward == 0 ==> startedAt <= w.clock.latest.value)
    modifies w`disk, w`history, w`faults, w.clock
    ensures f.Broken? && facts.Some? ==> Hitched(w.clock, startedAt)
    ensures w.Good() && w.Settled() && Onward(w) && w.disk.calls == old(w.disk).calls &&
            w.disk.received == old(w.disk).received
    ensures sha == Sha256(body) && (facts.Some? ==> observation == ObservationUuid(ArtifactUuid(sha), facts.value))
    ensures w.disk.durable == Some(active) || Committing(w.disk, id, sha, observation)
    ensures f.Interrupted? ==> Committing(w.disk, id, sha, observation) && Names(f.cp, id, Finalizing, sha, observation)
    ensures f.Done? ==> facts.Some? && w.disk.durable == Some(f.cp) && Names(f.cp, id, Completed, sha, observation) &&
                        OutputsDurable(w.disk, sha, observation)
    ensures f.Broken? ==> TimeKept(w, active, startedAt) && SameSpending(w.disk, active)
    ensures f.Interrupted? || f.Lost? ==> old(w.faults) < w.faults
    ensures FinishSaves(f, w.disk.saves, old(w.disk).saves, active.budget.elapsed, id, sha, observation, startedAt)
    ensures f.Done? || f.Broken? ==>
              FinishReadings(f, facts, w.clock.readings, |old(w.clock.readings)|, w.disk.saves, |old(w.disk).saves|,
                             startedAt)
  {
    hide World.Good, World.Settled, Holds, Names, Committing, OutputsDurable, Begun, Ended, Usable;
    sha, observation := Sha256(body), Raw(0);
    if facts.None? {
      return Broken, sha, observation;
    }
    observation := ObservationUuid(ArtifactUuid(sha), facts.value);
    var finalizing;
    f, finalizing := BeginDurably(w, active, id, sha, observation, startedAt);
    if !f.Done? {
      return;
    }
    BegunReads(w.disk.saves[|w.disk.saves| - 1], active.budget.elapsed, id, sha, observation, startedAt);
    f := CommitOutputs(w, finalizing, id, sha, observation, body, startedAt);
  }

  lemma BegunReads(x: Save, base: real, id: Uuid, sha: Sha, observation: Uuid, startedAt: real)
    requires Begun(x, base, id, sha, observation, startedAt)
    ensures x.readAt >= startedAt && x.cp.budget.elapsed == base + (x.readAt - startedAt)
  {
  }

  /** The checkpoints `_finish` can make durable: the finalizing one, then the completed one. */
  ghost predicate FinishSaves(f: Finish, saves: seq<Save>, before: seq<Save>, base: real, id: Uuid, sha: Sha,
                              observation: Uuid, startedAt: real) {
    && before <= saves && |saves| <= |before| + 2
    && (|saves| > |before| ==> Begun(saves[|before|], base, id, sha, observation, startedAt))
    && (|saves| == |before| + 2 ==>
          Ended(saves[|before| + 1], saves[|before|].cp.budget.elapsed, id, sha, observation, startedAt))
    && (f.Done? ==> |saves| == |before| + 2 && saves[|before| + 1].cp == f.cp)
    && (f.Broken? ==> |saves| <= |before| + 1)
  }

  /** Which clock readings an undisturbed `_finish` took, and what they decide. */
  ghost predicate FinishReadings(f: Finish, facts: Option<Facts>, readings: seq<Option<real>>, m: nat,
                                 saves: seq<Save>, n: nat, startedAt: real) {
    if facts.None? then f.Broken? && |readings| == m && |saves| == n
    else if |readings| <= m then false
    else if !Usable(readings[m], startedAt) then f.Broken? && |readings| == m + 1 && |saves| == n
    else
      && |readings| == m + 2 && |saves| > n && saves[n].readAt == readings[m].value
      && (f.Done? <==> Usable(readings[m + 1], startedAt))
      && (if f.Done? then |saves| == n + 2 && saves[n + 1].readAt == readings[m + 1].value
          else f.Broken? && |saves| == n + 1)
  }

  /** The class name of the exception is left out of the message. */
  const FAILURE_REASON: string := "http acquisition failed: Exception"

  lemma FailHolds(d: Disk, p: Policy, cp: Checkpoint, id: Uuid, elapsed: real)
    requires Holds(d, p, cp, id, InProgress) && elapsed >= cp.budget.elapsed
    ensures Fail(cp, id, FAILURE_REASON, elapsed, 0).Ok?
    ensures var next := Fail(cp, id, FAILURE_REASON, elapsed, 0).value;
            Holds(d, p, next, id, Failed) && next.budget == cp.budget.(elapsed := elapsed)
  {
    hide TargetsSafe, FindIn, ReplaceIn, Accounted;
    TrimmedIsItself(FAILURE_REASON);
    MoveHolds(d, p, cp, DoFail(id, FAILURE_REASON, elapsed, 0));
  }

  /** A save that failed the target at its clock reading. */
  ghost predicate GaveUp(y: Save, base: real, id: Uuid, startedAt: real) {
    && FindIn(y.cp.targets, id).Some? && FindIn(y.cp.targets, id).value.status == Failed
    && y.readAt >= startedAt && y.cp.budget.elapsed == base + (y.readAt - startedAt)
  }

  /** The `except Exception` branch: fails the target from the checkpoint in hand, whatever is durable by then. */
  method RecordFailure(w: World, active: Checkpoint, id: Uuid, startedAt: real) returns (o: Outcome)
    requires w.Good() && w.Settled() && Holds(w.disk, w.policy, active, id, InProgress) &&
             TimeKept(w, active, startedAt)
    modifies w`disk, w`history, w`faults, w.clock
    ensures o.Raised? ==> Hitched(w.clock, startedAt)
    ensures |w.clock.readings| == |old(w.clock.readings)| + 1
    ensures w.Good() && w.Settled() && Onward(w) && OnlySaved(old(w.disk), w.disk)
    ensures o.AcquisitionFailed? || o.CheckpointLost? || o.Raised?
    ensures o.AcquisitionFailed? ==> w.disk.durable == Some(o.cp) && FindIn(o.cp.targets, id).Some? &&
                                     FindIn(o.cp.targets, id).value.status == Failed &&
                                     o.cp.budget == active.budget.(elapsed := o.cp.budget.elapsed)
    ensures o.AcquisitionFailed? ==>
              |w.disk.saves| == |old(w.disk).saves| + 1 && w.disk.saves[|old(w.disk).saves|].cp == o.cp
    ensures o.CheckpointLost? ==> old(w.faults) < w.faults
    ensures o.Raised? ==> w.disk == old(w.disk)
    ensures o.Raised? <==> !Usable(w.clock.readings[|old(w.clock.readings)|], startedAt)
    ensures w.disk.saves == old(w.disk).saves ||
            (|w.disk.saves| == |old(w.disk).saves| + 1 && old(w.disk).saves <= w.disk.saves &&
             var y := w.disk.saves[|old(w.disk).saves|];
             w.clock.readings[|old(w.clock.readings)|] == Some(y.readAt) &&
             GaveUp(y, active.budget.elapsed, id, startedAt))
  {
    hide World.Good, World.Settled, TargetsSafe, FindIn, Fail, Charged, MaySave, Naming;
    var elapsed := Elapsed(w, active, startedAt);
    if elapsed.None? {
      return Raised;
    }
    FailHolds(w.disk, w.policy, active, id, elapsed.value);
    var failed := Fail(active, id, FAILURE_REASON, elapsed.value, 0).value;
    HoldsMaySave(w.disk, w.policy, failed, id, Failed, w.clock.Last(), w.clock.backward == 0);
    var ok := w.SaveCheckpoint(failed);
    o := if ok then AcquisitionFailed(failed) else CheckpointLost;
  }

  /**
   What an interrupted commit leaves: the target named by the checkpoint in hand is durably finalizing or completed.
   */
  ghost predicate InterruptedAs(d: Disk, cp: Checkpoint, id: Uuid) {
    && FindIn(cp.targets, id).Some?
    && var t := FindIn(cp.targets, id).value;
       t.status == Finalizing && t.artifact.Some? && t.observation.Some? &&
       Committing(d, id, t.artifact.value, t.observation.value)
  }

  /** The outcome of an undisturbed conclusion, read off the clock from index `m` on. */
  ghost predicate Timeline(o: Outcome, facts: Option<Facts>, readings: seq<Option<real>>, m: nat, saves: seq<Save>,
                           n: nat, base: real, startedAt: real) {
    if |readings| <= m then false
    else if facts.None? then |readings| == m + 1 && FailedAt(o, readings[m], startedAt)
    else if |readings| <= m + 1 then false
    else if !Usable(readings[m], startedAt) then |readings| == m + 2 && FailedAt(o, readings[m + 1], startedAt)
    else
      && |saves| > n && saves[n].readAt == readings[m].value && Timed(saves[n], base, startedAt)
      && if Usable(readings[m + 1], startedAt) then
           |readings| == m + 2 && o.Acquired? && |saves| == n + 2 && saves[n + 1].readAt == readings[m + 1].value
         else |readings| == m + 3 && FailedAt(o, readings[m + 2], startedAt)
  }

  /** An undisturbed conclusion whose saves start somewhere from `from` on. */
  ghost predicate Concluded(o: Outcome, facts: Option<Facts>, readings: seq<Option<real>>, m: nat, saves: seq<Save>,
                            from: nat, base: real, startedAt: real) {
    exists k :: from <= k <= |saves| && Timeline(o, facts, readings, m, saves, k, base, startedAt)
  }

  /** The outcome of recording a failure at this reading. */
  predicate FailedAt(o: Outcome, reading: Option<real>, startedAt: real) {
    if Usable(reading, startedAt) then o.AcquisitionFailed? else o.Raised?
  }

  /** The loop has its final response: finish, or record the failure to. */
  method Conclude(w: World, active: Checkpoint, id: Uuid, facts: Option<Facts>, body: Bytes, startedAt: real)
    returns (o: Outcome)
    requires w.Good() && w.Settled() && w.disk.durable == Some(active) &&
             Holds(w.disk, w.policy, active, id, InProgress)
    requires w.clock.latest.Some? && (w.clock.backward == 0 ==> startedAt <= w.clock.latest.value)
    modifies w`disk, w`history, w`faults, w.clock
    ensures w.Good() && w.Settled() && Onward(w) && w.disk.calls == old(w.disk).calls
    ensures !o.Refused?
    ensures o.Acquired? ==> && facts.Some? && o.sha == Sha256(body)
                            && o.observation == ObservationUuid(ArtifactUuid(o.sha), facts.value)
                            && w.disk.durable == Some(o.cp) && Names(o.cp, id, Completed, o.sha, o.observation)
                            && OutputsDurable(w.disk, o.sha, o.observation)
    ensures o.CommitInterrupted? ==> InterruptedAs(w.disk, o.cp, id)
    ensures o.AcquisitionFailed? ==> w.disk.durable == Some(o.cp) && FindIn(o.cp.targets, id).Some? &&
                                     FindIn(o.cp.targets, id).value.status == Failed &&
                                     o.cp.budget == active.budget.(elapsed := o.cp.budget.elapsed)
    ensures o.CheckpointLost? || o.CommitInterrupted? ==> old(w.faults) < w.faults
    ensures w.faults == old(w.faults) && !Hitched(w.clock, startedAt) ==>
              if facts.Some? then o.Acquired? else o.AcquisitionFailed?
    ensures o.Raised? || o.AcquisitionFailed? ==> SameSpending(w.disk, active)
    ensures o.AcquisitionFailed? ==> TimedAtLast(w.disk.saves, w.clock.readings, active.budget.elapsed, startedAt)
    ensures Tail(w.disk.saves, |old(w.disk).saves|, active.budget.elapsed, startedAt)
    ensures o.Acquired? || o.AcquisitionFailed? ==>
              |w.disk.saves| > |old(w.disk).saves| && w.disk.saves[|w.disk.saves| - 1].cp == o.cp
    ensures o.Acquired? ==> && |w.disk.saves| == |old(w.disk).saves| + 2
                            && var x, y := w.disk.saves[|old(w.disk).saves|], w.disk.saves[|old(w.disk).saves| + 1];
                               Timed(x, active.budget.elapsed, startedAt) && Timed(y, x.cp.budget.elapsed, startedAt)
    ensures w.faults == old(w.faults) ==>
              Timeline(o, facts, w.clock.readings, |old(w.clock.readings)|, w.disk.saves, |old(w.disk).saves|,
                       active.budget.elapsed, startedAt)
  {
    hide Keeps, World.Good, World.Settled, Holds, FindIn, OutputsDurable, Committing, TimeKept, Usable, FinishSaves,
      FinishReadings, Tail, Timeline, GaveUp;
    ghost var n, m, base := w.disk.saves, |w.clock.readings|, active.budget.elapsed;
    ghost var before := w.disk;
    var f, sha, observation := FinishAcquisition(w, active, id, facts, body, startedAt);
    ghost var was := w.disk;
    FinishedTail(f, w.disk.saves, n, base, id, sha, observation, startedAt);
    if f.Done? {
      o := Acquired(f.cp, sha, observation);
      FinishedTimeline(o, f, facts, w.clock.readings, m, w.disk.saves, |n|, base, startedAt);
      return;
    } else if f.Interrupted? {
      return CommitInterrupted(f.cp);
    } else if f.Lost? {
      return CheckpointLost;
    }
    BrokenKeepsHolds(before, w.disk, w.policy, active, id);
    ghost var finished, read := w.disk.saves, w.clock.readings;
    o := GiveUp(w, active, id, startedAt, |n|);
    KeepsOn(before, was, w.disk);
    KeepsReceived(was, w.disk);
    if w.faults == old(w.faults) {
      FailedTimeline(o, facts, read, w.clock.readings, m, finished, w.disk.saves, |n|, base, startedAt);
    }
  }

  /** `RecordFailure`, after which the saves from index `k` on still form a tail. */
  method GiveUp(w: World, active: Checkpoint, id: Uuid, startedAt: real, ghost k: nat) returns (o: Outcome)
    requires w.Good() && w.Settled() && Holds(w.disk, w.policy, active, id, InProgress) &&
             TimeKept(w, active, startedAt)
    requires Tail(w.disk.saves, k, active.budget.elapsed, startedAt) && |w.disk.saves| <= k + 1
    modifies w`disk, w`history, w`faults, w.clock
    ensures w.Good() && w.Settled() && Onward(w) && w.disk.calls == old(w.disk).calls
    ensures o.AcquisitionFailed? || o.CheckpointLost? || o.Raised?
    ensures o.AcquisitionFailed? ==> w.disk.durable == Some(o.cp) && FindIn(o.cp.targets, id).Some? &&
                                     FindIn(o.cp.targets, id).value.status == Failed &&
                                     o.cp.budget == active.budget.(elapsed := o.cp.budget.elapsed)
    ensures o.AcquisitionFailed? ==> |w.disk.saves| > |old(w.disk).saves| && w.disk.saves[|w.disk.saves| - 1].cp == o.cp
    ensures o.AcquisitionFailed? ==> TimedAtLast(w.disk.saves, w.clock.readings, active.budget.elapsed, startedAt)
    ensures o.CheckpointLost? ==> old(w.faults) < w.faults
    ensures o.Raised? ==> w.disk == old(w.disk) && Hitched(w.clock, startedAt)
    ensures |w.clock.readings| == |old(w.clock.readings)| + 1
    ensures o.Raised? <==> !Usable(w.clock.readings[|old(w.clock.readings)|], startedAt)
    ensures Tail(w.disk.saves, k, active.budget.elapsed, startedAt)
  {
    hide World.Good, World.Settled, Holds, FindIn, TimeKept, Usable, Tail, GaveUp, Keeps;
    ghost var finished := w.disk.saves;
    o := RecordFailure(w, active, id, startedAt);
    FailedTail(finished, w.disk.saves, k, active.budget.elapsed, id, startedAt);
    if o.AcquisitionFailed? {
      GaveUpTimed(w.disk.saves[|finished|], active.budget.elapsed, id, startedAt);
    }
  }

  lemma GaveUpTimed(y: Save, base: real, id: Uuid, startedAt: real)
    requires GaveUp(y, base, id, startedAt)
    ensures Timed(y, base, startedAt) && y.readAt >= startedAt
  {
  }

  lemma FinishedTail(f: Finish, saves: seq<Save>, before: seq<Save>, base: real, id: Uuid, sha: Sha, observation: Uuid,
                     startedAt: real)
    requires FinishSaves(f, saves, before, base, id, sha, observation, startedAt)
    ensures Tail(saves, |before|, base, startedAt) && before <= saves
    ensures |saves| > |before| ==> Timed(saves[|before|], base, startedAt)
    ensures f.Done? ==> |saves| == |before| + 2 && saves[|before| + 1].cp == f.cp &&
                        Timed(saves[|before|], base, startedAt) &&
                        Timed(saves[|before| + 1], saves[|before|].cp.budget.elapsed, startedAt)
    ensures f.Broken? ==> |saves| <= |before| + 1
  {
    hide Names;
  }

  lemma FailedTail(finished: seq<Save>, saves: seq<Save>, k: nat, base: real, id: Uuid, startedAt: real)
    requires Tail(finished, k, base, startedAt) && |finished| <= k + 1
    requires saves == finished ||
             (|saves| == |finished| + 1 && finished <= saves && GaveUp(saves[|finished|], base, id, startedAt))
    ensures Tail(saves, k, base, startedAt)
  {
    assert |finished| > k ==> saves[k] == finished[k];
  }

  lemma FinishedTimeline(o: Outcome, f: Finish, facts: Option<Facts>, readings: seq<Option<real>>, m: nat,
                         saves: seq<Save>, n: nat, base: real, startedAt: real)
    requires FinishReadings(f, facts, readings, m, saves, n, startedAt) && f.Done? && o.Acquired?
    requires |saves| > n && Timed(saves[n], base, startedAt)
    ensures Timeline(o, facts, readings, m, saves, n, base, startedAt)
  {
    hide Usable, Timed;
  }

  lemma FailedTimeline(o: Outcome, facts: Option<Facts>, read: seq<Option<real>>, readings: seq<Option<real>>, m: nat,
                       finished: seq<Save>, saves: seq<Save>, n: nat, base: real, startedAt: real)
    requires FinishReadings(Broken, facts, read, m, finished, n, startedAt)
    requires |finished| > n ==> Timed(finished[n], base, startedAt)
    requires finished <= saves && read <= readings && |readings| == |read| + 1
    requires o.AcquisitionFailed? || o.Raised?
    requires o.Raised? <==> !Usable(readings[|read|], startedAt)
    ensures Timeline(o, facts, readings, m, saves, n, base, startedAt)
  {
    hide Usable, Timed;
  }

  lemma BrokenKeepsHolds(before: Disk, after: Disk, p: Policy, cp: Checkpoint, id: Uuid)
    requires Holds(before, p, cp, id, InProgress) && Keeps(before, after)
    requires after.calls == before.calls && Spent(after) <= cp.budget.bytes
    ensures Holds(after, p, cp, id, InProgress)
  {
    hide TargetsSafe, FindIn, Accounted, Keeps;
    StoringKeepsHolds(before, after, p, cp, id, InProgress);
  }

  // ----- the acquisition loop

  /** What one call reports, and what it left durable. */
  ghost predicate Reported(o: Outcome, p: Policy, web: Web, id: Uuid, requested: string, depth: nat, base: real,
                           startedAt: real, d: Disk, from: nat, replies: seq<Reply>, n: nat) {
    && (o.Acquired? ==>
          && Served(p, web, requested, depth, replies, n)
          && o.sha == Sha256(replies[|replies| - 1].response.body)
          && o.observation == ObservationUuid(ArtifactUuid(o.sha), SnapshotOf(web, requested, depth, replies, n).value)
          && d.durable == Some(o.cp) && Names(o.cp, id, Completed, o.sha, o.observation)
          && OutputsDurable(d, o.sha, o.observation)
          && CountedTwice(d.saves, o.cp, base, startedAt))
    && (o.CommitInterrupted? ==> InterruptedAs(d, o.cp, id))
    && (o.AcquisitionFailed? ==> d.durable == Some(o.cp) && FindIn(o.cp.targets, id).Some? &&
                                 FindIn(o.cp.targets, id).value.status == Failed)
    && (Falls(d.saves, from) <==> Regresses(d.saves, from, base, startedAt))
  }

  /** The pass failed: the target is failed, from the checkpoint in hand. */
  method StopHere(w: World, web: Web, last: Checkpoint, id: Uuid, requested: string, depth: nat, startedAt: real,
                  ghost b0: nat, ghost from: nat, ghost n: nat)
    returns (o: Outcome)
    requires w.Good() && w.Settled() && OnTime(w.clock, startedAt, b0)
    requires w.disk.durable == Some(last) && Holds(w.disk, w.policy, last, id, InProgress)
    requires from <= |w.disk.saves| && Level(w.disk.saves, from, last.budget.elapsed)
    modifies w`disk, w`history, w`faults, w.clock
    ensures w.Good() && w.Settled() && Onward(w) && w.disk.calls == old(w.disk).calls
    ensures o.AcquisitionFailed? || o.CheckpointLost? || o.Raised?
    ensures o.CheckpointLost? ==> old(w.faults) < w.faults
    ensures o.Raised? ==> Hitched(w.clock, startedAt)
    ensures o.AcquisitionFailed? ==> TimedAtLast(w.disk.saves, w.clock.readings, last.budget.elapsed, startedAt)
    ensures !o.CheckpointLost? ==> SameSpending(w.disk, last)
    ensures Reported(o, w.policy, web, id, requested, depth, last.budget.elapsed, startedAt, w.disk, from, w.replies, n)
  {
    hide World.Good, World.Settled, Holds, FindIn, Tail, Falls, Regresses, Level, Usable, TimedAtLast;
    ghost var level := w.disk.saves;
    TailStarts(level, last.budget.elapsed, startedAt);
    o := GiveUp(w, last, id, startedAt, |level|);
    EndOfCall(level, w.disk.saves, from, last.budget.elapsed, startedAt);
  }

  /** The loop has its final response. */
  method ConcludeHere(w: World, web: Web, last: Checkpoint, id: Uuid, requested: string, depth: nat,
                      facts: Option<Facts>, body: Bytes, startedAt: real, ghost b0: nat, ghost from: nat, ghost n: nat)
    returns (o: Outcome)
    requires w.Good() && w.Settled() && OnTime(w.clock, startedAt, b0)
    requires w.disk.durable == Some(last) && Holds(w.disk, w.policy, last, id, InProgress)
    requires from <= |w.disk.saves| && Level(w.disk.saves, from, last.budget.elapsed)
    requires n < |w.replies| && facts == SnapshotOf(web, requested, depth, w.replies, n)
    requires body == w.replies[|w.replies| - 1].response.body
    requires facts.Some? ==> Served(w.policy, web, requested, depth, w.replies, n)
    modifies w`disk, w`history, w`faults, w.clock
    ensures w.Good() && w.Settled() && Onward(w) && w.disk.calls == old(w.disk).calls
    ensures !o.Refused? && (o.Acquired? ==> facts.Some?)
    ensures o.CheckpointLost? || o.CommitInterrupted? ==> old(w.faults) < w.faults
    ensures w.faults == old(w.faults) && !Hitched(w.clock, startedAt) ==>
              if facts.Some? then o.Acquired? else o.AcquisitionFailed?
    ensures o.Raised? || o.AcquisitionFailed? ==> SameSpending(w.disk, last)
    ensures Reported(o, w.policy, web, id, requested, depth, last.budget.elapsed, startedAt, w.disk, from, w.replies, n)
    ensures w.faults == old(w.faults) ==>
              && |old(w.disk).saves| <= |w.disk.saves|
              && Timeline(o, facts, w.clock.readings, |old(w.clock.readings)|, w.disk.saves, |old(w.disk).saves|,
                          last.budget.elapsed, startedAt)
    ensures o.AcquisitionFailed? ==> TimedAtLast(w.disk.saves, w.clock.readings, last.budget.elapsed, startedAt)
    ensures o.AcquisitionFailed? ==> w.disk.saves[|w.disk.saves| - 1].cp == o.cp
  {
    hide World.Good, World.Settled, Holds, FindIn, Tail, Falls, Regresses, Level, Served, SnapshotOf, Names,
      OutputsDurable, InterruptedAs, Timeline, TimedAtLast;
    ghost var level := w.disk.saves;
    o := Conclude(w, last, id, facts, body, startedAt);
    EndOfCall(level, w.disk.saves, from, last.budget.elapsed, startedAt);
  }

  /** A pass that did not send the loop on ends it. */
  method EndLoop(w: World, web: Web, hop: Hop, id: Uuid, requested: string, depth: nat, uri: string,
                 chain: seq<string>, startedAt: real, ghost b0: nat, ghost base: real, ghost from: nat,
                 ghost before: seq<Reply>, ghost n: nat, ghost a: nat)
    returns (o: Outcome)
    requires w.Good() && w.Settled() && OnTime(w.clock, startedAt, b0) && !hop.Follow?
    requires from <= |w.disk.saves| && Level(w.disk.saves, from, base)
    requires Trail(before, n, requested, chain, uri) && SentOn(w.policy, web, before, n)
    requires before <= w.replies && |w.answers| >= a + |chain|
    requires !hop.HopLost? ==>
               && w.disk.durable == Some(hop.active) && Holds(w.disk, w.policy, hop.active, id, InProgress)
               && hop.active.budget.elapsed == base
    requires hop.Final? ==>
               && |w.replies| == |before| + 1 && |w.answers| == a + |chain| + 1
               && w.replies[|before|].uri == uri && hop.response == w.replies[|before|].response
               && Rule(w.policy, web, uri, |chain|, hop.response).Ends?
    modifies w`disk, w`history, w`faults, w.clock
    ensures w.Good() && w.Settled() && Onward(w) && w.disk.calls == old(w.disk).calls && !o.Refused?
    ensures hop.HopLost? ==> o.CheckpointLost? && w.disk == old(w.disk) && w.clock.readings == old(w.clock.readings)
    ensures o.CheckpointLost? || o.CommitInterrupted? ==> old(w.faults) < w.faults || hop.HopLost?
    ensures LoopEndsWell(w.policy, web, hop, uri, depth, chain, w.replies, before, w.answers, a) &&
            w.faults == old(w.faults) ==>
              if Served(w.policy, web, requested, depth, w.replies, n)
              then Hitched(w.clock, startedAt) || o.Acquired?
              else && (Hitched(w.clock, startedAt) || o.AcquisitionFailed?)
                   && w.disk.durable.Some? && !o.Acquired?
                   && Stopped(w.policy, web, requested, depth, w.disk.durable.value.budget.(elapsed := base),
                              w.replies, n, w.answers, a)
    ensures o.AcquisitionFailed? ==> TimedAtLast(w.disk.saves, w.clock.readings, base, startedAt)
    ensures LoopEndsWell(w.policy, web, hop, uri, depth, chain, w.replies, before, w.answers, a) &&
            w.faults == old(w.faults) &&
            Served(w.policy, web, requested, depth, w.replies, n) ==>
              Concluded(o, SnapshotOf(web, requested, depth, w.replies, n), w.clock.readings, |old(w.clock.readings)|,
                        w.disk.saves, from, base, startedAt)
    ensures Reported(o, w.policy, web, id, requested, depth, base, startedAt, w.disk, from, w.replies, n)
  {
    hide Keeps, World.Good, World.Settled, Holds, FindIn, Level, Trail, Served, Unmarkable, Stopped, SnapshotOf, Rule,
      Reported, HopStopped, SentOn, Timeline, TimedAtLast, Budget.AllowsRequest;
    KeepsItself(w.disk);
    if LoopEndsWell(w.policy, web, hop, uri, depth, chain, w.replies, before, w.answers, a) && !hop.Final? {
      HopStoppedIsStopped(w.policy, web, requested, depth, hop.active.budget, uri, chain, before, w.replies, n,
                          w.answers, a);
    }
    match hop
    case HopLost =>
      LostIsReported(w.policy, web, id, requested, depth, base, startedAt, w.disk, from, w.replies, n);
      o := CheckpointLost;
    case HopFailed(last) =>
      o := StopHere(w, web, last, id, requested, depth, startedAt, b0, from, n);
    case Final(last, response) =>
      var facts := web.snapshot(requested, uri, response.status, response.headers, chain, depth);
      FinalIsServed(w.policy, web, requested, depth, last.budget, uri, chain, before, w.replies, n, w.answers, a);
      o := ConcludeHere(w, web, last, id, requested, depth, facts, response.body, startedAt, b0, from, n);
  }

  /** The pass had a final response, or stopped for a cause on record. */
  ghost predicate LoopEndsWell(p: Policy, web: Web, hop: Hop, uri: string, depth: nat, chain: seq<string>,
                               replies: seq<Reply>, before: seq<Reply>, answers: seq<Answer>, a: nat) {
    || hop.Final?
    || (hop.HopFailed? &&
        HopStopped(p, web, uri, |chain|, depth, hop.active.budget, replies, |before|, answers, a + |chain|))
  }

  /** The loop of `acquire`. */
  method FollowRedirects(w: World, web: Web, active0: Checkpoint, id: Uuid, depth: nat, requested: string,
                         startedAt: real, ghost b0: nat, ghost from: nat)
    returns (o: Outcome)
    requires w.policy.Valid() && w.Good() && w.Settled() && OnTime(w.clock, startedAt, b0) &&
             w.policy.allowsUri(requested)
    requires w.disk.durable == Some(active0) && Holds(w.disk, w.policy, active0, id, InProgress) &&
             DepthIs(active0, id, depth)
    requires w.disk.calls < active0.budget.requests
    requires from <= |w.disk.saves| && Level(w.disk.saves, from, active0.budget.elapsed)
    modifies w, w.clock
    ensures w.Good() && w.Settled() && Onward(w) && !o.Refused?
    ensures w.disk.calls <= old(w.disk).calls + w.policy.maxRedirects + 1
    ensures Reported(o, w.policy, web, id, requested, depth, active0.budget.elapsed, startedAt,
                     w.disk, from, w.replies, |old(w.replies)|)
    ensures o.CommitInterrupted? || o.CheckpointLost? ==> old(w.faults) < w.faults
    ensures Undisturbed(w, active0.budget.elapsed, startedAt, b0) ==>
              || Served(w.policy, web, requested, depth, w.replies, |old(w.replies)|)
              || (w.disk.durable.Some? && !o.Acquired? &&
                  Stopped(w.policy, web, requested, depth,
                          w.disk.durable.value.budget.(elapsed := active0.budget.elapsed), w.replies, |old(w.replies)|,
                          w.answers, |old(w.answers)|))
    ensures Calm(w, active0.budget.elapsed, startedAt, b0) ==>
              if Served(w.policy, web, requested, depth, w.replies, |old(w.replies)|) then o.Acquired?
                 else o.AcquisitionFailed?
    ensures o.AcquisitionFailed? ==> TimedAtLast(w.disk.saves, w.clock.readings, active0.budget.elapsed, startedAt)
    ensures w.faults == old(w.faults) && w.policy.maxElapsed.None? &&
            Served(w.policy, web, requested, depth, w.replies, |old(w.replies)|) ==>
              Concluded(o, SnapshotOf(web, requested, depth, w.replies, |old(w.replies)|), w.clock.readings,
                        |old(w.clock.readings)|, w.disk.saves, from, active0.budget.elapsed, startedAt)
    ensures Redirected(w.policy, web, requested, w.replies, |old(w.replies)|)
    ensures FirstPass(w, web, active0, id, requested, w.replies, |old(w.replies)|, old(w.disk).received, w.disk,
                      o.CheckpointLost? && w.clock.readings == old(w.clock.readings))
  {
    hide Keeps, World.Good, World.Settled, Holds, FindIn, Trail, Served, Stopped, SnapshotOf, SentOn, HopStopped, Rule,
      Reported, Timeline, TimedAtLast, Budget.AllowsRequest, Level, FirstPass, Concluded, Redirected;
    var hop, uri, chain, before := FollowHops(w, web, active0, id, depth, requested, startedAt, b0, from);
    ghost var after, was := w.replies, w.disk;
    o := EndLoop(w, web, hop, id, requested, depth, uri, chain, startedAt, b0, active0.budget.elapsed, from, before,
                 |old(w.replies)|, |old(w.answers)|);
    KeepsOn(old(w.disk), was, w.disk);
    KeepsReceived(was, w.disk);
    if hop.HopLost? {
      FirstPassUnlimited(w, web, active0, id, requested, w.replies, |old(w.replies)|, old(w.disk).received, w.disk,
                         o.CheckpointLost? && w.clock.readings == old(w.clock.readings));
    } else {
      FirstPassStays(w, web, active0, id, requested, after, w.replies, |old(w.replies)|, old(w.disk).received, was,
                     w.disk, o.CheckpointLost? && w.clock.readings == old(w.clock.readings));
    }
  }

  /** The passes of the loop up to the one that does not send it on, which came to `uri` through `chain`. */
  method FollowHops(w: World, web: Web, active0: Checkpoint, id: Uuid, depth: nat, requested: string, startedAt: real,
                    ghost b0: nat, ghost from: nat)
    returns (hop: Hop, uri: string, chain: seq<string>, ghost before: seq<Reply>)
    requires w.policy.Valid() && w.Good() && w.Settled() && OnTime(w.clock, startedAt, b0) &&
             w.policy.allowsUri(requested)
    requires w.disk.durable == Some(active0) && Holds(w.disk, w.policy, active0, id, InProgress) &&
             DepthIs(active0, id, depth)
    requires w.disk.calls < active0.budget.requests
    requires from <= |w.disk.saves| && Level(w.disk.saves, from, active0.budget.elapsed)
    modifies w, w.clock
    ensures w.Good() && w.Settled() && Onward(w) && OnTime(w.clock, startedAt, b0) && !hop.Follow?
    ensures w.disk.calls <= old(w.disk).calls + w.policy.maxRedirects + 1
    ensures from <= |w.disk.saves| && Level(w.disk.saves, from, active0.budget.elapsed)
    ensures Trail(before, |old(w.replies)|, requested, chain, uri) && SentOn(w.policy, web, before, |old(w.replies)|)
    ensures before <= w.replies && |w.answers| >= |old(w.answers)| + |chain|
    ensures hop.HopLost? ==> old(w.faults) < w.faults
    ensures !hop.HopLost? ==>
              && w.disk.durable == Some(hop.active) && Holds(w.disk, w.policy, hop.active, id, InProgress)
              && hop.active.budget.elapsed == active0.budget.elapsed
    ensures hop.Final? ==>
              && |w.replies| == |before| + 1 && |w.answers| == |old(w.answers)| + |chain| + 1
              && w.replies[|before|].uri == uri && hop.response == w.replies[|before|].response
              && Rule(w.policy, web, uri, |chain|, hop.response).Ends?
    ensures Undisturbed(w, active0.budget.elapsed, startedAt, b0) ==>
              LoopEndsWell(w.policy, web, hop, uri, depth, chain, w.replies, before, w.answers, |old(w.answers)|)
    ensures FirstPass(w, web, active0, id, requested, w.replies, |old(w.replies)|, old(w.disk).received, w.disk,
                      hop.HopLost?)
    ensures w.policy.maxElapsed.None? ==> w.clock.readings == old(w.clock.readings)
    ensures Redirected(w.policy, web, requested, w.replies, |old(w.replies)|)
  {
    hide Redirected, RedirectedTo, BudgetChecked, FirstPass, FirstAllowed;
    hide Keeps, World.Good, World.Settled, Holds, DepthIs, FindIn, Trail, SentOn, HopStopped, Rule,
      Budget.AllowsRequest, Level;
    var active := active0;
    uri, chain := requested, [];
    KeepsItself(w.disk);
    ghost var n, received := |w.replies|, w.disk.received;
    TrailStarts(w.replies, requested);
    RedirectedStarts(w.policy, web, requested, w.replies);
    SentOnStarts(w.policy, web, w.replies);
    while true
      invariant w.Good() && w.Settled() && Onward(w) && OnTime(w.clock, startedAt, b0) && w.policy.allowsUri(uri)
      invariant w.disk.durable == Some(active) && Holds(w.disk, w.policy, active, id, InProgress) &&
                DepthIs(active, id, depth)
      invariant w.disk.calls < active.budget.requests && active.budget.elapsed == active0.budget.elapsed
      invariant |chain| <= w.policy.maxRedirects && w.disk.calls <= old(w.disk).calls + |chain|
      invariant from <= |w.disk.saves| && Level(w.disk.saves, from, active0.budget.elapsed)
      invariant w.policy.maxElapsed.None? ==> w.clock.readings == old(w.clock.readings)
      invariant SentOn(w.policy, web, w.replies, n)
      invariant Trail(w.replies, n, requested, chain, uri) && |w.answers| == |old(w.answers)| + |chain|
      invariant RedirectedTo(w.policy, web, requested, w.replies, n, uri)
      invariant chain == [] ==>
                  active == active0 && uri == requested && |w.replies| == n && w.disk.received == received
      invariant chain != [] ==>
                  FirstPass(w, web, active0, id, requested, w.replies, n, received, w.disk, false)
      decreases w.policy.maxRedirects - |chain|
    {
      ghost var was := w.disk;
      before := w.replies;
      hop := OneHop(w, web, active, id, depth, uri, |chain|, startedAt, b0);
      KeepsOn(old(w.disk), was, w.disk);
      KeepsReceived(was, w.disk);
      KeepsReceived(old(w.disk), was);
      LevelJoins(was.saves, w.disk.saves, from, active0.budget.elapsed);
      if chain != [] {
        FirstPassStays(w, web, active0, id, requested, before, w.replies, n, received, was, w.disk, hop.HopLost?);
      }
      if !hop.Follow? {
        RedirectedGrows(w.policy, web, requested, before, w.replies, n, uri);
        return;
      }
      TrailGoesOn(w.policy, web, requested, before, w.replies, n, chain, uri, hop.next);
      active, uri, chain := hop.active, hop.next, chain + [hop.next];
    }
  }

  lemma LostIsReported(p: Policy, web: Web, id: Uuid, requested: string, depth: nat, base: real, startedAt: real,
                       d: Disk, from: nat, replies: seq<Reply>, n: nat)
    requires from <= |d.saves| && Level(d.saves, from, base)
    ensures Reported(CheckpointLost, p, web, id, requested, depth, base, startedAt, d, from, replies, n)
  {
    hide Tail, Falls, Regresses;
    TailStarts(d.saves, base, startedAt);
    EndOfCall(d.saves, d.saves, from, base, startedAt);
  }

  /** The calls `acquire` refuses before it does anything. */
  predicate Refuses(p: Policy, web: Web, cp: Checkpoint, id: Uuid, requestUri: Option<string>, since: Option<real>) {
    var found := FindIn(cp.targets, id);
    || found.None? || found.value.status != Queued
    || (requestUri.None? && web.requiresTransient(found.value.uri))
    || (requestUri.Some? && requestUri.value != [] &&
        (web.normalize(requestUri.value) != Some(found.value.uri) || !p.allowsUri(requestUri.value)))
    || ((requestUri.None? || requestUri.value == []) &&
        (web.normalize(found.value.uri) != Some(found.value.uri) || !p.allowsUri(found.value.uri)))
    || Start(cp, id, p, since).Err?
  }

  /**
   What the call owes when nothing fails: without a port failure the resource is served or the cause is on
   record; with an orderly clock too it is acquired exactly if served; and without an elapsed limit the
   readings after the start decide the outcome.
   */
  twostate predicate Progress(w: World, web: Web, o: Outcome, requested: string, depth: nat, base: real,
                              startedAt: real)
    reads w, w.clock
  {
    var n, a, m := |old(w.replies)|, |old(w.answers)|, |old(w.clock.readings)|;
    var served := Served(w.policy, web, requested, depth, w.replies, n);
    && (Undisturbed(w, base, startedAt, old(w.clock.backward)) ==>
          || served
          || (w.disk.durable.Some? && !o.Acquired? &&
              Stopped(w.policy, web, requested, depth, w.disk.durable.value.budget.(elapsed := base), w.replies, n,
                      w.answers, a)))
    && (Calm(w, base, startedAt, old(w.clock.backward)) ==> if served then o.Acquired? else o.AcquisitionFailed?)
    && (w.faults == old(w.faults) && w.policy.maxElapsed.None? && served ==>
          Concluded(o, SnapshotOf(web, requested, depth, w.replies, n), w.clock.readings, m + 1,
                    w.disk.saves, |old(w.disk).saves|, base, startedAt))
    && (o.AcquisitionFailed? ==> TimedAtLast(w.disk.saves, w.clock.readings, base, startedAt))
  }

  /**
   `acquire`. Every instant in `history` is sound: in particular no network call is made that the durable
   checkpoint has not been charged for, and no output is stored that it has not named. `m` readings, `n`
   replies and `a` answers were taken before the call; its first reading is the start time.
   */
  method Acquire(w: World, web: Web, checkpoint: Checkpoint, id: Uuid, requestUri: Option<string>, since: Option<real>)
    returns (o: Outcome)
    requires w.policy.Valid() && w.Good() && w.Settled() && w.disk.durable == Some(checkpoint)
    modifies w, w.clock
    ensures w.Good() && w.Settled() && Onward(w)
    ensures w.disk.calls <= old(w.disk).calls + w.policy.maxRedirects + 1
    ensures o.Refused? <==> Refuses(w.policy, web, checkpoint, id, requestUri, since)
    ensures o.Refused? ==> w.disk == old(w.disk) && w.clock.readings == old(w.clock.readings)
    ensures !o.Refused? && !StartRead(w.clock.readings, |old(w.clock.readings)|) ==>
              && (o.CheckpointLost? || o.Raised?)
              && (o.CheckpointLost? ==>
                    old(w.faults) < w.faults &&
                    (w.reliable ==> w.SaveFails(Start(checkpoint, id, w.policy, since).value)))
              && (o.Raised? ==>
                    |old(w.clock.readings)| < |w.clock.readings| && old(w.clock.unusable) < w.clock.unusable)
              && !Falls(w.disk.saves, |old(w.disk).saves|)
    ensures !o.Refused? && StartRead(w.clock.readings, |old(w.clock.readings)|) ==>
              var target := FindIn(checkpoint.targets, id).value;
              var startedAt := w.clock.readings[|old(w.clock.readings)|].value;
              var requested := if requestUri.None? || requestUri.value == [] then target.uri else requestUri.value;
              && Redirected(w.policy, web, requested, w.replies, |old(w.replies)|)
              && Reported(o, w.policy, web, id, requested, target.depth, checkpoint.budget.elapsed,
                          startedAt, w.disk, |old(w.disk).saves|, w.replies, |old(w.replies)|)
              && (o.CommitInterrupted? || o.CheckpointLost? ==> old(w.faults) < w.faults)
              && Progress(w, web, o, requested, target.depth, checkpoint.budget.elapsed, startedAt)
              && FirstPass(w, web, Start(checkpoint, id, w.policy, since).value, id, requested,
                           w.replies, |old(w.replies)|, old(w.disk).received, w.disk,
                           o.CheckpointLost? && |w.clock.readings| == |old(w.clock.readings)| + 1)
  {
    hide Keeps, World.Good, World.Settled, TargetsSafe, FindIn, Start, Holds, DepthIs, Charged, Reported, Progress,
      StartRead, Falls, Onward, Ticked, FirstPass, Redirected;
    StandsStill(w);
    DurableIsHeld(w);
    var found := FindIn(checkpoint.targets, id);
    if found.None? || found.value.status != Queued {
      return Refused;
    }
    var target := found.value;
    if requestUri.None? && web.requiresTransient(target.uri) {
      return Refused;
    }
    var requested := if requestUri.Some? && requestUri.value != [] then requestUri.value else target.uri;
    if web.normalize(requested) != Some(target.uri) || !w.policy.allowsUri(requested) {
      return Refused;
    }
    var started := Start(checkpoint, id, w.policy, since);
    if started.Err? {
      return Refused;
    }
    StartHolds(w.disk, w.policy, checkpoint, id, since);
    o := StartAndFollow(w, web, started.value, id, target.depth, requested);
  }

  /** The charged checkpoint is durable, then the clock is read, then the loop runs. */
  method StartAndFollow(w: World, web: Web, active: Checkpoint, id: Uuid, depth: nat, requested: string)
    returns (o: Outcome)
    requires w.policy.Valid() && w.Good() && w.Settled() && w.disk.durable.Some? && w.policy.allowsUri(requested)
    requires Holds(w.disk, w.policy, active, id, InProgress) && DepthIs(active, id, depth) &&
             w.disk.calls < active.budget.requests
    requires active.budget.bytes == w.disk.durable.value.budget.bytes && active.budget.elapsed == Recorded(w.disk)
    modifies w, w.clock
    ensures w.Good() && w.Settled() && Onward(w) && !o.Refused?
    ensures w.disk.calls <= old(w.disk).calls + w.policy.maxRedirects + 1
    ensures !StartRead(w.clock.readings, |old(w.clock.readings)|) ==>
              && (o.CheckpointLost? || o.Raised?)
              && (o.CheckpointLost? ==> old(w.faults) < w.faults && (w.reliable ==> w.SaveFails(active)))
              && (o.Raised? ==>
                    |old(w.clock.readings)| < |w.clock.readings| && old(w.clock.unusable) < w.clock.unusable)
              && !Falls(w.disk.saves, |old(w.disk).saves|)
    ensures StartRead(w.clock.readings, |old(w.clock.readings)|) ==>
              var startedAt := w.clock.readings[|old(w.clock.readings)|].value;
              && Reported(o, w.policy, web, id, requested, depth, active.budget.elapsed, startedAt,
                          w.disk, |old(w.disk).saves|, w.replies, |old(w.replies)|)
              && (o.CommitInterrupted? || o.CheckpointLost? ==> old(w.faults) < w.faults)
              && Progress(w, web, o, requested, depth, active.budget.elapsed, startedAt)
              && Redirected(w.policy, web, requested, w.replies, |old(w.replies)|)
              && FirstPass(w, web, active, id, requested, w.replies, |old(w.replies)|, old(w.disk).received, w.disk,
                           o.CheckpointLost? && |w.clock.readings| == |old(w.clock.readings)| + 1)
  {
    hide Keeps, World.Good, World.Settled, TargetsSafe, FindIn, Holds, DepthIs, Reported, Served, Stopped, SnapshotOf,
      Concluded, TimedAtLast, Level, Falls, FirstPass, Redirected;
    KeepsItself(w.disk);
    SettledSlack(w, active);
    var ok := SaveActive(w, active, id);
    StartIsLevel(old(w.disk).saves, w.disk.saves, active);
    if !ok {
      return CheckpointLost;
    }
    var clock := w.ReadClock();
    if clock.None? {
      return Raised;
    }
    ghost var was := w.disk;
    o := FollowRedirects(w, web, active, id, depth, requested, clock.value, w.clock.backward, |old(w.disk).saves|);
    KeepsOn(old(w.disk), was, w.disk);
    KeepsReceived(old(w.disk), was);
  }
}
