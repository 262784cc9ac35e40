/** Concrete calls, run through the services over ports that never fail and a clock with given readings. */
module AcquisitionInstances {
  import opened Wrappers
  import opened PythonText
  import opened Identities
  import opened TraversalCheckpoints
  import opened TraversalRuns
  import opened DurableStores
  import opened HttpExchange
  import opened ElapsedTime
  import opened HttpAcquisition
  import HttpPolicyFetch
  import opened AcquisitionRuns

  const POLICY: Policy := Policy(0, 1, 0, 0, 0, None, 0.0, _ => true, _ => true)

  const PLAIN: Response := Response(200, [], [], false, NoLocation)

  const WEB: Web := Web(
    (s: string) => Some(s), (u: Uri) => false, (base: string, next: string) => next, (s: string) => s,
    (requested: string, uri: string, status: int, headers: seq<(string, string)>, chain: seq<string>, depth: nat) =>
      Some(Facts(requested, uri, status, headers, chain, depth)))

  const TARGET: Uuid := TargetUuid(Raw(0), "u")

  /** A traversal with the one target queued. */
  const QUEUED: Checkpoint :=
    Checkpoint(Raw(0), [Target(TARGET, "u", 0, Queued, 0, 0, [], [], None, None, None)], Budget(0, 0, 0.0))

  lemma EnqueuedIsQueued(p: Policy)
    ensures Step(Empty(Raw(0)).cp, p, DoEnqueue("u", 0, None, None)) == Ok(QUEUED)
  {
    var empty := Empty(Raw(0)).cp;
    assert FindUri(empty.targets, "u").None? && FindIn(empty.targets, TARGET).None?;
    assert Enqueue(empty, "u", 0, None, None).value.targets == QUEUED.targets;
  }

  lemma NothingIsRefused()
    ensures !Refuses(POLICY, WEB, QUEUED, TARGET, None, None)
    ensures FindIn(QUEUED.targets, TARGET).value == QUEUED.targets[0]
    ensures QUEUED.budget == Budget(0, 0, 0.0)
  {
  }

  /** Every host has the address "a", where every request gets this response. */
  ghost predicate Answers(w: World, reply: Response) {
    w.reliable && (forall uri :: w.site(uri) == reply) && (forall host :: w.hosts(host) == ["a"])
  }

  /** A world with the target queued and nothing read yet. */
  method Prepare(policy: Policy, tape: seq<Option<real>>, failing: set<Checkpoint>, reply: Response) returns (w: World)
    requires Empty(Raw(0)).cp !in failing && QUEUED !in failing
    ensures fresh(w) && fresh(w.clock) && w.Good() && w.Settled()
    ensures w.policy == policy && w.failing == failing && Answers(w, reply)
    ensures w.clock.tape == tape && w.clock.readings == [] && w.disk.durable == Some(QUEUED)
    ensures w.replies == [] && w.answers == [] && w.disk.journal == map[] && w.disk.received == 0
  {
    hide World.Good, World.Settled, Step, Keeps;
    var clock := new Clock(tape);
    w := new World(policy, clock, true, failing, (uri: string) => reply, (host: string) => ["a"]);
    Begin(w, Raw(0));
    EnqueuedIsQueued(policy);
    Upkeep(w, DoEnqueue("u", 0, None, None));
  }

  /** Over these ports the network always serves the target. */
  lemma AlwaysServed(replies: seq<Reply>, answers: seq<Answer>)
    requires forall i :: 0 <= i < |answers| ==> answers[i].addresses == ["a"]
    requires forall i :: 0 <= i < |replies| ==> replies[i].response == PLAIN
    ensures forall budget :: !Stopped(POLICY, WEB, "u", 0, budget, replies, 0, answers, 0)
    ensures replies != [] ==> SnapshotOf(WEB, "u", 0, replies, 0).Some?
  {
    assert FirstAllowed(POLICY, ["a"]).Some? by {
      assert POLICY.allowsAddress(["a"][0]);
    }
  }

  /** An acquisition whose clock reads 0, 5, nothing, 1: the durable elapsed time falls from 5 to 1. */
  method ElapsedTimeFalls() returns (w: World, o: Outcome)
    ensures fresh(w) && w.Good() && o.AcquisitionFailed?
    ensures w.clock.readings == [Some(0.0), Some(5.0), None, Some(1.0)]
    ensures w.disk.durable.Some? && w.disk.durable.value.budget.elapsed == 1.0
    ensures exists i :: 0 <= i < |w.disk.saves| && w.disk.saves[i].cp.budget.elapsed == 5.0
    ensures Falls(w.disk.saves, 0)
  {
    hide World.Good, World.Settled, Answers;
    w := Prepare(POLICY, [Some(0.0), Some(5.0), None, Some(1.0)], {}, PLAIN);
    o := AcquireServed(w);
    ghost var s := w.disk.saves;
    ghost var k :| 0 <= k <= |s| &&
              Timeline(o, SnapshotOf(WEB, "u", 0, w.replies, 0), w.clock.readings, 1, s, k, 0.0, 0.0);
    assert |w.clock.readings| >= 3 && w.clock.readings[1] == Some(5.0) && w.clock.readings[2] == None;
    assert s[k].cp.budget.elapsed == 5.0 && s[|s| - 1].cp.budget.elapsed == 1.0;
  }

  /** An acquisition whose clock reads 0, 5, 7: 12 seconds are recorded where 7 have passed. */
  method TimeCountsTwice() returns (w: World, o: Outcome)
    ensures fresh(w) && w.Good() && o.Acquired?
    ensures w.clock.readings == [Some(0.0), Some(5.0), Some(7.0)]
    ensures o.cp.budget.elapsed == 12.0
  {
    hide World.Good, World.Settled, Answers;
    w := Prepare(POLICY, [Some(0.0), Some(5.0), Some(7.0)], {}, PLAIN);
    o := AcquireServed(w);
    ghost var s := w.disk.saves;
    ghost var k :| 0 <= k <= |s| &&
              Timeline(o, SnapshotOf(WEB, "u", 0, w.replies, 0), w.clock.readings, 1, s, k, 0.0, 0.0);
  }

  lemma PlainAnswers(w: World)
    requires w.Good() && w.failing == {} && Answers(w, PLAIN)
    ensures w.faults == 0
    ensures forall i :: 0 <= i < |w.answers| ==> w.answers[i].addresses == ["a"]
    ensures forall i :: 0 <= i < |w.replies| ==> w.replies[i].response == PLAIN
    ensures forall i :: 0 <= i < |w.clock.readings| && i < |w.clock.tape| ==> w.clock.readings[i] == w.clock.tape[i]
  {
    w.ReliableHasNoFaults();
  }

  /** `acquire` on the prepared world. */
  method AcquireServed(w: World) returns (o: Outcome)
    requires w.Good() && w.Settled() && w.policy == POLICY && w.disk.durable == Some(QUEUED)
    requires w.failing == {} && Answers(w, PLAIN)
    requires |w.clock.tape| >= 1 && w.clock.tape[0] == Some(0.0) && w.clock.readings == [] && w.replies == [] &&
             w.answers == []
    modifies w, w.clock
    ensures w.Good() && w.replies != []
    ensures forall i :: 0 <= i < |w.clock.readings| && i < |w.clock.tape| ==> w.clock.readings[i] == w.clock.tape[i]
    ensures |w.clock.readings| >= 1
    ensures Concluded(o, SnapshotOf(WEB, "u", 0, w.replies, 0), w.clock.readings, 1, w.disk.saves, 0, 0.0, 0.0)
    ensures SnapshotOf(WEB, "u", 0, w.replies, 0).Some?
    ensures o.AcquisitionFailed? ==>
              TimedAtLast(w.disk.saves, w.clock.readings, 0.0, 0.0) && w.disk.durable == Some(o.cp)
    ensures o.AcquisitionFailed? || o.Acquired? ==> w.disk.saves != [] && w.disk.saves[|w.disk.saves| - 1].cp == o.cp
    ensures o.Acquired? ==> CountedTwice(w.disk.saves, o.cp, 0.0, 0.0)
  {
    hide World.Good, World.Settled, Answers, Refuses, Reaches, FirstPass;
    NothingIsRefused();
    PlainAnswers(w);
    ghost var before := |w.disk.saves|;
    o := Acquire(w, WEB, QUEUED, TARGET, None, None);
    PlainAnswers(w);
    AlwaysServed(w.replies, w.answers);
    if w.disk.durable.Some? {
      LastSaveIsDurable(w);
    }
  }

  lemma LastSaveIsDurable(w: World)
    requires w.Good() && w.disk.durable.Some?
    ensures w.disk.saves != [] && w.disk.saves[|w.disk.saves| - 1].cp == w.disk.durable.value
  {
    hide World.Good, TargetsSafe, Charged, JournalSafe, IntentsFirst;
    w.Present();
  }

  // ----- a policy fetch whose snapshot cannot be built

  const NO_SNAPSHOT: Web := WEB.(snapshot := (requested, uri, status, headers, chain, depth) => None)

  /** Over these ports a fetch always ends in a response that cannot be marked. */
  lemma NeverMarkable(web: Web, replies: seq<Reply>, answers: seq<Answer>)
    requires forall requested, uri, status, headers, chain, depth ::
               web.snapshot(requested, uri, status, headers, chain, depth).None?
    requires forall i :: 0 <= i < |answers| ==> answers[i].addresses == ["a"]
    requires forall i :: 0 <= i < |replies| ==> replies[i].response == PLAIN
    ensures !Served(POLICY, web, "u", 0, replies, 0)
    ensures forall budget :: Stopped(POLICY, web, "u", 0, budget, replies, 0, answers, 0) ==>
              Unmarkable(POLICY, web, "u", 0, replies, 0)
  {
    assert FirstAllowed(POLICY, ["a"]).Some? by {
      assert POLICY.allowsAddress(["a"][0]);
    }
  }

  lemma FetchIsNotRefused(d: Disk)
    requires d.journal == map[]
    ensures !HttpPolicyFetch.RefusesFetch(d, POLICY, NO_SNAPSHOT, QUEUED, "u", 0, None)
  {
  }

  /** A policy fetch whose clock reads 0, 5, 1: the durable elapsed time falls from 5 to 1. */
  method FetchTimeFalls() returns (w: World, o: HttpPolicyFetch.PolicyOutcome)
    ensures fresh(w) && w.Good() && o.FetchFailed?
    ensures w.clock.readings == [Some(0.0), Some(5.0), Some(1.0)]
    ensures |w.disk.saves| >= 2 && w.disk.durable == Some(w.disk.saves[|w.disk.saves| - 1].cp)
    ensures w.disk.saves[|w.disk.saves| - 2].cp.budget.elapsed == 5.0 &&
            w.disk.saves[|w.disk.saves| - 1].cp.budget.elapsed == 1.0
  {
    hide World.Good, Answers, World.Settled, Stopped, Unmarkable, Served;
    w := Prepare(POLICY, [Some(0.0), Some(5.0), Some(1.0)], {}, PLAIN);
    PlainAnswers(w);
    FetchIsNotRefused(w.disk);
    ghost var before := |w.disk.saves|;
    o := HttpPolicyFetch.Fetch(w, NO_SNAPSHOT, QUEUED, "u", 0, None);
    PlainAnswers(w);
    NeverMarkable(HttpPolicyFetch.Checked(NO_SNAPSHOT), w.replies, w.answers);
    assert StartRead(w.clock.readings, 0);
    assert Unmarkable(POLICY, HttpPolicyFetch.Checked(NO_SNAPSHOT), "u", 0, w.replies, 0);
    LastSaveIsDurable(w);
  }

  // ----- a save that fails

  /** At most five bytes, in at most two requests, with one retry. */
  const FIVE_BYTES: Policy := Policy(0, 2, 5, 1, 0, None, 0.0, _ => true, _ => true)

  const FIVE: Response := Response(200, [], [0, 0, 0, 0, 0], false, NoLocation)

  /** The target after `attempts` starts and nothing else of note. */
  function After(status: Status, attempts: nat, requests: nat, bytes: nat, lastError: Option<string>): Checkpoint {
    Checkpoint(Raw(0), [Target(TARGET, "u", 0, status, attempts, bytes, [], [], lastError, None, None)],
               Budget(requests, bytes, 0.0))
  }

  lemma OneTarget(t: Target, u: Target)
    requires t.id == u.id == TARGET
    ensures FindIn([t], TARGET) == Some(t) && ReplaceIn([t], u) == [u]
  {
  }

  lemma FirstStart()
    ensures !Refuses(FIVE_BYTES, WEB, QUEUED, TARGET, None, None)
    ensures FindIn(QUEUED.targets, TARGET) == Some(QUEUED.targets[0])
    ensures Start(QUEUED, TARGET, FIVE_BYTES, None) == Ok(After(InProgress, 1, 1, 0, None))
    ensures RecordBytes(After(InProgress, 1, 1, 0, None), TARGET, 5) == Ok(After(InProgress, 1, 1, 5, None))
  {
    var queued, started, counted := After(Queued, 0, 0, 0, None), After(InProgress, 1, 1, 0, None),
        After(InProgress, 1, 1, 5, None);
    assert QUEUED == queued;
    OneTarget(queued.targets[0], started.targets[0]);
    OneTarget(started.targets[0], counted.targets[0]);
  }

  lemma InterruptedAgain()
    ensures Step(After(InProgress, 1, 1, 0, None), FIVE_BYTES, DoRecoverInterrupted("interrupted")) ==
            Ok(After(Failed, 1, 1, 0, Some("interrupted")))
  {
    TrimmedIsItself("interrupted");
    assert InterruptAll(After(InProgress, 1, 1, 0, None).targets, "interrupted") ==
           After(Failed, 1, 1, 0, Some("interrupted")).targets;
  }

  lemma QueuedAgain()
    ensures Step(After(Failed, 1, 1, 0, Some("interrupted")), FIVE_BYTES, DoRequeue(TARGET)) ==
              Ok(After(Queued, 1, 1, 0, None))
  {
    OneTarget(After(Failed, 1, 1, 0, Some("interrupted")).targets[0], After(Queued, 1, 1, 0, None).targets[0]);
  }

  lemma SecondStart()
    ensures !Refuses(FIVE_BYTES, WEB, After(Queued, 1, 1, 0, None), TARGET, None, None)
    ensures FindIn(After(Queued, 1, 1, 0, None).targets, TARGET) == Some(After(Queued, 1, 1, 0, None).targets[0])
    ensures Start(After(Queued, 1, 1, 0, None), TARGET, FIVE_BYTES, None) == Ok(After(InProgress, 2, 2, 0, None))
  {
    OneTarget(After(Queued, 1, 1, 0, None).targets[0], After(InProgress, 2, 2, 0, None).targets[0]);
  }

  lemma AlwaysReached(w: World)
    requires w.policy == FIVE_BYTES && Answers(w, FIVE)
    ensures Reaches(w, WEB, "u")
  {
    assert FirstAllowed(FIVE_BYTES, ["a"]).Some? by {
      assert FIVE_BYTES.allowsAddress(["a"][0]);
    }
  }

  /** The account of the first response is lost: five bytes are received and none is charged. */
  method LoseAccount() returns (w: World)
    ensures fresh(w) && fresh(w.clock) && w.Good() && w.Settled() && w.policy == FIVE_BYTES && Answers(w, FIVE)
    ensures w.failing == {After(InProgress, 1, 1, 5, None)}
    ensures w.disk.received == 5 && w.disk.durable == Some(After(InProgress, 1, 1, 0, None))
    ensures w.clock.tape == [Some(0.0), Some(0.0)] && |w.clock.readings| == 1
  {
    hide World.Good, World.Settled, Start, RecordBytes, Progress, Reported, Refuses, Answers, Reaches;
    w := Prepare(FIVE_BYTES, [Some(0.0), Some(0.0)], {After(InProgress, 1, 1, 5, None)}, FIVE);
    FirstStart();
    AlwaysReached(w);
    var o := Acquire(w, WEB, QUEUED, TARGET, None, None);
    FiveArrived(w, 0);
    assert StartRead(w.clock.readings, 0);
    assert |w.replies[0].response.body| == 5;
    assert o.CheckpointLost?;
  }

  /**
   With a limit of five bytes, ten are received: the save that counts the first response fails, and the target is
   tried again. The ports do their part but for this one save.
   */
  method MoreThanMaxReceived() returns (w: World)
    ensures fresh(w) && w.Good() && w.policy.maxBytes == 5 && w.disk.received >= 10
    ensures Answers(w, FIVE) && w.failing == {After(InProgress, 1, 1, 5, None)}
  {
    hide World.Good, World.Settled, Start, Step, RecordBytes, Progress, Reported, Refuses, Answers, Reaches;
    w := LoseAccount();
    InterruptedAgain();
    Upkeep(w, DoRecoverInterrupted("interrupted"));
    QueuedAgain();
    Upkeep(w, DoRequeue(TARGET));
    SecondStart();
    AlwaysReached(w);
    ghost var n := |w.replies|;
    var o := Acquire(w, WEB, After(Queued, 1, 1, 0, None), TARGET, None, None);
    FiveArrived(w, n);
    assert StartRead(w.clock.readings, 1);
    assert |w.replies[n].response.body| == 5;
  }

  lemma FiveArrived(w: World, n: nat)
    requires w.Good() && Answers(w, FIVE)
    ensures n < |w.replies| && w.replies[n].cap == 5 ==> |w.replies[n].response.body| == 5
    ensures forall i :: 0 <= i < |w.clock.readings| && i < |w.clock.tape| ==> w.clock.readings[i] == w.clock.tape[i]
  {
    w.ReliableHasNoFaults();
  }
}
