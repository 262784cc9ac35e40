/**
 Every run of the services over one set of durable stores, with a crash allowed at any
 instant: calls are interleaved with crashes that leave the disk as it was before the
 interrupted call, or after any one of the effects it has had.
 */
module AcquisitionRuns {
  import opened Wrappers
  import opened PythonText
  import opened Identities
  import opened TraversalCheckpoints
  import opened TraversalRuns
  import opened DurableStores
  import opened HttpExchange
  import opened HttpAcquisition
  import opened HttpRecovery
  import opened HttpPolicyFetch

  /** Frontier upkeep between acquisitions: it charges nothing and completes nothing. */
  predicate IsUpkeep(op: Op) {
    op.DoEnqueue? || op.DoRecoverInterrupted? || op.DoRequeue? || op.DoSkip?
  }

  lemma UpkeepIsFree(cp: Checkpoint, p: Policy, op: Op)
    requires IsUpkeep(op) && Step(cp, p, op).Ok?
    ensures Step(cp, p, op).value.budget == cp.budget
  {
    hide FindIn, FindUri, ReplaceIn, InterruptAll, Strip;
  }

  lemma UpkeepIsSafe(d: Disk, cp: Checkpoint, p: Policy, op: Op)
    requires TargetsSafe(d, cp.targets) && IsUpkeep(op) && Step(cp, p, op).Ok?
    ensures TargetsSafe(d, Step(cp, p, op).value.targets)
  {
    hide TargetsSafe, FindIn, FindUri, ReplaceIn, InterruptAll, Strip;
    match op
    case DoEnqueue(uri, depth, link, parent) => EnqueueIsSafe(d, cp, uri, depth, link, parent);
    case DoRecoverInterrupted(reason) => InterruptIsSafe(d, cp, reason);
    case _ => MoveIsSafe(d, cp, p, op);
  }

  lemma EnqueueIsSafe(d: Disk, cp: Checkpoint, uri: Uri, depth: nat, link: Option<Uuid>, parent: Option<Uuid>)
    requires TargetsSafe(d, cp.targets) && Enqueue(cp, uri, depth, link, parent).Ok?
    ensures TargetsSafe(d, Enqueue(cp, uri, depth, link, parent).value.targets)
  {
    hide Target.Valid, OutputsDurable;
    var existing := FindUri(cp.targets, uri);
    if existing.Some? {
      var t := existing.value;
      var k := TargetAt(cp.targets, t);
      assert TargetSafe(d, cp.targets[k]);
      var d' := if t.status.Queued? && depth < t.depth then depth else t.depth;
      EnrichedIsValid(t, d', link, parent);
      ReplaceIsSafe(d, cp.targets,
                    t.(depth := d', links := AppendUuid(t.links, link), parents := AppendUuid(t.parents, parent)));
    } else {
      var t := Target(TargetUuid(cp.id, uri), uri, depth, Queued, 0, 0, AppendUuid([], link), AppendUuid([], parent),
                      None, None, None);
      if parent.Some? {
        var i := TargetAt(cp.targets, FindIn(cp.targets, parent.value).value);
        assert Has(cp.targets, parent.value);
      }
      NewTargetIsValid(cp.targets, t);
      assert TargetSafe(d, t);
    }
  }

  lemma {:induction false} InterruptIsSafe(d: Disk, cp: Checkpoint, reason: string)
    requires TargetsSafe(d, cp.targets) && Strip(reason) != []
    ensures TargetsSafe(d, InterruptAll(cp.targets, Strip(reason)))
  {
    hide Target.Valid, Strip, OutputsDurable;
    forall i | 0 <= i < |cp.targets|
      ensures TargetSafe(d, TraversalCheckpoints.Interrupted(cp.targets[i], Strip(reason)))
    {
      assert TargetSafe(d, cp.targets[i]);
      InterruptedIsValid(cp.targets[i], reason);
    }
  }

  /** Apply one upkeep transition to the durable checkpoint and save it. */
  method Upkeep(w: World, op: Op)
    requires w.Good() && w.Settled() && IsUpkeep(op)
    modifies w`disk, w`history, w`faults
    ensures w.Good() && w.Settled() && Onward(w) && OnlySaved(old(w.disk), w.disk)
    ensures w.disk.durable == old(w.disk).durable ||
            (old(w.disk).durable.Some? && Step(old(w.disk).durable.value, w.policy, op).Ok? &&
             w.disk.durable == Some(Step(old(w.disk).durable.value, w.policy, op).value))
    ensures w.reliable && w.failing == {} ==> w.faults == old(w.faults)
    ensures w.reliable && old(w.disk).durable.Some? ==>
              var next := Step(old(w.disk).durable.value, w.policy, op);
              next.Ok? && !w.SaveFails(next.value) ==> w.faults == old(w.faults)
    ensures w.faults == old(w.faults) && old(w.disk).durable.Some? &&
            Step(old(w.disk).durable.value, w.policy, op).Ok? ==>
              w.disk.durable == Some(Step(old(w.disk).durable.value, w.policy, op).value)
  {
    hide Keeps, World.Good, World.Settled, Safe, TargetsSafe, Step, Charged;
    KeepsItself(w.disk);
    if w.disk.durable.None? {
      return;
    }
    var cp := w.disk.durable.value;
    var next := Step(cp, w.policy, op);
    if next.Err? {
      return;
    }
    DurableIsHeld(w);
    UpkeepIsFree(cp, w.policy, op);
    UpkeepIsSafe(w.disk, cp, w.policy, op);
    UpkeepIsHeld(w.disk, w.policy, cp, op);
    SettledSlack(w, next.value);
    var ok := SaveHeld(w, next.value);
  }

  lemma UpkeepIsHeld(d: Disk, p: Policy, cp: Checkpoint, op: Op)
    requires Charged(d, p, cp) && IsUpkeep(op) && Step(cp, p, op).Ok? && TargetsSafe(d, Step(cp, p, op).value.targets)
    requires Step(cp, p, op).value.budget == cp.budget
    ensures Held(d, p, Step(cp, p, op).value)
  {
    hide Accounted, Step;
    StepKeepsAccounted(cp, p, op);
  }

  /** A new traversal starts from an empty checkpoint. */
  method Begin(w: World, id: Uuid)
    requires w.Good() && w.Settled()
    modifies w`disk, w`history, w`faults
    ensures w.Good() && w.Settled() && Onward(w) && OnlySaved(old(w.disk), w.disk)
    ensures w.reliable && !w.SaveFails(Empty(id).cp) ==> w.faults == old(w.faults)
    ensures w.faults == old(w.faults) && old(w.disk).durable.None? ==> w.disk.durable == Some(Empty(id).cp)
  {
    hide Keeps, World.Good, Safe, Charged, Naming;
    KeepsItself(w.disk);
    if w.disk.durable.None? {
      EmptyIsCharged(w, id);
      var ok := w.SaveCheckpoint(Empty(id).cp);
    }
  }

  lemma EmptyIsCharged(w: World, id: Uuid)
    requires w.Good() && w.disk.durable.None?
    ensures MaySave(w.disk, w.policy, Empty(id).cp, w.clock.backward == 0)
  {
    hide World.Good, JournalSafe, IntentsFirst;
    w.Present();
    EmptyHolds(id, w.policy);
    assert Inv(Ledger(Empty(id).cp, 0, 0), w.policy);
  }

  /** The process dies: the disk is as the call found it, or as one of its effects left it. */
  method Crash(w: World, since: nat) returns (k: nat)
    requires w.Good() && since < |w.history| && !w.reliable
    modifies w`disk, w`history, w`faults, w.clock
    ensures w.Good() && w.Settled()
    ensures since <= k < |old(w.history)| && w.disk == old(w.history)[k] && w.history == old(w.history)[..k + 1]
  {
    var any: nat := *;
    k := if since <= any < |w.history| then any else since;
    w.Crash(k);
  }

  /**
   Main result: whatever the services, their ports, the clock and the crashes do, every instant is sound,
   and between calls all received bytes are accounted for, apart from one response for each fault.
   */
  method AnyRun(w: World, web: Web, steps: nat)
    requires w.policy.Valid() && w.Good() && w.Settled()
    modifies w, w.clock
    ensures w.Good() && w.Settled()
  {
    hide World.Good, World.Settled;
    for i := 0 to steps
      invariant w.Good() && w.Settled()
    {
      w.HasInstants();
      var since := |w.history| - 1;
      var choice: int := *;
      var id: Uuid := *;
      var uri: string := *;
      if choice == 0 {
        Begin(w, id);
      } else if choice == 1 {
        var op: Op := *;
        if IsUpkeep(op) {
          Upkeep(w, op);
        }
      } else if choice == 2 {
        var supplied: Checkpoint := *;
        var r := RecoverFinalization(w, supplied, id);
      } else if w.disk.durable.Some? {
        var waited: Option<real> := *;
        if choice == 3 {
          var given: Option<string> := *;
          var o := Acquire(w, web, w.disk.durable.value, id, given, waited);
        } else {
          var depth: nat := *;
          var o := Fetch(w, web, w.disk.durable.value, uri, depth, waited);
        }
      }
      var dies: bool := *;
      if dies && !w.reliable {
        var k := Crash(w, since);
      }
    }
  }

  /** What a sound instant means: the guarantees of the protocol, spelled out. */
  lemma SoundMeans(d: Disk, p: Policy, faults: nat, steady: bool, t: Target)
    requires Sound(d, p, faults, steady)
    ensures d.durable.Some? && t in d.durable.value.targets ==>
              && t.Valid() && t.attempts <= p.maxRetries + 1
              && (t.status.Completed? && t.artifact.Some? ==>
                    t.artifact.value in d.artifacts && t.observation.value in d.observations
                    && d.observations[t.observation.value] == ArtifactUuid(t.artifact.value))
              && (t.status.Finalizing? ==> Intent(t.artifact.value, t.observation.value) in d.intents)
    ensures d.durable.Some? ==>
              var cp := d.durable.value;
              && cp.Valid() && d.calls <= cp.budget.requests <= p.maxRequests
              && cp.budget.bytes <= p.maxBytes
              && cp.budget.bytes <= d.received <= cp.budget.bytes + p.maxBytes * (faults + 1)
    ensures d.received <= p.maxBytes * (faults + 1) && (faults == 0 ==> d.received <= p.maxBytes)
    ensures d.durable.None? ==> d.calls == 0
    ensures forall m :: m in d.everMarked ==>
              || (m.requestedUri in d.journal && d.journal[m.requestedUri] == m)
              || (m.sha in d.artifacts && m.observation in d.observations
                  && d.observations[m.observation] == ArtifactUuid(m.sha))
    ensures forall sha :: sha in d.artifacts && sha !in d.misfiled ==> exists i :: i in d.intents && i.sha == sha
    ensures forall id :: id in d.observations ==> exists i :: i in d.intents && i.observation == id
    ensures steady ==> Rising(d.saves)
  {
    hide Target.Valid, Rising, Naming, Marker.Valid;
    ExcusedIsProduct(p, faults + 1);
    if d.durable.Some? {
      AccountedIsValid(d.durable.value, p);
      if t in d.durable.value.targets {
        var k := TargetAt(d.durable.value.targets, t);
        assert TargetSafe(d, d.durable.value.targets[k]);
        if t.status.Finalizing? {
          FinalizingNames(d.durable.value, t);
        }
      }
    }
  }

  lemma FinalizingNames(cp: Checkpoint, t: Target)
    requires t in cp.targets && t.Valid() && t.status.Finalizing?
    ensures Intent(t.artifact.value, t.observation.value) in Naming(cp)
  {
  }
}
