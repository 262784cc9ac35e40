/** Crash recovery of an acquisition that was being finalized (src/tarkka/application/http_acquisition.py). */
module HttpRecovery {
  import opened Wrappers
  import opened PythonText
  import opened Identities
  import opened TraversalCheckpoints
  import opened TraversalRuns
  import opened DurableStores
  import opened HttpExchange
  import opened HttpAcquisition

  datatype Recovery = Recovered(cp: Checkpoint) | RecoveryRefused | RecoveryInterrupted(cp: Checkpoint) | RecoveryRaised

  const ABANDON_REASON: string := "http finalization outputs were not durable"

  lemma {:induction false} AbandonHolds(d: Disk, p: Policy, cp: Checkpoint, id: Uuid, elapsed: real)
    requires Holds(d, p, cp, id, Finalizing) && elapsed >= cp.budget.elapsed
    ensures Abandon(cp, id, ABANDON_REASON, elapsed).Ok?
    ensures var next := Abandon(cp, id, ABANDON_REASON, elapsed).value;
            && Holds(d, p, next, id, Failed) && next.budget == cp.budget.(elapsed := elapsed)
            && FindIn(next.targets, id).value.artifact == None
  {
    hide TargetsSafe, FindIn, ReplaceIn, Accounted;
    TrimmedIsItself(ABANDON_REASON);
    AccountedIsValid(cp, p);
    var since := elapsed - cp.budget.elapsed;
    assert cp.budget.elapsed + since == elapsed;
    MoveHolds(d, p, cp, DoAbandon(id, ABANDON_REASON, elapsed - cp.budget.elapsed));
  }

  /** The durable checkpoint of this traversal, as the repository finds it by identity. */
  function DurableFor(durable: Option<Checkpoint>, id: Uuid): Option<Checkpoint> {
    if durable.Some? && durable.value.id == id then durable else None
  }

  /** The calls recovery refuses: no such target, one not being finalized, or one the durable checkpoint lacks. */
  predicate RefusesRecovery(supplied: Checkpoint, durable: Option<Checkpoint>, id: Uuid) {
    var found := FindIn(supplied.targets, id);
    || found.None? || (found.value.status != Finalizing && found.value.status != Completed)
    || (DurableFor(durable, supplied.id).Some? && FindIn(durable.value.targets, id).None?)
  }

  /** The supplied target names the outputs the durable one does. */
  predicate SameIdentity(supplied: Checkpoint, durable: Option<Checkpoint>, id: Uuid) {
    && FindIn(supplied.targets, id).Some? && DurableFor(durable, supplied.id).Some? &&
       FindIn(durable.value.targets, id).Some?
    && FindIn(supplied.targets, id).value.artifact == FindIn(durable.value.targets, id).value.artifact
    && FindIn(supplied.targets, id).value.observation == FindIn(durable.value.targets, id).value.observation
  }

  /**
   The checkpoint an interrupted recovery hands back: the durable one, or the earlier one if the save failed; without
   a durable one of the supplied identity, the supplied one.
   */
  predicate HandsBack(cp: Checkpoint, supplied: Checkpoint, before: Option<Checkpoint>, after: Option<Checkpoint>,
                      faultsBefore: nat, faults: nat) {
    if DurableFor(before, supplied.id).None? then cp == supplied
    else if faults == faultsBefore then after == Some(cp)
    else before == Some(cp)
  }

  /** The durable target's status. */
  predicate Stands(durable: Option<Checkpoint>, id: Uuid, status: Status) {
    durable.Some? && FindIn(durable.value.targets, id).Some? && FindIn(durable.value.targets, id).value.status == status
  }

  /** The durable target is being finalized, and both its outputs are durable. */
  ghost predicate Finishable(d: Disk, id: Uuid) {
    && Stands(d.durable, id, Finalizing)
    && var t := FindIn(d.durable.value.targets, id).value;
       t.artifact.Some? && t.observation.Some? && OutputsDurable(d, t.artifact.value, t.observation.value)
  }

  /** The durable target is being finalized, and an output is absent. */
  ghost predicate Unfinishable(d: Disk, id: Uuid) {
    && Stands(d.durable, id, Finalizing)
    && var t := FindIn(d.durable.value.targets, id).value;
       t.artifact.Some? && t.observation.Some? &&
       (t.artifact.value !in d.artifacts || t.observation.value !in d.observations)
  }

  /**
   `recover_finalization`: no network and no new outputs. For a supplied target that names the durable one's
   outputs: a completed one is returned unchanged; one being finalized is completed if both outputs are durable
   and given up for retry if one is absent, unless a port or the clock fails.
   */
  method RecoverFinalization(w: World, supplied: Checkpoint, id: Uuid) returns (r: Recovery)
    requires w.Good() && w.Settled()
    modifies w`disk, w`history, w`faults, w.clock
    ensures w.Good() && w.Settled() && Onward(w) && OnlySaved(old(w.disk), w.disk)
    ensures r.RecoveryRefused? ==> RefusesRecovery(supplied, old(w.disk).durable, id)
    ensures RefusesRecovery(supplied, old(w.disk).durable, id) && w.faults == old(w.faults) ==> r.RecoveryRefused?
    ensures r.RecoveryRefused? || r.RecoveryRaised? ==> w.disk == old(w.disk)
    ensures r.RecoveryInterrupted? ==>
              HandsBack(r.cp, supplied, old(w.disk).durable, w.disk.durable, old(w.faults), w.faults)
    ensures r.Recovered? ==>
              && w.disk.durable == Some(r.cp) && Stands(w.disk.durable, id, Completed)
              && SameIdentity(supplied, w.disk.durable, id) && TargetSafe(w.disk, FindIn(r.cp.targets, id).value)
    ensures w.disk.durable != old(w.disk).durable ==>
              && (Finishable(old(w.disk), id) || Unfinishable(old(w.disk), id))
              && Stands(w.disk.durable, id, if Finishable(old(w.disk), id) then Completed else Failed)
    ensures SameIdentity(supplied, old(w.disk).durable, id) && !r.RecoveryRefused? ==>
              && (Stands(old(w.disk).durable, id, Completed) && w.faults == old(w.faults) ==>
                    r.Recovered? && w.disk == old(w.disk) && w.clock.readings == old(w.clock.readings))
              && (Orderly(w) && Finishable(old(w.disk), id) ==> r.Recovered?)
              && (Orderly(w) && Unfinishable(old(w.disk), id) ==>
                    r.RecoveryInterrupted? && Stands(w.disk.durable, id, Failed))
  {
    hide Keeps, World.Good, World.Settled, TargetsSafe, FindIn, Charged, OutputsDurable, OnlySaved, TargetSafe, Stands,
      Finishable, Unfinishable;
    KeepsItself(w.disk);
    NothingSaved(w.disk);
    var found := FindIn(supplied.targets, id);
    if found.None? || (found.value.status != Finalizing && found.value.status != Completed) {
      return RecoveryRefused;
    }
    var stored := w.GetCheckpoint();
    if stored.None? {
      return RecoveryRaised;
    }
    if DurableFor(stored.value, supplied.id).None? {
      return RecoveryInterrupted(supplied);
    }
    r := RecoverFrom(w, supplied, stored.value.value, id);
  }

  /** What is durable decides: unchanged if completed, reconciled with the stores if being finalized. */
  method RecoverFrom(w: World, supplied: Checkpoint, durable: Checkpoint, id: Uuid) returns (r: Recovery)
    requires w.Good() && w.Settled() && w.disk.durable == Some(durable) && durable.id == supplied.id
    requires FindIn(supplied.targets, id).Some?
    modifies w`disk, w`history, w`faults, w.clock
    ensures w.Good() && w.Settled() && Onward(w) && OnlySaved(old(w.disk), w.disk)
    ensures r.RecoveryRefused? <==> FindIn(durable.targets, id).None?
    ensures r.RecoveryRefused? || r.RecoveryRaised? ==> w.disk == old(w.disk)
    ensures r.RecoveryInterrupted? ==>
              if w.faults == old(w.faults) then w.disk.durable == Some(r.cp) else r.cp == durable
    ensures r.Recovered? ==>
              && w.disk.durable == Some(r.cp) && Stands(w.disk.durable, id, Completed)
              && SameIdentity(supplied, w.disk.durable, id) && TargetSafe(w.disk, FindIn(r.cp.targets, id).value)
    ensures w.disk.durable != old(w.disk).durable ==>
              && (Finishable(old(w.disk), id) || Unfinishable(old(w.disk), id))
              && Stands(w.disk.durable, id, if Finishable(old(w.disk), id) then Completed else Failed)
    ensures SameIdentity(supplied, old(w.disk).durable, id) ==>
              && (Stands(old(w.disk).durable, id, Completed) ==>
                    r.Recovered? && w.disk == old(w.disk) && w.clock.readings == old(w.clock.readings))
              && (Orderly(w) && Finishable(old(w.disk), id) ==> r.Recovered?)
              && (Orderly(w) && Unfinishable(old(w.disk), id) ==>
                    r.RecoveryInterrupted? && Stands(w.disk.durable, id, Failed))
  {
    hide Keeps, World.Good, World.Settled, TargetsSafe, FindIn, Charged, OutputsDurable, OnlySaved, TargetSafe;
    KeepsItself(w.disk);
    NothingSaved(w.disk);
    var found := FindIn(supplied.targets, id);
    DurableIsHeld(w);
    var target := FindIn(durable.targets, id);
    if target.None? {
      return RecoveryRefused;
    }
    FoundIsSafe(w.disk, durable.targets, id);
    var t := target.value;
    if found.value.artifact != t.artifact || found.value.observation != t.observation {
      return RecoveryInterrupted(durable);
    }
    if t.status == Completed {
      return Recovered(durable);
    }
    if t.status != Finalizing {
      return RecoveryInterrupted(durable);
    }
    r := RecoverPending(w, durable, id);
  }

  /** The durable target is being finalized: read the clock, then decide from the stores. */
  method RecoverPending(w: World, durable: Checkpoint, id: Uuid) returns (r: Recovery)
    requires w.Good() && w.Settled() && w.disk.durable == Some(durable) &&
             Holds(w.disk, w.policy, durable, id, Finalizing)
    modifies w`disk, w`history, w`faults, w.clock
    ensures w.Good() && w.Settled() && Onward(w) && OnlySaved(old(w.disk), w.disk)
    ensures r.Recovered? || r.RecoveryInterrupted? || r.RecoveryRaised?
    ensures r.RecoveryRaised? ==> w.disk == old(w.disk)
    ensures FindIn(durable.targets, id).Some?
    ensures r.RecoveryInterrupted? ==>
              if w.faults == old(w.faults) then w.disk.durable == Some(r.cp) else r.cp == durable
    ensures r.Recovered? ==>
              && w.disk.durable == Some(r.cp) && Stands(w.disk.durable, id, Completed) && r.cp.id == durable.id
              && FindIn(r.cp.targets, id).value.artifact == FindIn(durable.targets, id).value.artifact
              && FindIn(r.cp.targets, id).value.observation == FindIn(durable.targets, id).value.observation
              && TargetSafe(w.disk, FindIn(r.cp.targets, id).value)
    ensures w.disk.durable != old(w.disk).durable ==>
              && (Finishable(old(w.disk), id) || Unfinishable(old(w.disk), id))
              && Stands(w.disk.durable, id, if Finishable(old(w.disk), id) then Completed else Failed)
    ensures Orderly(w) && Finishable(old(w.disk), id) ==> r.Recovered?
    ensures Orderly(w) && Unfinishable(old(w.disk), id) ==> r.RecoveryInterrupted? && Stands(w.disk.durable, id, Failed)
  {
    hide Keeps, World.Good, World.Settled, TargetsSafe, FindIn, Charged, OutputsDurable, OnlySaved;
    KeepsItself(w.disk);
    NothingSaved(w.disk);
    FoundIsSafe(w.disk, durable.targets, id);
    var t := FindIn(durable.targets, id).value;
    var clock := w.ReadClock();
    if clock.None? {
      return RecoveryRaised;
    }
    r := Reconcile(w, durable, id, t.artifact.value, t.observation.value, clock.value);
    if r.Recovered? {
      FoundIsSafe(w.disk, r.cp.targets, id);
    }
  }

  /** The durable target is being finalized: complete it, or give it up for retry. */
  method Reconcile(w: World, durable: Checkpoint, id: Uuid, sha: Sha, observation: Uuid, startedAt: real)
    returns (r: Recovery)
    requires w.Good() && w.Settled()
    requires w.disk.durable == Some(durable) && Holds(w.disk, w.policy, durable, id, Finalizing)
    requires Names(durable, id, Finalizing, sha, observation)
    modifies w`disk, w`history, w`faults, w.clock
    ensures w.Good() && w.Settled() && Onward(w) && OnlySaved(old(w.disk), w.disk) && w.disk.durable.Some?
    ensures r.Recovered? || r.RecoveryInterrupted? || r.RecoveryRaised?
    ensures r.RecoveryRaised? ==> w.disk == old(w.disk) && (Hitched(w.clock, startedAt) || old(w.faults) < w.faults)
    ensures r.RecoveryInterrupted? ==>
              if w.faults == old(w.faults) then w.disk.durable == Some(r.cp) else r.cp == durable
    ensures r.Recovered? ==> w.disk.durable == Some(r.cp) && Names(r.cp, id, Completed, sha, observation) &&
                             OutputsDurable(w.disk, sha, observation) && TargetsSafe(w.disk, r.cp.targets) &&
                             r.cp.id == durable.id
    ensures w.disk.durable != old(w.disk).durable ==>
              && (OutputsDurable(old(w.disk), sha, observation) ||
                  sha !in old(w.disk).artifacts || observation !in old(w.disk).observations)
              && Stands(w.disk.durable, id, if OutputsDurable(old(w.disk), sha, observation) then Completed else Failed)
    ensures w.faults == old(w.faults) && !Hitched(w.clock, startedAt) ==>
              && (OutputsDurable(old(w.disk), sha, observation) ==> r.Recovered?)
              && (sha !in old(w.disk).artifacts || observation !in old(w.disk).observations ==>
                    r.RecoveryInterrupted? && Stands(w.disk.durable, id, Failed))
  {
    hide Keeps, World.Good, World.Settled, TargetsSafe, FindIn, Abandon, Charged, MaySave, Naming;
    KeepsItself(w.disk);
    var elapsed;
    var there := w.Exists(sha);
    if there.None? {
      return RecoveryRaised;
    }
    var observed := w.GetObservation(observation);
    if observed.None? {
      return RecoveryRaised;
    }
    if !there.value || observed.value.None? {
      elapsed := Elapsed(w, durable, startedAt);
      if elapsed.None? {
        return RecoveryRaised;
      }
      AbandonHolds(w.disk, w.policy, durable, id, elapsed.value);
      var failed := Abandon(durable, id, ABANDON_REASON, elapsed.value).value;
      HoldsMaySave(w.disk, w.policy, failed, id, Failed, w.clock.Last(), w.clock.backward == 0);
      var saved := w.SaveCheckpoint(failed);
      return RecoveryInterrupted(if saved then failed else durable);
    }
    if observed.value.value != ArtifactUuid(sha) {
      return RecoveryInterrupted(durable);
    }
    var f := CompleteDurably(w, durable, id, sha, observation, startedAt);
    match f
    case Done(completed) => r := Recovered(completed);
    case Broken => r := RecoveryRaised;
    case _ => r := RecoveryInterrupted(durable);
  }
}
