/**
 How the durable elapsed time moves over the checkpoints one service call saves
 (src/tarkka/application/http_acquisition.py, src/tarkka/application/http_policy_fetch.py).
 */
module ElapsedTime {
  import opened Wrappers
  import opened TraversalCheckpoints
  import opened DurableStores

  /** The saves from index `from` on all carry the elapsed time `base`. */
  ghost predicate Level(saves: seq<Save>, from: nat, base: real) {
    forall i :: from <= i < |saves| ==> saves[i].cp.budget.elapsed == base
  }

  lemma LevelJoins(saved: seq<Save>, saves: seq<Save>, from: nat, base: real)
    requires from <= |saved| && saved <= saves && Level(saved, from, base) && Level(saves, |saved|, base)
    ensures Level(saves, from, base)
  {
  }

  /** Some save carries less elapsed time than an earlier one. */
  ghost predicate Falls(saves: seq<Save>, from: nat) {
    exists i, j :: from <= i < j < |saves| && saves[i].cp.budget.elapsed > saves[j].cp.budget.elapsed
  }

  lemma StartIsLevel(before: seq<Save>, saves: seq<Save>, active: Checkpoint)
    requires saves == before || (|saves| == |before| + 1 && before <= saves && saves[|before|].cp == active)
    ensures Level(saves, |before|, active.budget.elapsed) && !Falls(saves, |before|)
  {
  }

  /** The save carries the time from `startedAt` to its own clock reading, on top of `base`. */
  predicate Timed(x: Save, base: real, startedAt: real) {
    x.cp.budget.elapsed == base + (x.readAt - startedAt)
  }

  /** The last two saves both took the time from the clock, and the clock read earlier for the later one. */
  predicate Regresses(saves: seq<Save>, from: nat, base: real, startedAt: real) {
    && |saves| >= from + 2
    && Timed(saves[|saves| - 2], base, startedAt) && Timed(saves[|saves| - 1], base, startedAt)
    && saves[|saves| - 1].readAt < saves[|saves| - 2].readAt
  }

  /** The saves from `k` on: none, one timed save, or two of which the second is timed or adds its time to the first. */
  predicate Tail(saves: seq<Save>, k: nat, base: real, startedAt: real) {
    && k <= |saves| <= k + 2
    && (forall i :: k <= i < |saves| ==> saves[i].readAt >= startedAt)
    && (|saves| > k ==> Timed(saves[k], base, startedAt))
    && (|saves| == k + 2 ==>
          Timed(saves[k + 1], base, startedAt) || Timed(saves[k + 1], saves[k].cp.budget.elapsed, startedAt))
  }

  lemma TailStarts(saves: seq<Save>, base: real, startedAt: real)
    ensures Tail(saves, |saves|, base, startedAt)
  {
  }

  /** The exact condition under which one call lowers the durable elapsed time. */
  lemma FallsIffRegresses(saves: seq<Save>, from: nat, k: nat, base: real, startedAt: real)
    requires from <= k && Tail(saves, k, base, startedAt) && Level(saves[..k], from, base)
    ensures Falls(saves, from) <==> Regresses(saves, from, base, startedAt)
  {
    assert forall i :: from <= i < k ==> saves[i] == saves[..k][i];
    if Regresses(saves, from, base, startedAt) {
      assert saves[|saves| - 2].cp.budget.elapsed > saves[|saves| - 1].cp.budget.elapsed;
    }
    if i, j :| from <= i < j < |saves| && saves[i].cp.budget.elapsed > saves[j].cp.budget.elapsed {
      assert i == k && j == k + 1;
    }
  }

  /** One call's saves: level ones, then the tail of its conclusion. */
  lemma EndOfCall(level: seq<Save>, saves: seq<Save>, from: nat, base: real, startedAt: real)
    requires from <= |level| && level <= saves && Level(level, from, base) && Tail(saves, |level|, base, startedAt)
    ensures Falls(saves, from) <==> Regresses(saves, from, base, startedAt)
  {
    hide Tail;
    assert saves[..|level|] == level;
    FallsIffRegresses(saves, from, |level|, base, startedAt);
  }

  /** The last save took its time from the last reading. */
  predicate TimedAtLast(saves: seq<Save>, readings: seq<Option<real>>, base: real, startedAt: real) {
    && saves != [] && readings != []
    && Timed(saves[|saves| - 1], base, startedAt) && readings[|readings| - 1] == Some(saves[|saves| - 1].readAt)
  }

  /** The elapsed time a failure from `active` would record is, on a steady clock, not below the durable one. */
  ghost predicate TimeKept(w: World, active: Checkpoint, startedAt: real)
    reads w, w.clock
  {
    w.clock.backward == 0 ==>
      w.clock.latest.Some? && Recorded(w.disk) <= active.budget.elapsed + (w.clock.latest.value - startedAt)
  }

  /** The durable budget is that of `active`, apart from the elapsed time. */
  ghost predicate SameSpending(d: Disk, active: Checkpoint) {
    d.durable.Some? && d.durable.value.budget == active.budget.(elapsed := d.durable.value.budget.elapsed)
  }

  /** The completed checkpoint carries the time up to finalization twice. */
  predicate CountedTwice(saves: seq<Save>, cp: Checkpoint, base: real, startedAt: real) {
    && |saves| >= 2 && saves[|saves| - 1].cp == cp
    && Timed(saves[|saves| - 2], base, startedAt)
    && Timed(saves[|saves| - 1], saves[|saves| - 2].cp.budget.elapsed, startedAt)
  }

  /** What is recorded on completion is the time that passed exactly when finalization began at the start. */
  lemma TrueTimeIff(saves: seq<Save>, cp: Checkpoint, base: real, startedAt: real)
    requires CountedTwice(saves, cp, base, startedAt)
    ensures cp.budget.elapsed ==
              base + (saves[|saves| - 2].readAt - startedAt) + (saves[|saves| - 1].readAt - startedAt)
    ensures cp.budget.elapsed == base + (saves[|saves| - 1].readAt - startedAt) <==>
              saves[|saves| - 2].readAt == startedAt
  {
  }
}
