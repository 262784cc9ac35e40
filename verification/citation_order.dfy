/** The order of a citation traversal: which relation comes before which, and when each work is found. */
module CitationOrder {
  import opened Ordering
  import opened CitationTraversal
  import opened CitationGraph

  /** The work each listed relation was followed from, and the relation each work but the root was found by. */
  datatype Trace = Trace(froms: seq<Uuid>, found: seq<nat>)

  /** Following `r` from `v` comes before following `s` from `w`: nearer first, then by work, then by relation key. */
  ghost predicate Before(q: Query, v: Uuid, r: Relation, w: Uuid, s: Relation)
    requires q.Reachable(v) && q.Reachable(w)
  {
    || q.Distance(v) < q.Distance(w)
    || (q.Distance(v) == q.Distance(w) && v < w)
    || (v == w && KeyBefore(r, s))
  }

  ghost predicate Follows(q: Query, relations: seq<Relation>, froms: seq<Uuid>) {
    && |froms| == |relations|
    && forall i :: 0 <= i < |froms| ==> q.Reachable(froms[i]) && q.Allowed(froms[i], relations[i])
  }

  ghost predicate InOrder(q: Query, relations: seq<Relation>, froms: seq<Uuid>)
    requires Follows(q, relations, froms)
  {
    forall i, j :: 0 <= i < j < |froms| ==> Before(q, froms[i], relations[i], froms[j], relations[j])
  }

  ghost predicate Touches(r: Relation, w: Uuid) {
    r.subject == w || r.object_ == w
  }

  /** `works[k + 1]` was found by relation `found[k]`, the first listed one that touches it. */
  ghost predicate FoundBy(q: Query, works: seq<Uuid>, relations: seq<Relation>, t: Trace, k: nat)
    requires Follows(q, relations, t.froms) && k < |t.found| && |works| == |t.found| + 1
  {
    && t.found[k] < |relations|
    && q.Leads(t.froms[t.found[k]], relations[t.found[k]], works[k + 1])
    && forall i :: 0 <= i < t.found[k] ==> !Touches(relations[i], works[k + 1])
  }

  ghost predicate Ordered(q: Query, works: seq<Uuid>, relations: seq<Relation>, t: Trace) {
    && Follows(q, relations, t.froms)
    && InOrder(q, relations, t.froms)
    && |works| == |t.found| + 1
    && (forall k :: 0 <= k < |t.found| ==> FoundBy(q, works, relations, t, k))
    && (forall k, l :: 0 <= k < l < |t.found| ==> t.found[k] < t.found[l])
  }

  /** Everything followed so far comes before following `r` from `w`. */
  ghost predicate AllBefore(q: Query, relations: seq<Relation>, froms: seq<Uuid>, w: Uuid, r: Relation)
    requires Follows(q, relations, froms) && q.Reachable(w)
  {
    forall i :: 0 <= i < |froms| ==> Before(q, froms[i], relations[i], w, r)
  }

  lemma {:induction false} FollowKeepsOrder(q: Query, relations: seq<Relation>, froms: seq<Uuid>, w: Uuid, r: Relation)
    requires Follows(q, relations, froms) && InOrder(q, relations, froms)
    requires q.Reachable(w) && q.Allowed(w, r) && AllBefore(q, relations, froms, w, r)
    ensures Follows(q, relations + [r], froms + [w]) && InOrder(q, relations + [r], froms + [w])
  {
    hide Query.Walk, Query.Reachable, Query.Distance, Query.Allowed, KeyBefore;
  }

  /** Following one relation keeps the order, and a work it finds is touched by no relation before. */
  lemma {:induction false} TakeKeepsOrdered(q: Query, s: Progress, t: Trace, w: Uuid, r: Relation, n: Uuid)
    returns (u: Trace)
    requires Ordered(q, s.works, s.relations, t) && Sound(q, s.works, s.relations)
    requires q.Reachable(w) && q.Leads(w, r, n) && AllBefore(q, s.relations, t.froms, w, r)
    ensures u.froms == t.froms + [w]
    ensures Ordered(q, Take(s, r, n).works, Take(s, r, n).relations, u)
  {
    NeighborIsOtherEnd(q, w, r);
    hide Query.Walk, Query.Reachable, Query.Distance, Query.Leads, Query.Allowed, KeyBefore, Before;
    u := Trace(t.froms + [w], if n in s.works then t.found else t.found + [|s.relations|]);
    var next := Take(s, r, n);
    FollowKeepsOrder(q, s.relations, t.froms, w, r);
    forall k: nat | k < |u.found| ensures FoundBy(q, next.works, next.relations, u, k) {
      if k < |t.found| {
        assert FoundBy(q, s.works, s.relations, t, k);
        assert next.works[k + 1] == s.works[k + 1];
      } else {
        assert forall i :: 0 <= i < |s.relations| ==> s.relations[i] in s.relations;
      }
    }
    forall k, l | 0 <= k < l < |u.found| ensures u.found[k] < u.found[l] {
      assert FoundBy(q, s.works, s.relations, t, k);
    }
  }

  /** A batch in key order. */
  ghost predicate KeyOrdered(batch: seq<Relation>) {
    forall i, j :: 0 <= i < j < |batch| ==> KeyBefore(batch[i], batch[j])
  }

  ghost predicate BatchAfter(q: Query, relations: seq<Relation>, froms: seq<Uuid>, w: Uuid, batch: seq<Relation>)
    requires Follows(q, relations, froms) && q.Reachable(w)
  {
    forall r :: r in batch ==> AllBefore(q, relations, froms, w, r)
  }

  lemma {:induction false} RestAfter(q: Query, relations: seq<Relation>, froms: seq<Uuid>, w: Uuid,
                                     batch: seq<Relation>)
    requires Follows(q, relations, froms) && q.Reachable(w) && batch != [] && KeyOrdered(batch)
    requires BatchAfter(q, relations, froms, w, batch) && q.Allowed(w, batch[0])
    ensures Follows(q, relations + [batch[0]], froms + [w]) && KeyOrdered(batch[1..])
    ensures BatchAfter(q, relations + [batch[0]], froms + [w], w, batch[1..])
  {
    hide Query.Walk, Query.Reachable, Query.Distance, Query.Allowed, KeyBefore;
    forall r | r in batch[1..] ensures AllBefore(q, relations + [batch[0]], froms + [w], w, r) {
      var j :| 0 <= j < |batch[1..]| && batch[1..][j] == r;
      assert batch[j + 1] == r && KeyBefore(batch[0], batch[j + 1]);
      assert r in batch && AllBefore(q, relations, froms, w, r);
    }
  }

  lemma {:induction false} AbsorbKeepsOrdered(q: Query, d: nat, w: Uuid, batch: seq<Relation>, s: Progress, t: Trace)
    returns (u: Trace)
    requires Layered(q, d, s) && w in s.works && q.Reachable(w) && q.Distance(w) == d
    requires Distinct(batch) && |s.relations| + |batch| <= q.p.maxRelations
    requires forall r :: r in batch ==> q.Allowed(w, r) && r !in s.relations
    requires Ordered(q, s.works, s.relations, t) && KeyOrdered(batch) && BatchAfter(q, s.relations, t.froms, w, batch)
    ensures var next := Absorb(q.p, w, batch, s).progress; Ordered(q, next.works, next.relations, u)
    ensures t.froms <= u.froms && forall i :: |t.froms| <= i < |u.froms| ==> u.froms[i] == w
    decreases |batch|
  {
    hide Query.Walk, Query.Reachable, Query.Adjacent, Query.Distance, Query.Leads, Ordered, KeyOrdered, BatchAfter;
    u := t;
    if batch != [] {
      var r := batch[0];
      assert r in batch;
      NeighborIsOtherEnd(q, w, r);
      var n := Neighbor(w, r).value;
      if n in s.works || |s.works| < q.p.maxWorks {
        OrderedFollows(q, s.works, s.relations, t);
        BatchAfterFirst(q, s.relations, t.froms, w, batch);
        TakeKeepsLayers(q, d, w, r, n, s);
        BatchTail(q, w, batch, s.relations);
        var v := TakeKeepsOrdered(q, s, t, w, r, n);
        RestAfter(q, s.relations, t.froms, w, batch);
        u := AbsorbKeepsOrdered(q, d, w, batch[1..], Take(s, r, n), v);
      }
    }
  }

  lemma OrderedFollows(q: Query, works: seq<Uuid>, relations: seq<Relation>, t: Trace)
    requires Ordered(q, works, relations, t)
    ensures Follows(q, relations, t.froms)
  {
  }

  lemma BatchAfterFirst(q: Query, relations: seq<Relation>, froms: seq<Uuid>, w: Uuid, batch: seq<Relation>)
    requires Follows(q, relations, froms) && q.Reachable(w) && batch != [] && BatchAfter(q, relations, froms, w, batch)
    ensures AllBefore(q, relations, froms, w, batch[0])
  {
    assert batch[0] in batch;
  }

  lemma BatchInKeyOrder(q: Query, w: Uuid, limit: nat, excluded: set<Uuid>)
    ensures KeyOrdered(RelationsFor(q.repo, q.p, w, limit, excluded))
  {
    hide Listed, KeyBefore;
  }

  /** Everything so far was followed from a nearer work, or from one of this level before all that are left. */
  ghost predicate Behind(q: Query, relations: seq<Relation>, froms: seq<Uuid>, d: nat, rest: seq<Uuid>)
    requires Follows(q, relations, froms)
  {
    forall i :: 0 <= i < |froms| ==>
                  || q.Distance(froms[i]) < d
                  || (q.Distance(froms[i]) == d && forall w :: w in rest ==> froms[i] < w)
  }

  lemma {:induction false} BehindIsBefore(q: Query, relations: seq<Relation>, froms: seq<Uuid>, d: nat, rest: seq<Uuid>,
                                          batch: seq<Relation>)
    requires Follows(q, relations, froms) && rest != [] && Behind(q, relations, froms, d, rest)
    requires q.Reachable(rest[0]) && q.Distance(rest[0]) == d
    ensures BatchAfter(q, relations, froms, rest[0], batch)
  {
    hide Query.Walk, Query.Reachable, Query.Distance, Query.Allowed, KeyBefore;
    assert rest[0] in rest;
  }

  lemma {:induction false} StillBehind(q: Query, relations: seq<Relation>, froms: seq<Uuid>, later: seq<Relation>,
                                       more: seq<Uuid>, d: nat, rest: seq<Uuid>)
    requires Follows(q, relations, froms) && Follows(q, later, more) && rest != []
    requires Behind(q, relations, froms, d, rest) && froms <= more
    requires forall i :: |froms| <= i < |more| ==> more[i] == rest[0]
    requires q.Reachable(rest[0]) && q.Distance(rest[0]) == d
    requires forall i, j :: 0 <= i < j < |rest| ==> rest[i] < rest[j]
    ensures Behind(q, later, more, d, rest[1..])
  {
    hide Query.Walk, Query.Reachable, Query.Distance, Query.Allowed;
    forall i | 0 <= i < |more|
      ensures q.Distance(more[i]) < d || (q.Distance(more[i]) == d && forall w :: w in rest[1..] ==> more[i] < w)
    {
      if i < |froms| {
        assert more[i] == froms[i];
        assert forall w :: w in rest[1..] ==> w in rest;
      }
    }
  }

  lemma {:induction false} ExpandKeepsOrdered(q: Query, d: nat, frontier: set<Uuid>, rest: seq<Uuid>, s: Progress,
                                              t: Trace)
    returns (u: Trace)
    requires q.repo.Conforms()
    requires Layered(q, d, s) && |s.relations| < q.p.maxRelations
    requires forall w :: w in frontier ==> q.Reachable(w) && q.Distance(w) == d
    requires forall w :: w in rest ==> w in frontier
    requires forall w :: w in frontier ==> w in rest || q.Complete(w, s.relations)
    requires forall i, j :: 0 <= i < j < |rest| ==> rest[i] < rest[j]
    requires Ordered(q, s.works, s.relations, t) && Behind(q, s.relations, t.froms, d, rest)
    ensures var next := Expand(q.repo, q.p, frontier, rest, s).progress;
            && Ordered(q, next.works, next.relations, u)
            && Behind(q, next.relations, u.froms, d, [])
    decreases |rest|
  {
    hide Query.Walk, Query.Reachable, Query.Adjacent, NearestFirst, RelationsFor, HasUnseen, Absorb, Ordered, Behind,
      KeyOrdered, BatchAfter, Query.Distance, Query.Leads, Followed, Discovered;
    u := t;
    OrderedFollows(q, s.works, s.relations, t);
    if rest != [] {
      var w := rest[0];
      assert w in rest;
      var limit := q.p.maxRelations - |s.relations|;
      BatchIsListing(q, w, limit, Ids(s.relations));
      BatchInKeyOrder(q, w, limit, Ids(s.relations));
      var batch := RelationsFor(q.repo, q.p, w, limit, Ids(s.relations));
      forall r | r in batch ensures r !in s.relations {}
      BehindIsBefore(q, s.relations, t.froms, d, rest, batch);
      AbsorbKeepsLayers(q, d, w, batch, s);
      var step := Absorb(q.p, w, batch, s);
      u := AbsorbKeepsOrdered(q, d, w, batch, s, t);
      OrderedFollows(q, step.progress.works, step.progress.relations, u);
      StillBehind(q, s.relations, t.froms, step.progress.relations, u.froms, d, rest);
      if step.Grown? && |step.progress.relations| < q.p.maxRelations {
        FullBatchCompletes(q, w, limit, s.relations);
        assert rest == [w] + rest[1..];
        u := ExpandKeepsOrdered(q, d, frontier, rest[1..], step.progress, u);
      } else {
        NothingBehind(q, step.progress.relations, u.froms, d, rest[1..]);
      }
    }
  }

  lemma NothingBehind(q: Query, relations: seq<Relation>, froms: seq<Uuid>, d: nat, rest: seq<Uuid>)
    requires Follows(q, relations, froms) && Behind(q, relations, froms, d, rest)
    ensures Behind(q, relations, froms, d, [])
  {
    hide Query.Walk, Query.Reachable, Query.Distance, Query.Allowed;
  }

  lemma NextLevelBehind(q: Query, relations: seq<Relation>, froms: seq<Uuid>, d: nat, rest: seq<Uuid>)
    requires Follows(q, relations, froms) && Behind(q, relations, froms, d, [])
    ensures Behind(q, relations, froms, d + 1, rest)
  {
    hide Query.Walk, Query.Reachable, Query.Distance, Query.Allowed;
  }

  lemma {:induction false} LevelsAreOrdered(q: Query, depth: nat, reached: nat, frontier: set<Uuid>,
                                            works: seq<Uuid>, relations: seq<Relation>, t: Trace)
    returns (u: Trace)
    requires q.repo.Conforms() && depth <= q.p.maxDepth && |relations| <= q.p.maxRelations
    requires Settled(q, depth, frontier, works, relations)
    requires Ordered(q, works, relations, t) && Behind(q, relations, t.froms, depth, SortIds(frontier))
    ensures var res := Levels(q.repo, q.p, q.root, depth, reached, frontier, works, relations);
            Ordered(q, res.works, res.relations, u)
    decreases q.p.maxDepth - depth
  {
    hide Query.Walk, Query.Reachable, Expand, HasUnseen, SortIds, Sound, NearestFirst, Discovered, NearerListed,
      Followed, NothingMissing, Ordered, Behind, Query.Distance;
    u := t;
    if depth < q.p.maxDepth && |relations| < q.p.maxRelations {
      var s := Progress(works, relations, {});
      ExpandLevel(q, depth, frontier, works, relations);
      u := ExpandKeepsOrdered(q, depth, frontier, SortIds(frontier), s, t);
      var step := Expand(q.repo, q.p, frontier, SortIds(frontier), s);
      var next := step.progress;
      if !step.Cut? && next.next != {} {
        OrderedFollows(q, next.works, next.relations, u);
        NextLevelBehind(q, next.relations, u.froms, depth, SortIds(next.next));
        u := LevelsAreOrdered(q, depth + 1, depth + 1, next.next, next.works, next.relations, u);
      }
    }
  }

  /**
   Main result: relations come in the order in which they are followed - from nearer works first, from works of one
   distance in ascending order, from one work in ascending order of kind, subject, object and identity - and works in
   the order in which they are first touched.
   */
  lemma TraversalIsOrdered(q: Query)
    requires q.repo.Conforms() && q.p.Valid()
    ensures var res := TraverseSpec(q.repo, q.p, q.root); exists t :: Ordered(q, res.works, res.relations, t)
  {
    hide Query.Walk, Query.Reachable, Query.Distance, Query.Leads, Settled, Levels;
    RootIsSettled(q);
    var none := Trace([], []);
    assert Ordered(q, [q.root], [], none);
    var t := LevelsAreOrdered(q, 0, 0, {q.root}, [q.root], [], none);
    var res := Levels(q.repo, q.p, q.root, 0, 0, {q.root}, [q.root], []);
    assert TraverseSpec(q.repo, q.p, q.root) == res && Ordered(q, res.works, res.relations, t);
  }
}
