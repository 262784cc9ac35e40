/**
 What a citation traversal means: walks over the relations a policy allows,
 graph distance, and the properties every traversal result has.
 */
module CitationGraph {
  import opened Wrappers
  import opened Ordering
  import opened CitationTraversal

  datatype Query = Query(repo: Repository, p: Policy, root: Uuid)
  {
    /** `r` is of an allowed kind and leads from `v` to `w` in the policy's direction. */
    ghost predicate Leads(v: Uuid, r: Relation, w: Uuid) {
      && r in repo.store
      && r.kind in p.kinds
      && match p.direction
         case Outbound => r.subject == v && r.object_ == w
         case Inbound => r.object_ == v && r.subject == w
         case Both => (r.subject == v && r.object_ == w) || (r.object_ == v && r.subject == w)
    }

    /** The policy lets the traversal follow `r` when standing on `w`. */
    ghost predicate Allowed(w: Uuid, r: Relation) {
      Leads(w, r, r.subject) || Leads(w, r, r.object_)
    }

    ghost predicate Adjacent(v: Uuid, w: Uuid) {
      exists r :: Leads(v, r, w)
    }

    /** There is a walk of exactly `n` allowed relations from the root to `w`. */
    ghost predicate Walk(w: Uuid, n: nat)
      decreases n
    {
      if n == 0 then w == root
      else exists v :: Walk(v, n - 1) && Adjacent(v, w)
    }

    ghost predicate Reachable(w: Uuid) {
      exists n: nat :: Walk(w, n)
    }

    ghost predicate Shortest(w: Uuid, n: nat) {
      Walk(w, n) && forall k: nat :: k < n ==> !Walk(w, k)
    }

    /** Length of a shortest walk. */
    ghost function Distance(w: Uuid): (n: nat)
      requires Reachable(w)
      ensures Walk(w, n)
      ensures forall k: nat :: k < n ==> !Walk(w, k)
    {
      var m: nat :| Walk(w, m);
      ShortestExists(w, m);
      var n: nat :| Shortest(w, n);
      n
    }

    lemma {:induction false} ShortestExists(w: Uuid, m: nat)
      requires Walk(w, m)
      ensures exists n: nat :: Shortest(w, n)
    {
      if k: nat :| k < m && Walk(w, k) {
        ShortestExists(w, k);
      } else {
        assert Shortest(w, m);
      }
    }

    /** Every relation allowed from `w` has been listed. */
    ghost predicate Complete(w: Uuid, relations: seq<Relation>) {
      forall r :: Allowed(w, r) ==> r in relations
    }
  }

  lemma StepAway(q: Query, v: Uuid, w: Uuid)
    requires q.Reachable(v) && q.Adjacent(v, w)
    ensures q.Reachable(w) && q.Distance(w) <= q.Distance(v) + 1
  {
    assert q.Walk(w, q.Distance(v) + 1);
  }

  lemma StepAlong(q: Query, v: Uuid, r: Relation, w: Uuid)
    requires q.Reachable(v) && q.Leads(v, r, w)
    ensures q.Reachable(w) && q.Distance(w) <= q.Distance(v) + 1
  {
    assert q.Adjacent(v, w);
    StepAway(q, v, w);
  }

  lemma StepBack(q: Query, w: Uuid) returns (v: Uuid)
    requires q.Reachable(w) && q.Distance(w) > 0
    ensures q.Reachable(v) && q.Distance(v) == q.Distance(w) - 1 && q.Adjacent(v, w)
  {
    v :| q.Walk(v, q.Distance(w) - 1) && q.Adjacent(v, w);
    StepAway(q, v, w);
  }

  lemma RootIsNearest(q: Query)
    ensures q.Reachable(q.root) && q.Distance(q.root) == 0
    ensures forall w :: q.Reachable(w) && q.Distance(w) == 0 ==> w == q.root
  {
    assert q.Walk(q.root, 0);
  }

  /** The neighbor the loop computes is the other end. */
  lemma NeighborIsOtherEnd(q: Query, v: Uuid, r: Relation)
    ensures q.Allowed(v, r) ==> Neighbor(v, r).Some? && q.Leads(v, r, Neighbor(v, r).value)
    ensures forall w: Uuid :: q.Leads(v, r, w) ==> q.Allowed(v, r) && Neighbor(v, r) == Some(w)
  {
  }

  // ----- listing contract

  lemma ListedIsAllowed(q: Query, w: Uuid, limit: nat, excluded: set<Uuid>, r: Relation)
    requires q.repo.Conforms() && r in Listed(q.repo, q.p, w, limit, excluded)
    ensures q.Allowed(w, r) && r.id !in excluded
  {
    if q.p.FollowsOut() && r in ListedFrom(q.repo, q.p, w, limit, excluded) {
      assert r in q.repo.From(w, q.p.kinds, excluded);
    } else {
      assert r in q.repo.To(w, q.p.kinds, excluded);
    }
  }

  lemma AllowedIsListed(q: Query, w: Uuid, limit: nat, excluded: set<Uuid>, r: Relation)
    requires q.repo.Conforms() && q.Allowed(w, r) && r.id !in excluded
    requires |Listed(q.repo, q.p, w, limit, excluded)| < limit
    ensures r in Listed(q.repo, q.p, w, limit, excluded)
  {
    var all := Listed(q.repo, q.p, w, limit, excluded);
    if q.p.FollowsOut() && r.subject == w {
      var listed := ListedFrom(q.repo, q.p, w, limit, excluded);
      assert IsListing(listed, q.repo.From(w, q.p.kinds, excluded), limit);
      DistinctSize(listed);
      SubsetSize(Elements(listed), all);
      assert r in q.repo.From(w, q.p.kinds, excluded);
    } else {
      var listed := ListedTo(q.repo, q.p, w, limit, excluded);
      assert IsListing(listed, q.repo.To(w, q.p.kinds, excluded), limit);
      DistinctSize(listed);
      SubsetSize(Elements(listed), all);
      assert r in q.repo.To(w, q.p.kinds, excluded);
    }
  }

  /** One batch: distinct allowed relations not seen yet, and all of them when below the limit. */
  lemma BatchIsListing(q: Query, w: Uuid, limit: nat, excluded: set<Uuid>)
    requires q.repo.Conforms()
    ensures var batch := RelationsFor(q.repo, q.p, w, limit, excluded);
            && Distinct(batch)
            && (forall r :: r in batch ==> q.Allowed(w, r) && r.id !in excluded)
            && (|batch| < limit ==> forall r :: q.Allowed(w, r) && r.id !in excluded ==> r in batch)
  {
    var batch := RelationsFor(q.repo, q.p, w, limit, excluded);
    hide Repository.Conforms, Listed, Query.Allowed;
    forall r | r in batch ensures q.Allowed(w, r) && r.id !in excluded {
      ListedIsAllowed(q, w, limit, excluded, r);
    }
    forall r | q.Allowed(w, r) && r.id !in excluded && |batch| < limit ensures r in batch {
      AllowedIsListed(q, w, limit, excluded, r);
    }
  }

  lemma UnseenMeansIncomplete(q: Query, frontier: set<Uuid>, relations: seq<Relation>)
    requires q.repo.Conforms() && forall r :: r in relations ==> r in q.repo.store
    ensures HasUnseen(q.repo, q.p, frontier, Ids(relations)) <==> exists w :: w in frontier && !q.Complete(w, relations)
  {
    forall w ensures RelationsFor(q.repo, q.p, w, 1, Ids(relations)) == [] <==> q.Complete(w, relations) {
      BatchIsListing(q, w, 1, Ids(relations));
      var batch := RelationsFor(q.repo, q.p, w, 1, Ids(relations));
      forall r | r in q.repo.store ensures r.id in Ids(relations) <==> r in relations {}
      if batch != [] {
        assert batch[0] in batch;
      }
    }
  }

  // ----- invariants of the running lists

  /** Nothing repeats, the limits hold, and both ends of each relation are listed works. */
  ghost predicate Sound(q: Query, works: seq<Uuid>, relations: seq<Relation>) {
    && Distinct(works)
    && Distinct(relations)
    && works != [] && works[0] == q.root
    && |works| <= q.p.maxWorks
    && |relations| <= q.p.maxRelations
    && forall r :: r in relations ==>
                     r in q.repo.store && r.kind in q.p.kinds && r.subject in works && r.object_ in works
  }

  /** Works are listed nearest first, each reachable within `d`. */
  ghost predicate NearestFirst(q: Query, works: seq<Uuid>, d: nat) {
    && (forall w :: w in works ==> q.Reachable(w) && q.Distance(w) <= d)
    && (forall i, j :: 0 <= i < j < |works| && q.Reachable(works[i]) && q.Reachable(works[j]) ==>
                         q.Distance(works[i]) <= q.Distance(works[j]))
  }

  /** An earlier listed work, exactly one step nearer, has a listed relation leading to `works[j]`. */
  ghost predicate DiscoveredAt(q: Query, works: seq<Uuid>, relations: seq<Relation>, j: nat)
    requires j < |works|
  {
    exists i: nat, r ::
      && i < j
      && r in relations
      && q.Leads(works[i], r, works[j])
      && q.Reachable(works[i]) && q.Reachable(works[j])
      && q.Distance(works[j]) == q.Distance(works[i]) + 1
  }

  /** Every listed work but the root was discovered along a listed relation. */
  ghost predicate Discovered(q: Query, works: seq<Uuid>, relations: seq<Relation>) {
    forall j :: 0 < j < |works| ==> DiscoveredAt(q, works, relations, j)
  }

  /** `r` was followed from a listed work nearer than `d`. */
  ghost predicate FollowedFrom(q: Query, works: seq<Uuid>, r: Relation, d: nat) {
    exists v, w :: v in works && w in works && q.Leads(v, r, w) && q.Reachable(v) && q.Distance(v) < d
  }

  ghost predicate Followed(q: Query, works: seq<Uuid>, relations: seq<Relation>, d: nat) {
    forall r :: r in relations ==> FollowedFrom(q, works, r, d)
  }

  /** No work is listed while a nearer one is not: only the furthest level can be cut half-way. */
  ghost predicate NearerListed(q: Query, works: seq<Uuid>) {
    forall v, w :: w in works && q.Reachable(v) && q.Reachable(w) && q.Distance(v) < q.Distance(w) ==> v in works
  }

  /** While level `d` is being expanded. */
  ghost predicate Layered(q: Query, d: nat, s: Progress) {
    && Sound(q, s.works, s.relations)
    && NearestFirst(q, s.works, d + 1)
    && Discovered(q, s.works, s.relations)
    && Followed(q, s.works, s.relations, d + 1)
    && (forall w :: q.Reachable(w) && q.Distance(w) <= d ==> w in s.works)
    && (forall w :: w in s.next ==> w in s.works && q.Distance(w) == d + 1)
    && (forall w :: w in s.works && q.Distance(w) == d + 1 ==> w in s.next)
    && (forall w :: q.Reachable(w) && q.Distance(w) < d ==> q.Complete(w, s.relations))
  }

  /** Before level `d` is expanded: its frontier is exactly the works at distance `d`. */
  ghost predicate Settled(q: Query, d: nat, frontier: set<Uuid>, works: seq<Uuid>, relations: seq<Relation>) {
    && Layered(q, d, Progress(works, relations, {}))
    && Followed(q, works, relations, d)
    && forall w :: w in frontier <==> q.Reachable(w) && q.Distance(w) == d
  }

  /** The limit named by an early return is the one that is used up. */
  ghost predicate CutIsTight(p: Policy, step: Step)
    requires step.Cut?
  {
    match step.limit
    case ByDepth => false
    case ByWorks => |step.progress.works| == p.maxWorks
    case ByRelations => |step.progress.relations| == p.maxRelations
  }

  lemma TakeKeepsSound(q: Query, w: Uuid, r: Relation, n: Uuid, s: Progress)
    requires Sound(q, s.works, s.relations) && w in s.works
    requires q.Leads(w, r, n) && r !in s.relations
    requires n in s.works || |s.works| < q.p.maxWorks
    requires |s.relations| < q.p.maxRelations
    ensures var t := Take(s, r, n);
            Sound(q, t.works, t.relations) && forall x :: x in t.works <==> x in s.works || x == n
  {
    var t := Take(s, r, n);
    assert forall x :: x in t.works <==> x in s.works || x == n;
    forall x | x in t.relations
      ensures x in q.repo.store && x.kind in q.p.kinds && x.subject in t.works && x.object_ in t.works
    {
      if x in s.relations {
      } else {
        assert x == r;
      }
    }
  }

  lemma AppendKeepsOrder(q: Query, d: nat, works: seq<Uuid>, n: Uuid)
    requires NearestFirst(q, works, d) && q.Reachable(n) && q.Distance(n) == d
    ensures NearestFirst(q, works + [n], d)
  {
    hide Query.Walk, Query.Reachable, Query.Distance;
    var all := works + [n];
    forall i, j | 0 <= i < j < |all| && q.Reachable(all[i]) && q.Reachable(all[j])
      ensures q.Distance(all[i]) <= q.Distance(all[j])
    {
      assert all[i] == works[i] && works[i] in works;
    }
  }

  lemma TakeKeepsDiscovered(q: Query, w: Uuid, r: Relation, n: Uuid, s: Progress)
    requires Discovered(q, s.works, s.relations) && w in s.works
    requires q.Leads(w, r, n) && q.Reachable(w) && q.Reachable(n)
    requires n in s.works || q.Distance(n) == q.Distance(w) + 1
    ensures Discovered(q, Take(s, r, n).works, Take(s, r, n).relations)
  {
    hide Query.Walk, Query.Reachable, Query.Distance, Query.Leads;
    var t := Take(s, r, n);
    forall j | 0 < j < |t.works| ensures DiscoveredAt(q, t.works, t.relations, j) {
      if j < |s.works| {
        assert DiscoveredAt(q, s.works, s.relations, j);
        var i: nat, x :| i < j && x in s.relations && q.Leads(s.works[i], x, s.works[j])
                         && q.Reachable(s.works[i]) && q.Distance(s.works[j]) == q.Distance(s.works[i]) + 1;
        assert t.works[i] == s.works[i] && t.works[j] == s.works[j] && x in t.relations;
      } else {
        var i: nat :| i < |s.works| && s.works[i] == w;
        assert t.works[i] == w && t.works[j] == n && r in t.relations;
      }
    }
  }

  lemma TakeKeepsFollowed(q: Query, d: nat, w: Uuid, r: Relation, n: Uuid, s: Progress)
    requires Followed(q, s.works, s.relations, d) && w in s.works
    requires q.Leads(w, r, n) && q.Reachable(w) && q.Distance(w) < d
    ensures Followed(q, Take(s, r, n).works, Take(s, r, n).relations, d)
  {
    hide Query.Walk, Query.Reachable, Query.Distance, Query.Leads;
    var t := Take(s, r, n);
    assert w in t.works && n in t.works;
    forall x | x in t.relations ensures FollowedFrom(q, t.works, x, d) {
      if x in s.relations {
        assert FollowedFrom(q, s.works, x, d);
        var v, u :| v in s.works && u in s.works && q.Leads(v, x, u) && q.Reachable(v) && q.Distance(v) < d;
        assert v in t.works && u in t.works;
      } else {
        assert x == r;
      }
    }
  }

  lemma FollowedFurther(q: Query, works: seq<Uuid>, relations: seq<Relation>, d: nat, e: nat)
    requires Followed(q, works, relations, d) && d <= e
    ensures Followed(q, works, relations, e)
  {
    hide Query.Walk, Query.Reachable, Query.Distance, Query.Leads;
  }

  lemma TakeKeepsLayers(q: Query, d: nat, w: Uuid, r: Relation, n: Uuid, s: Progress)
    requires Layered(q, d, s) && w in s.works && q.Distance(w) == d
    requires q.Leads(w, r, n) && r !in s.relations
    requires n in s.works || |s.works| < q.p.maxWorks
    requires |s.relations| < q.p.maxRelations
    ensures Layered(q, d, Take(s, r, n))
  {
    hide Query.Walk, Query.Reachable, Query.Adjacent, Query.Leads, Sound, Discovered, Followed;
    StepAlong(q, w, r, n);
    TakeKeepsSound(q, w, r, n, s);
    TakeKeepsDiscovered(q, w, r, n, s);
    TakeKeepsFollowed(q, d + 1, w, r, n, s);
    if n !in s.works {
      AppendKeepsOrder(q, d + 1, s.works, n);
    }
    hide NearestFirst;
  }

  lemma {:induction false} AbsorbKeepsLayers(q: Query, d: nat, w: Uuid, batch: seq<Relation>, s: Progress)
    requires Layered(q, d, s) && w in s.works && q.Distance(w) == d
    requires Distinct(batch) && |s.relations| + |batch| <= q.p.maxRelations
    requires forall r :: r in batch ==> q.Allowed(w, r) && r !in s.relations
    ensures var step := Absorb(q.p, w, batch, s);
            && Layered(q, d, step.progress)
            && s.relations <= step.progress.relations
            && (step.Grown? ==> step.progress.relations == s.relations + batch)
            && (step.Cut? ==> !q.Complete(w, step.progress.relations) && CutIsTight(q.p, step))
            && w in step.progress.works
    decreases |batch|
  {
    assert |s.works| <= q.p.maxWorks;
    hide Query.Walk, Query.Reachable, Query.Adjacent, Query.Distance, Query.Leads, Layered;
    if batch != [] {
      var r := batch[0];
      assert r in batch;
      NeighborIsOtherEnd(q, w, r);
      var n := Neighbor(w, r).value;
      if n in s.works || |s.works| < q.p.maxWorks {
        TakeKeepsLayers(q, d, w, r, n, s);
        BatchTail(q, w, batch, s.relations);
        AbsorbKeepsLayers(q, d, w, batch[1..], Take(s, r, n));
      }
    }
  }

  lemma BatchTail(q: Query, w: Uuid, batch: seq<Relation>, relations: seq<Relation>)
    requires batch != [] && Distinct(batch)
    requires forall r :: r in batch ==> q.Allowed(w, r) && r !in relations
    ensures Distinct(batch[1..])
    ensures forall r :: r in batch[1..] ==> q.Allowed(w, r) && r !in relations + [batch[0]]
    ensures relations + batch == relations + [batch[0]] + batch[1..]
  {
  }

  /** A batch below the limit lists everything that was still missing. */
  lemma FullBatchCompletes(q: Query, w: Uuid, limit: nat, relations: seq<Relation>)
    requires q.repo.Conforms() && forall r :: r in relations ==> r in q.repo.store
    requires |RelationsFor(q.repo, q.p, w, limit, Ids(relations))| < limit
    ensures q.Complete(w, relations + RelationsFor(q.repo, q.p, w, limit, Ids(relations)))
  {
    BatchIsListing(q, w, limit, Ids(relations));
    var batch := RelationsFor(q.repo, q.p, w, limit, Ids(relations));
    hide RelationsFor;
    forall r | q.Allowed(w, r) ensures r in relations + batch {
      if r.id in Ids(relations) {
        var x :| x in relations && x.id == r.id;
        assert x == r;
      } else {
        assert r in batch;
      }
    }
  }

  lemma {:induction false} ExpandKeepsLayers(q: Query, d: nat, frontier: set<Uuid>, rest: seq<Uuid>, s: Progress)
    requires q.repo.Conforms()
    requires Layered(q, d, s) && |s.relations| < q.p.maxRelations
    requires forall w :: w in frontier ==> q.Reachable(w) && q.Distance(w) == d
    requires forall w :: w in rest ==> w in frontier
    requires forall w :: w in frontier ==> w in rest || q.Complete(w, s.relations)
    ensures var step := Expand(q.repo, q.p, frontier, rest, s);
            && Layered(q, d, step.progress)
            && (!step.Cut? ==> forall w :: w in frontier ==> q.Complete(w, step.progress.relations))
            && (step.Cut? ==> CutIsTight(q.p, step) &&
                              exists w :: w in frontier && w in step.progress.works &&
                                          !q.Complete(w, step.progress.relations))
    decreases |rest|
  {
    hide Query.Walk, Query.Reachable, Query.Adjacent, NearestFirst, RelationsFor, HasUnseen, Absorb;
    if rest != [] {
      var w := rest[0];
      assert w in rest;
      var limit := q.p.maxRelations - |s.relations|;
      BatchIsListing(q, w, limit, Ids(s.relations));
      var batch := RelationsFor(q.repo, q.p, w, limit, Ids(s.relations));
      forall r | r in batch ensures r !in s.relations {}
      AbsorbKeepsLayers(q, d, w, batch, s);
      var step := Absorb(q.p, w, batch, s);
      var t := step.progress;
      if step.Grown? {
        if |t.relations| == q.p.maxRelations {
          UnseenMeansIncomplete(q, frontier, t.relations);
        } else {
          FullBatchCompletes(q, w, limit, s.relations);
          assert rest == [w] + rest[1..];
          ExpandKeepsLayers(q, d, frontier, rest[1..], t);
        }
      }
    }
  }

  /** A level expanded to its end settles the next one. */
  lemma NextLevelSettled(q: Query, d: nat, frontier: set<Uuid>, s: Progress)
    requires Layered(q, d, s)
    requires forall w :: w in frontier <==> q.Reachable(w) && q.Distance(w) == d
    requires forall w :: w in frontier ==> q.Complete(w, s.relations)
    ensures Settled(q, d + 1, s.next, s.works, s.relations)
  {
    forall w | q.Reachable(w) && q.Distance(w) == d + 1
      ensures w in s.works
    {
      var v := StepBack(q, w);
      var r :| q.Leads(v, r, w);
      NeighborIsOtherEnd(q, v, r);
      assert v in frontier && r in s.relations;
    }
  }

  // ----- the result

  /** No relation the policy allows from a returned work is missing. */
  ghost predicate NothingMissing(q: Query, works: seq<Uuid>, relations: seq<Relation>) {
    forall w :: w in works ==> q.Complete(w, relations)
  }

  /** What the stop flag says. */
  ghost predicate FlagIsExact(q: Query, res: Traversal) {
    && (res.stoppedBy.None? <==> NothingMissing(q, res.works, res.relations))
    && (res.stoppedBy == Some(ByWorks) ==> |res.works| == q.p.maxWorks)
    && (res.stoppedBy == Some(ByRelations) ==> |res.relations| == q.p.maxRelations)
    && (res.stoppedBy == Some(ByDepth) ==>
          forall w :: q.Reachable(w) && q.Distance(w) <= q.p.maxDepth ==> w in res.works)
  }

  lemma NearerAreListed(q: Query, d: nat, s: Progress)
    requires Layered(q, d, s)
    ensures NearerListed(q, s.works)
  {
    hide Query.Walk, Query.Reachable, Query.Distance, Sound, Discovered, Query.Complete;
  }

  lemma NoneBeyond(q: Query, d: nat, works: seq<Uuid>, relations: seq<Relation>)
    requires Layered(q, d, Progress(works, relations, {}))
    ensures NearestFirst(q, works, d)
  {
    hide Query.Walk, Query.Reachable, Sound, Query.Complete;
    forall w | w in works ensures q.Distance(w) <= d {
      assert q.Distance(w) != d + 1;
    }
  }

  lemma NearestFirstWeaken(q: Query, works: seq<Uuid>, d: nat, e: nat)
    requires NearestFirst(q, works, d) && d <= e
    ensures NearestFirst(q, works, e)
  {
    hide Query.Walk, Query.Reachable;
  }

  /** A fully expanded level either leaves something missing on its frontier, or nothing anywhere. */
  lemma SettledFlag(q: Query, d: nat, frontier: set<Uuid>, works: seq<Uuid>, relations: seq<Relation>)
    requires q.repo.Conforms() && Settled(q, d, frontier, works, relations)
    ensures HasUnseen(q.repo, q.p, frontier, Ids(relations)) <==> !NothingMissing(q, works, relations)
  {
    hide Query.Walk, Query.Reachable, Query.Leads, Query.Complete;
    UnseenMeansIncomplete(q, frontier, relations);
    NoneBeyond(q, d, works, relations);
  }

  lemma {:induction false} ExpandLevel(q: Query, d: nat, frontier: set<Uuid>, works: seq<Uuid>,
                                       relations: seq<Relation>)
    requires q.repo.Conforms() && Settled(q, d, frontier, works, relations) && |relations| < q.p.maxRelations
    ensures var step := Expand(q.repo, q.p, frontier, SortIds(frontier), Progress(works, relations, {}));
            var t := step.progress;
            && Sound(q, t.works, t.relations) && NearestFirst(q, t.works, d + 1)
            && Discovered(q, t.works, t.relations) && NearerListed(q, t.works)
            && Followed(q, t.works, t.relations, d + 1)
            && (step.Cut? ==> CutIsTight(q.p, step) && !NothingMissing(q, t.works, t.relations))
            && (forall w :: q.Reachable(w) && q.Distance(w) < d ==> q.Complete(w, t.relations))
            && (step.Cut? ==> exists w :: w in frontier && !q.Complete(w, t.relations))
            && (!step.Cut? ==> Settled(q, d + 1, t.next, t.works, t.relations))
  {
    hide Query.Walk, Query.Reachable, Query.Leads, Query.Complete, Sound, NearestFirst, Discovered, NearerListed,
      Followed;
    ExpandKeepsLayers(q, d, frontier, SortIds(frontier), Progress(works, relations, {}));
    var step := Expand(q.repo, q.p, frontier, SortIds(frontier), Progress(works, relations, {}));
    NearerAreListed(q, d, step.progress);
    if !step.Cut? {
      NextLevelSettled(q, d, frontier, step.progress);
    }
  }

  /**
   Sound lists, nearest first within the depth limit with no nearer work skipped, each work discovered
   at its distance along a listed relation, each relation followed from a work before the depth limit, and
   an exact flag.
   */
  ghost predicate Answers(q: Query, res: Traversal) {
    && Sound(q, res.works, res.relations)
    && NearestFirst(q, res.works, q.p.maxDepth)
    && NearerListed(q, res.works)
    && Discovered(q, res.works, res.relations)
    && Followed(q, res.works, res.relations, q.p.maxDepth)
    && FlagIsExact(q, res)
  }

  lemma NothingLeft(q: Query, d: nat, works: seq<Uuid>, relations: seq<Relation>)
    requires Settled(q, d, {}, works, relations)
    ensures NothingMissing(q, works, relations)
  {
    hide Query.Walk, Query.Reachable, Query.Leads, Query.Complete;
    NoneBeyond(q, d, works, relations);
  }

  /** Stopping before a level is expanded, because the depth or the relations are used up. */
  lemma StopAnswers(q: Query, d: nat, frontier: set<Uuid>, works: seq<Uuid>, relations: seq<Relation>,
                    reached: nat, limit: Limit)
    requires q.repo.Conforms() && Settled(q, d, frontier, works, relations) && d <= q.p.maxDepth
    requires limit == (if d == q.p.maxDepth then ByDepth else ByRelations)
    requires d < q.p.maxDepth ==> |relations| == q.p.maxRelations
    ensures Answers(q, Traversal(q.root, works, relations, reached,
                              if HasUnseen(q.repo, q.p, frontier, Ids(relations)) then Some(limit) else None))
  {
    hide Query.Walk, Query.Reachable, Sound, NearestFirst, Discovered, NearerListed, Followed, NothingMissing,
      HasUnseen;
    NearerAreListed(q, d, Progress(works, relations, {}));
    SettledFlag(q, d, frontier, works, relations);
    NoneBeyond(q, d, works, relations);
    NearestFirstWeaken(q, works, d, q.p.maxDepth);
    FollowedFurther(q, works, relations, d, q.p.maxDepth);
  }

  lemma {:induction false} LevelsAnswer(q: Query, depth: nat, reached: nat, frontier: set<Uuid>,
                                        works: seq<Uuid>, relations: seq<Relation>)
    requires q.repo.Conforms() && depth <= q.p.maxDepth && |relations| <= q.p.maxRelations
    requires Settled(q, depth, frontier, works, relations)
    ensures Answers(q, Levels(q.repo, q.p, q.root, depth, reached, frontier, works, relations))
    decreases q.p.maxDepth - depth
  {
    hide Query.Walk, Query.Reachable, Expand, HasUnseen, SortIds, Sound, NearestFirst, Discovered, NearerListed,
      Followed, NothingMissing;
    if depth == q.p.maxDepth || |relations| == q.p.maxRelations {
      StopAnswers(q, depth, frontier, works, relations, reached,
                  if depth == q.p.maxDepth then ByDepth else ByRelations);
    } else {
      ExpandLevel(q, depth, frontier, works, relations);
      hide Settled, CutIsTight;
      var step := Expand(q.repo, q.p, frontier, SortIds(frontier), Progress(works, relations, {}));
      var t := step.progress;
      NearestFirstWeaken(q, t.works, depth + 1, q.p.maxDepth);
      FollowedFurther(q, t.works, t.relations, depth + 1, q.p.maxDepth);
      if step.Cut? {
        assert FlagIsExact(q, Levels(q.repo, q.p, q.root, depth, reached, frontier, works, relations));
      } else if t.next == {} {
        NothingLeft(q, depth + 1, t.works, t.relations);
      } else {
        LevelsAnswer(q, depth + 1, depth + 1, t.next, t.works, t.relations);
      }
    }
  }

  lemma RootIsSettled(q: Query)
    requires q.p.Valid()
    ensures Settled(q, 0, {q.root}, [q.root], [])
  {
    hide Query.Walk;
    RootIsNearest(q);
  }

  /** Main result: sound lists, true breadth-first order, and a flag that says exactly what is missing. */
  lemma TraversalAnswers(q: Query)
    requires q.repo.Conforms() && q.p.Valid()
    ensures Answers(q, TraverseSpec(q.repo, q.p, q.root))
  {
    RootIsSettled(q);
    LevelsAnswer(q, 0, 0, {q.root}, [q.root], []);
  }

  /**
   What `max_depth_reached` says. Every work nearer than it has all its relations listed; with a stop flag it is the
   distance of the nearest work that has not; without one, no work is further, and some work is at most one step nearer.
   */
  ghost predicate DepthIsExact(q: Query, res: Traversal) {
    && (forall w :: q.Reachable(w) && q.Distance(w) < res.maxDepthReached ==> q.Complete(w, res.relations))
    && (res.stoppedBy.Some? ==>
          exists w :: q.Reachable(w) && q.Distance(w) == res.maxDepthReached && !q.Complete(w, res.relations))
    && (res.stoppedBy.None? ==>
          && (forall w :: q.Reachable(w) ==> q.Distance(w) <= res.maxDepthReached)
          && exists w :: q.Reachable(w) && q.Distance(w) <= res.maxDepthReached <= q.Distance(w) + 1)
  }

  /** Without a missing relation nothing lies beyond the last level. */
  lemma {:induction false} NothingFurther(q: Query, d: nat, frontier: set<Uuid>, works: seq<Uuid>,
                                          relations: seq<Relation>)
    requires Settled(q, d, frontier, works, relations) && NothingMissing(q, works, relations)
    ensures forall w :: q.Reachable(w) ==> q.Distance(w) <= d
  {
    forall w | q.Reachable(w) ensures q.Distance(w) <= d {
      var n: nat :| q.Walk(w, n);
      ClosedUnderWalks(q, works, relations, w, n);
      NoneBeyond(q, d, works, relations);
    }
  }

  lemma {:induction false} StopIsExact(q: Query, d: nat, frontier: set<Uuid>, works: seq<Uuid>,
                                       relations: seq<Relation>, limit: Limit)
    requires q.repo.Conforms() && Settled(q, d, frontier, works, relations) && frontier != {}
    ensures DepthIsExact(q, Traversal(q.root, works, relations, d,
                                      if HasUnseen(q.repo, q.p, frontier, Ids(relations)) then Some(limit) else None))
  {
    hide Query.Walk, Query.Leads, Sound, NearestFirst, NothingMissing, HasUnseen, Discovered, Followed, Query.Complete,
      Query.Distance;
    var v :| v in frontier;
    RelationsAreStored(q, works, relations, d, frontier);
    UnseenMeansIncomplete(q, frontier, relations);
    SettledFlag(q, d, frontier, works, relations);
    if !HasUnseen(q.repo, q.p, frontier, Ids(relations)) {
      NothingFurther(q, d, frontier, works, relations);
    }
  }

  lemma RelationsAreStored(q: Query, works: seq<Uuid>, relations: seq<Relation>, d: nat, frontier: set<Uuid>)
    requires Settled(q, d, frontier, works, relations)
    ensures forall r :: r in relations ==> r in q.repo.store
  {
    hide NearestFirst, Discovered, Followed, Query.Complete, Query.Reachable;
  }

  lemma {:induction false} LevelsDepthIsExact(q: Query, depth: nat, frontier: set<Uuid>, works: seq<Uuid>,
                                              relations: seq<Relation>)
    requires q.repo.Conforms() && depth <= q.p.maxDepth && |relations| <= q.p.maxRelations
    requires Settled(q, depth, frontier, works, relations) && frontier != {}
    ensures DepthIsExact(q, Levels(q.repo, q.p, q.root, depth, depth, frontier, works, relations))
    decreases q.p.maxDepth - depth
  {
    hide Query.Walk, Expand, HasUnseen, SortIds, Sound, NearestFirst, Discovered, NearerListed, Followed,
      NothingMissing, Query.Complete, Query.Distance, Query.Leads;
    if depth == q.p.maxDepth || |relations| == q.p.maxRelations {
      StopIsExact(q, depth, frontier, works, relations, if depth == q.p.maxDepth then ByDepth else ByRelations);
    } else {
      ExpandLevel(q, depth, frontier, works, relations);
      var step := Expand(q.repo, q.p, frontier, SortIds(frontier), Progress(works, relations, {}));
      var t := step.progress;
      var v :| v in frontier;
      if step.Cut? {
      } else if t.next == {} {
        NothingLeft(q, depth + 1, t.works, t.relations);
        NothingFurther(q, depth + 1, {}, t.works, t.relations);
        SettledCompletes(q, depth + 1, {}, t.works, t.relations);
      } else {
        LevelsDepthIsExact(q, depth + 1, t.next, t.works, t.relations);
      }
    }
  }

  lemma SettledCompletes(q: Query, d: nat, frontier: set<Uuid>, works: seq<Uuid>, relations: seq<Relation>)
    requires Settled(q, d, frontier, works, relations)
    ensures forall w :: q.Reachable(w) && q.Distance(w) < d ==> q.Complete(w, relations)
  {
    hide Sound, NearestFirst, Discovered, Followed, Query.Complete, Query.Reachable, Query.Distance;
  }

  /** `max_depth_reached` is what it should be. */
  lemma DepthReached(q: Query)
    requires q.repo.Conforms() && q.p.Valid()
    ensures DepthIsExact(q, TraverseSpec(q.repo, q.p, q.root))
  {
    hide DepthIsExact, Levels;
    RootIsSettled(q);
    LevelsDepthIsExact(q, 0, {q.root}, [q.root], []);
    assert TraverseSpec(q.repo, q.p, q.root) == Levels(q.repo, q.p, q.root, 0, 0, {q.root}, [q.root], []);
  }

  lemma {:induction false} ClosedUnderWalks(q: Query, works: seq<Uuid>, relations: seq<Relation>, w: Uuid, n: nat)
    requires Sound(q, works, relations) && NothingMissing(q, works, relations) && q.Walk(w, n)
    ensures w in works
    decreases n
  {
    if n == 0 {
      assert works[0] in works;
    } else {
      var v :| q.Walk(v, n - 1) && q.Adjacent(v, w);
      ClosedUnderWalks(q, works, relations, v, n - 1);
      var r :| q.Leads(v, r, w);
      NeighborIsOtherEnd(q, v, r);
      assert r in relations;
    }
  }

  /** An unflagged result is the whole graph reachable from the root, whatever the limits were. */
  lemma UnflaggedIsWholeGraph(q: Query)
    requires q.repo.Conforms() && q.p.Valid()
    requires TraverseSpec(q.repo, q.p, q.root).stoppedBy.None?
    ensures forall w :: w in TraverseSpec(q.repo, q.p, q.root).works <==> q.Reachable(w)
    ensures forall r :: r in TraverseSpec(q.repo, q.p, q.root).relations <==>
                        exists w :: q.Reachable(w) && q.Allowed(w, r)
  {
    TraversalAnswers(q);
    var res := TraverseSpec(q.repo, q.p, q.root);
    hide TraverseSpec;
    forall w | q.Reachable(w) ensures w in res.works {
      var n: nat :| q.Walk(w, n);
      ClosedUnderWalks(q, res.works, res.relations, w, n);
    }
    hide Query.Walk, Query.Reachable;
    forall r | r in res.relations ensures exists w :: q.Reachable(w) && q.Allowed(w, r) {
      assert FollowedFrom(q, res.works, r, q.p.maxDepth);
      var v, u :| v in res.works && u in res.works && q.Leads(v, r, u) && q.Reachable(v);
      NeighborIsOtherEnd(q, v, r);
    }
  }

  /** What each direction makes of the listed relations: one end was reached, and the other followed from it. */
  lemma ListedRelationsLead(q: Query, r: Relation)
    requires q.repo.Conforms() && q.p.Valid() && r in TraverseSpec(q.repo, q.p, q.root).relations
    ensures q.p.direction.Outbound? ==>
              q.Reachable(r.subject) && q.Distance(r.subject) < q.p.maxDepth && q.Adjacent(r.subject, r.object_)
    ensures q.p.direction.Inbound? ==>
              q.Reachable(r.object_) && q.Distance(r.object_) < q.p.maxDepth && q.Adjacent(r.object_, r.subject)
    ensures q.p.direction.Both? ==>
              || (q.Reachable(r.subject) && q.Distance(r.subject) < q.p.maxDepth)
              || (q.Reachable(r.object_) && q.Distance(r.object_) < q.p.maxDepth)
  {
    TraversalAnswers(q);
    var res := TraverseSpec(q.repo, q.p, q.root);
    hide TraverseSpec, Query.Walk, Query.Reachable;
    assert FollowedFrom(q, res.works, r, q.p.maxDepth);
  }

  /** A step of the stored relations themselves, from subject to object. */
  ghost predicate Arrow(repo: Repository, kinds: set<Kind>, v: Uuid, w: Uuid) {
    exists r :: r in repo.store && r.kind in kinds && r.subject == v && r.object_ == w
  }

  /** `w` is reached by `n` arrows from the root, taken forwards, backwards or either way. */
  ghost predicate ArrowWalk(q: Query, forwards: bool, backwards: bool, w: Uuid, n: nat)
    decreases n
  {
    if n == 0 then w == q.root
    else exists v ::
           && ArrowWalk(q, forwards, backwards, v, n - 1)
           && ((forwards && Arrow(q.repo, q.p.kinds, v, w)) || (backwards && Arrow(q.repo, q.p.kinds, w, v)))
  }

  lemma AdjacentIsArrow(q: Query, v: Uuid, w: Uuid)
    ensures q.Adjacent(v, w) <==>
            || (!q.p.direction.Inbound? && Arrow(q.repo, q.p.kinds, v, w))
            || (!q.p.direction.Outbound? && Arrow(q.repo, q.p.kinds, w, v))
  {
    forall r | r in q.repo.store && r.kind in q.p.kinds && r.subject == v && r.object_ == w
      ensures !q.p.direction.Inbound? ==> q.Leads(v, r, w)
    {
    }
    forall r | r in q.repo.store && r.kind in q.p.kinds && r.subject == w && r.object_ == v
      ensures !q.p.direction.Outbound? ==> q.Leads(v, r, w)
    {
    }
  }

  lemma {:induction false} WalkIsArrowWalk(q: Query, forwards: bool, backwards: bool, w: Uuid, n: nat)
    requires forwards == !q.p.direction.Inbound? && backwards == !q.p.direction.Outbound?
    ensures q.Walk(w, n) <==> ArrowWalk(q, forwards, backwards, w, n)
    decreases n
  {
    hide Arrow, Query.Adjacent;
    if n > 0 && q.Walk(w, n) {
      var v :| q.Walk(v, n - 1) && q.Adjacent(v, w);
      WalkIsArrowWalk(q, forwards, backwards, v, n - 1);
      AdjacentIsArrow(q, v, w);
    }
    if n > 0 && ArrowWalk(q, forwards, backwards, w, n) {
      var v :| ArrowWalk(q, forwards, backwards, v, n - 1) &&
               ((forwards && Arrow(q.repo, q.p.kinds, v, w)) || (backwards && Arrow(q.repo, q.p.kinds, w, v)));
      WalkIsArrowWalk(q, forwards, backwards, v, n - 1);
      AdjacentIsArrow(q, v, w);
    }
  }

  lemma ReachableByArrows(q: Query, forwards: bool, backwards: bool, w: Uuid)
    requires forwards == !q.p.direction.Inbound? && backwards == !q.p.direction.Outbound?
    ensures q.Reachable(w) <==> exists n: nat :: ArrowWalk(q, forwards, backwards, w, n)
  {
    hide ArrowWalk, Query.Walk;
    if q.Reachable(w) {
      var n: nat :| q.Walk(w, n);
      WalkIsArrowWalk(q, forwards, backwards, w, n);
    }
    if n: nat :| ArrowWalk(q, forwards, backwards, w, n) {
      WalkIsArrowWalk(q, forwards, backwards, w, n);
    }
  }

  /**
   Main result by direction: an unflagged outbound traversal is exactly what subject-to-object steps reach, an
   inbound one what object-to-subject steps reach, and one in both directions what either reach together.
   */
  lemma UnflaggedByDirection(q: Query, w: Uuid)
    requires q.repo.Conforms() && q.p.Valid()
    requires TraverseSpec(q.repo, q.p, q.root).stoppedBy.None?
    ensures var listed := w in TraverseSpec(q.repo, q.p, q.root).works;
            match q.p.direction
            case Outbound => listed <==> exists n: nat :: ArrowWalk(q, true, false, w, n)
            case Inbound => listed <==> exists n: nat :: ArrowWalk(q, false, true, w, n)
            case Both => listed <==> exists n: nat :: ArrowWalk(q, true, true, w, n)
  {
    UnflaggedIsWholeGraph(q);
    hide TraverseSpec, ArrowWalk, Query.Walk, Query.Reachable;
    ReachableByArrows(q, !q.p.direction.Inbound?, !q.p.direction.Outbound?, w);
  }
}
