/** The traversal loops themselves, proved to compute `CitationTraversal.TraverseSpec`. */
module CitationService {
  import opened Wrappers
  import opened Ordering
  import opened CitationTraversal

  /** The dictionary holds exactly the relations of `s`, each under its own id. */
  ghost predicate Holds(relations: map<Uuid, Relation>, s: set<Relation>) {
    && (forall k :: k in relations ==> relations[k].id == k && relations[k] in s)
    && (forall r :: r in s ==> r.id in relations && relations[r.id] == r)
  }

  lemma NotFollowed(repo: Repository, p: Policy, w: Uuid, limit: nat, excluded: set<Uuid>)
    requires !p.FollowsIn()
    ensures Listed(repo, p, w, limit, excluded) == Elements(ListedFrom(repo, p, w, limit, excluded))
  {
  }

  lemma HoldsValues(relations: map<Uuid, Relation>, s: set<Relation>)
    requires Holds(relations, s)
    ensures relations.Values == s
  {
    forall r | r in s ensures r in relations.Values {
      assert r.id in relations && relations[r.id] == r;
    }
  }

  lemma StoreHoldsListed(repo: Repository, p: Policy, w: Uuid, limit: nat, excluded: set<Uuid>)
    requires repo.Conforms()
    ensures forall r :: r in ListedFrom(repo, p, w, limit, excluded) ==> r in repo.store
    ensures forall r :: r in ListedTo(repo, p, w, limit, excluded) ==> r in repo.store
    ensures Elements(ListedFrom(repo, p, w, limit, excluded)) <= repo.store
    ensures UniqueIds(repo.store)
  {
    assert IsListing(repo.listFrom(w, p.kinds, excluded, limit), repo.From(w, p.kinds, excluded), limit);
    assert IsListing(repo.listTo(w, p.kinds, excluded, limit), repo.To(w, p.kinds, excluded), limit);
  }

  ghost predicate UniqueIds(store: set<Relation>) {
    forall r, s :: r in store && s in store && r.id == s.id ==> r == s
  }

  /** `relations[r.id] = r` for each listed relation. */
  method Fill(relations: map<Uuid, Relation>, listed: seq<Relation>, ghost store: set<Relation>, ghost s: set<Relation>)
    returns (filled: map<Uuid, Relation>)
    requires UniqueIds(store) && s <= store && Holds(relations, s)
    requires forall r :: r in listed ==> r in store
    ensures Holds(filled, s + Elements(listed))
  {
    filled := relations;
    for i := 0 to |listed|
      invariant Holds(filled, s + Elements(listed[..i]))
    {
      assert listed[..i + 1] == listed[..i] + [listed[i]];
      assert listed[i] in listed;
      filled := filled[listed[i].id := listed[i]];
    }
    assert listed[..|listed|] == listed;
  }

  method CollectRelations(repo: Repository, p: Policy, w: Uuid, limit: nat, excluded: set<Uuid>)
    returns (batch: seq<Relation>)
    requires repo.Conforms()
    ensures batch == RelationsFor(repo, p, w, limit, excluded)
  {
    var relations: map<Uuid, Relation> := CollectOutbound(repo, p, w, limit, excluded);
    StoreHoldsListed(repo, p, w, limit, excluded);
    hide Repository.Conforms, Elements, SortRelations, Holds;
    if p.direction == Inbound || p.direction == Both {
      relations := Fill(relations, repo.listTo(w, p.kinds, excluded, limit), repo.store,
                        Elements(ListedFrom(repo, p, w, limit, excluded)));
    } else {
      NotFollowed(repo, p, w, limit, excluded);
    }
    HoldsValues(relations, Listed(repo, p, w, limit, excluded));
    var ordered := SortRelations(relations.Values);
    batch := if |ordered| <= limit then ordered else ordered[..limit];
  }

  /** The first half of `_relations_for`. */
  method CollectOutbound(repo: Repository, p: Policy, w: Uuid, limit: nat, excluded: set<Uuid>)
    returns (relations: map<Uuid, Relation>)
    requires repo.Conforms()
    ensures Holds(relations, Elements(ListedFrom(repo, p, w, limit, excluded)))
  {
    StoreHoldsListed(repo, p, w, limit, excluded);
    hide Repository.Conforms;
    relations := map[];
    if p.direction == Outbound || p.direction == Both {
      relations := Fill(relations, repo.listFrom(w, p.kinds, excluded, limit), repo.store, {});
      assert {} + Elements(ListedFrom(repo, p, w, limit, excluded)) ==
               Elements(ListedFrom(repo, p, w, limit, excluded));
    }
  }

  method AnyUnseen(repo: Repository, p: Policy, frontier: seq<Uuid>, seen: set<Uuid>) returns (unseen: bool)
    requires repo.Conforms()
    ensures unseen == HasUnseen(repo, p, Elements(frontier), seen)
  {
    hide Repository.Conforms, RelationsFor;
    for i := 0 to |frontier|
      invariant forall k :: 0 <= k < i ==> RelationsFor(repo, p, frontier[k], 1, seen) == []
    {
      var batch := CollectRelations(repo, p, frontier[i], 1, seen);
      if batch != [] {
        assert frontier[i] in Elements(frontier);
        return true;
      }
    }
    return false;
  }

  /** The Python sets kept beside the two ordered lists. */
  ghost predicate Indexes(visited: set<Uuid>, seen: set<Uuid>, works: seq<Uuid>, relations: seq<Relation>) {
    && (forall w :: w in visited <==> w in works)
    && |visited| == |works|
    && seen == Ids(relations)
  }

  lemma IndexTake(visited: set<Uuid>, seen: set<Uuid>, s: Progress, r: Relation, n: Uuid)
    requires Indexes(visited, seen, s.works, s.relations)
    ensures Indexes(if n in visited then visited else visited + {n}, seen + {r.id},
                    Take(s, r, n).works, Take(s, r, n).relations)
  {
    var t := Take(s, r, n);
    assert t.relations == s.relations + [r];
    assert Ids(t.relations) == Ids(s.relations) + {r.id};
  }

  lemma StartIndexes(root: Uuid)
    ensures Indexes({root}, {}, [root], [])
    ensures Elements([root]) == {root} && Ids([]) == {}
  {
  }

  lemma SortedElements(works: set<Uuid>)
    ensures Elements(SortIds(works)) == works
    ensures SortIds(works) == [] <==> works == {}
  {
  }

  method Traverse(repo: Repository, root: Uuid, policy: Option<Policy>) returns (res: Traversal)
    requires repo.Conforms() && (policy.Some? ==> policy.value.Valid())
    ensures res == TraverseSpec(repo, Selected(policy), root)
  {
    hide Repository.Conforms, RelationsFor, HasUnseen, Expand, SortIds, Elements, Ids, Indexes;
    StartIndexes(root);
    var p := Selected(policy);
    var visited, works := {root}, [root];
    var seen: set<Uuid>, relations: seq<Relation> := {}, [];
    var frontier := [root];
    var reached := 0;

    if p.maxDepth == 0 {
      var unseen := AnyUnseen(repo, p, frontier, seen);
      return Traversal(root, works, relations, 0, if unseen then Some(ByDepth) else None);
    }

    // Python's `break` skips the loop's `else` and reaches the final, unflagged return.
    var depth := 0;
    while depth < p.maxDepth
      invariant depth == reached <= p.maxDepth && |relations| <= p.maxRelations && frontier != []
      invariant Indexes(visited, seen, works, relations) && seen == Ids(relations)
      invariant Levels(repo, p, root, depth, reached, Elements(frontier), works, relations) ==
                  TraverseSpec(repo, p, root)
    {
      if |relations| == p.maxRelations {
        var unseen := AnyUnseen(repo, p, frontier, seen);
        return Traversal(root, works, relations, reached, if unseen then Some(ByRelations) else None);
      }
      var step;
      step, visited, seen := ExpandLevel(repo, p, frontier, visited, seen, works, relations);
      works, relations := step.progress.works, step.progress.relations;
      if step.Cut? {
        return Traversal(root, works, relations, reached, Some(step.limit));
      }
      reached := depth + 1;
      frontier := SortIds(step.progress.next);
      SortedElements(step.progress.next);
      if frontier == [] {
        return Traversal(root, works, relations, reached, None);
      }
      depth := depth + 1;
    }
    var unseen := AnyUnseen(repo, p, frontier, seen);
    return Traversal(root, works, relations, reached, if frontier != [] && unseen then Some(ByDepth) else None);
  }

  function Selected(policy: Option<Policy>): Policy {
    if policy.Some? then policy.value else Policy(1, 100, 500, Outbound, {Cites})
  }

  /** The loop over one level's works. */
  method ExpandLevel(repo: Repository, p: Policy, frontier: seq<Uuid>, visited0: set<Uuid>, seen0: set<Uuid>,
                     works: seq<Uuid>, relations: seq<Relation>)
    returns (step: Step, visited: set<Uuid>, seen: set<Uuid>)
    requires repo.Conforms() && |relations| < p.maxRelations
    requires Indexes(visited0, seen0, works, relations)
    ensures step == Expand(repo, p, Elements(frontier), SortIds(Elements(frontier)), Progress(works, relations, {}))
    ensures Indexes(visited, seen, step.progress.works, step.progress.relations) && seen == Ids(step.progress.relations)
  {
    hide Repository.Conforms, RelationsFor, HasUnseen, Absorb, Elements, SortIds;
    ghost var all := Elements(frontier);
    visited, seen := visited0, seen0;
    var s := Progress(works, relations, {});
    var order := SortIds(Elements(frontier));
    for i := 0 to |order|
      invariant |s.relations| < p.maxRelations && Indexes(visited, seen, s.works, s.relations)
      invariant Expand(repo, p, all, order[i..], s) == Expand(repo, p, all, order, Progress(works, relations, {}))
    {
      assert order[i..][0] == order[i] && order[i..][1..] == order[i + 1..];
      assert seen == Ids(s.relations);
      var batch := CollectRelations(repo, p, order[i], p.maxRelations - |s.relations|, seen);
      step, visited, seen := AbsorbBatch(p, order[i], batch, visited, seen, s);
      if step.Cut? {
        return;
      }
      s := step.progress;
      if |s.relations| == p.maxRelations {
        var unseen := AnyUnseen(repo, p, frontier, seen);
        step := if unseen then Cut(s, ByRelations) else Exhausted(s);
        return;
      }
    }
    step := Grown(s);
  }

  /** The loop over one work's relations. */
  method AbsorbBatch(p: Policy, w: Uuid, batch: seq<Relation>, visited0: set<Uuid>, seen0: set<Uuid>, s0: Progress)
    returns (step: Step, visited: set<Uuid>, seen: set<Uuid>)
    requires Indexes(visited0, seen0, s0.works, s0.relations)
    ensures step == Absorb(p, w, batch, s0)
    ensures Indexes(visited, seen, step.progress.works, step.progress.relations)
  {
    visited, seen := visited0, seen0;
    var s := s0;
    for i := 0 to |batch|
      invariant Indexes(visited, seen, s.works, s.relations)
      invariant Absorb(p, w, batch[i..], s) == Absorb(p, w, batch, s0)
    {
      var relation := batch[i];
      assert batch[i..][0] == relation && batch[i..][1..] == batch[i + 1..];
      var neighbor := Neighbor(w, relation);
      if neighbor.Some? {
        var n := neighbor.value;
        if n !in visited && |visited| >= p.maxWorks {
          step := Cut(s, ByWorks);
          return;
        }
        IndexTake(visited, seen, s, relation, n);
        seen := seen + {relation.id};
        s := s.(relations := s.relations + [relation]);
        if n !in visited {
          visited := visited + {n};
          s := s.(works := s.works + [n], next := s.next + {n});
        }
      }
    }
    step := Grown(s);
  }
}
