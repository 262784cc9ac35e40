/** Smaller work and depth limits cut a traversal short without changing what it lists first. */
module CitationCutting {
  import opened CitationTraversal

  /** The same traversal with room for at least as many works and levels. */
  predicate Roomier(p: Policy, large: Policy) {
    && p.maxWorks <= large.maxWorks
    && p.maxDepth <= large.maxDepth
    && p.maxRelations == large.maxRelations
    && p.direction == large.direction
    && p.kinds == large.kinds
  }

  predicate Extends(s: Progress, t: Progress) {
    s.works <= t.works && s.relations <= t.relations
  }

  lemma {:induction false} AbsorbExtends(p: Policy, w: Uuid, batch: seq<Relation>, s: Progress)
    ensures Extends(s, Absorb(p, w, batch, s).progress)
    decreases |batch|
  {
    if batch != [] && Neighbor(w, batch[0]).Some? {
      AbsorbExtends(p, w, batch[1..], Take(s, batch[0], Neighbor(w, batch[0]).value));
    } else if batch != [] {
      AbsorbExtends(p, w, batch[1..], s);
    }
  }

  lemma {:induction false} ExpandExtends(repo: Repository, p: Policy, frontier: set<Uuid>, rest: seq<Uuid>, s: Progress)
    requires |s.relations| <= p.maxRelations
    ensures Extends(s, Expand(repo, p, frontier, rest, s).progress)
    decreases |rest|
  {
    hide HasUnseen, RelationsFor, Absorb;
    if rest != [] {
      var batch := RelationsFor(repo, p, rest[0], p.maxRelations - |s.relations|, Ids(s.relations));
      AbsorbExtends(p, rest[0], batch, s);
      var step := Absorb(p, rest[0], batch, s);
      if !step.Cut? && |step.progress.relations| < p.maxRelations {
        ExpandExtends(repo, p, frontier, rest[1..], step.progress);
      }
    }
  }

  lemma {:induction false} LevelsExtend(repo: Repository, p: Policy, root: Uuid, depth: nat, reached: nat,
                                        frontier: set<Uuid>, works: seq<Uuid>, relations: seq<Relation>)
    requires depth <= p.maxDepth && |relations| <= p.maxRelations
    ensures var res := Levels(repo, p, root, depth, reached, frontier, works, relations);
            works <= res.works && relations <= res.relations
    decreases p.maxDepth - depth
  {
    hide HasUnseen, Expand, SortIds;
    if depth < p.maxDepth && |relations| < p.maxRelations {
      var s := Progress(works, relations, {});
      ExpandExtends(repo, p, frontier, SortIds(frontier), s);
      var step := Expand(repo, p, frontier, SortIds(frontier), s);
      if !step.Cut? && step.progress.next != {} {
        LevelsExtend(repo, p, root, depth + 1, depth + 1, step.progress.next, step.progress.works,
                     step.progress.relations);
      }
    }
  }

  lemma SameBatch(repo: Repository, p: Policy, large: Policy, w: Uuid, limit: nat, excluded: set<Uuid>)
    requires Roomier(p, large)
    ensures RelationsFor(repo, p, w, limit, excluded) == RelationsFor(repo, large, w, limit, excluded)
  {
    assert Listed(repo, p, w, limit, excluded) == Listed(repo, large, w, limit, excluded);
  }

  lemma SameUnseen(repo: Repository, p: Policy, large: Policy, frontier: set<Uuid>, excluded: set<Uuid>)
    requires Roomier(p, large)
    ensures HasUnseen(repo, p, frontier, excluded) == HasUnseen(repo, large, frontier, excluded)
  {
    forall w ensures RelationsFor(repo, p, w, 1, excluded) == RelationsFor(repo, large, w, 1, excluded) {
      SameBatch(repo, p, large, w, 1, excluded);
    }
  }

  lemma {:induction false} AbsorbCut(p: Policy, large: Policy, w: Uuid, batch: seq<Relation>, s: Progress)
    requires Roomier(p, large)
    ensures var step, wide := Absorb(p, w, batch, s), Absorb(large, w, batch, s);
            if step.Cut? then Extends(step.progress, wide.progress) else wide == step
    decreases |batch|
  {
    if batch != [] {
      AbsorbExtends(large, w, batch, s);
      if Neighbor(w, batch[0]).Some? {
        AbsorbCut(p, large, w, batch[1..], Take(s, batch[0], Neighbor(w, batch[0]).value));
      } else {
        AbsorbCut(p, large, w, batch[1..], s);
      }
    }
  }

  lemma {:induction false} ExpandCut(repo: Repository, p: Policy, large: Policy,
                                     frontier: set<Uuid>, rest: seq<Uuid>, s: Progress)
    requires Roomier(p, large) && |s.relations| <= p.maxRelations
    ensures var step, wide := Expand(repo, p, frontier, rest, s), Expand(repo, large, frontier, rest, s);
            if step.Cut? then Extends(step.progress, wide.progress) else wide == step
    decreases |rest|
  {
    hide HasUnseen, RelationsFor, Absorb;
    if rest != [] {
      var limit := p.maxRelations - |s.relations|;
      SameBatch(repo, p, large, rest[0], limit, Ids(s.relations));
      var batch := RelationsFor(repo, p, rest[0], limit, Ids(s.relations));
      AbsorbCut(p, large, rest[0], batch, s);
      var step, wide := Absorb(p, rest[0], batch, s), Absorb(large, rest[0], batch, s);
      if step.Cut? {
        if !wide.Cut? && |wide.progress.relations| < p.maxRelations {
          ExpandExtends(repo, large, frontier, rest[1..], wide.progress);
        }
      } else if |step.progress.relations| == p.maxRelations {
        SameUnseen(repo, p, large, frontier, Ids(step.progress.relations));
      } else {
        ExpandCut(repo, p, large, frontier, rest[1..], step.progress);
      }
    }
  }

  lemma {:induction false} LevelsCut(repo: Repository, p: Policy, large: Policy, root: Uuid, depth: nat, reached: nat,
                                     frontier: set<Uuid>, works: seq<Uuid>, relations: seq<Relation>)
    requires Roomier(p, large) && depth <= p.maxDepth && |relations| <= p.maxRelations
    ensures var res := Levels(repo, p, root, depth, reached, frontier, works, relations);
            var wide := Levels(repo, large, root, depth, reached, frontier, works, relations);
            res.works <= wide.works && res.relations <= wide.relations
    decreases p.maxDepth - depth
  {
    hide HasUnseen, Expand, SortIds, RelationsFor;
    LevelsExtend(repo, large, root, depth, reached, frontier, works, relations);
    if depth < p.maxDepth && |relations| < p.maxRelations {
      var s := Progress(works, relations, {});
      ExpandCut(repo, p, large, frontier, SortIds(frontier), s);
      var step, wide := Expand(repo, p, frontier, SortIds(frontier), s),
          Expand(repo, large, frontier, SortIds(frontier), s);
      var t := wide.progress;
      if step.Cut? {
        if !wide.Cut? && t.next != {} {
          LevelsExtend(repo, large, root, depth + 1, depth + 1, t.next, t.works, t.relations);
        }
      } else if t.next != {} {
        LevelsCut(repo, p, large, root, depth + 1, depth + 1, t.next, t.works, t.relations);
      }
    }
  }

  /** Main result: lowering `max_works` or `max_depth` yields prefixes of both lists. */
  lemma CuttingIsPrefix(repo: Repository, p: Policy, large: Policy, root: Uuid)
    requires Roomier(p, large)
    ensures TraverseSpec(repo, p, root).works <= TraverseSpec(repo, large, root).works
    ensures TraverseSpec(repo, p, root).relations <= TraverseSpec(repo, large, root).relations
  {
    LevelsCut(repo, p, large, root, 0, 0, {root}, [root], []);
  }
}
