/**
 Bounded breadth-first traversal of persisted Work relations
 (src/tarkka/application/citation_traversal.py).

 `Levels`, `Expand` and `Absorb` restate the nested loops as recursion over the
 same running lists; `CitationService.Traverse` is the loop itself and is proved to
 compute `TraverseSpec`.
 */
module CitationTraversal {
  import opened Wrappers
  import opened Ordering
  import opened PythonText

  /** UUIDs as 128-bit numbers: their hexadecimal texts sort as the numbers do. */
  type Uuid = nat

  datatype Kind =
    | Cites | HasPart | IsCorrectionOf | IsPreprintOf | IsRetractionOf
    | IsVersionOf | Related | Supplements | UsesDataset | UsesSoftware
  {
    /** The kind's value, by which relations are sorted first. */
    function Value(): string {
      match this
      case Cites => "cites"
      case HasPart => "has_part"
      case IsCorrectionOf => "is_correction_of"
      case IsPreprintOf => "is_preprint_of"
      case IsRetractionOf => "is_retraction_of"
      case IsVersionOf => "is_version_of"
      case Related => "related"
      case Supplements => "supplements"
      case UsesDataset => "uses_dataset"
      case UsesSoftware => "uses_software"
    }
  }

  datatype Relation = Relation(id: Uuid, subject: Uuid, object_: Uuid, kind: Kind)

  datatype Direction = Outbound | Inbound | Both

  datatype Limit = ByDepth | ByWorks | ByRelations

  datatype Policy = Policy(
    maxDepth: nat, maxWorks: nat, maxRelations: nat, direction: Direction, kinds: set<Kind>)
  {
    predicate Valid() {
      maxWorks >= 1 && kinds != {}
    }

    predicate FollowsOut() {
      direction.Outbound? || direction.Both?
    }

    predicate FollowsIn() {
      direction.Inbound? || direction.Both?
    }
  }

  /** The citation repository: what it holds, and its two listing queries. */
  datatype Repository = Repository(
    store: set<Relation>,
    listFrom: (Uuid, set<Kind>, set<Uuid>, nat) -> seq<Relation>,
    listTo: (Uuid, set<Kind>, set<Uuid>, nat) -> seq<Relation>)
  {
    ghost function From(w: Uuid, kinds: set<Kind>, excluded: set<Uuid>): set<Relation> {
      set r | r in store && r.subject == w && r.kind in kinds && r.id !in excluded
    }

    ghost function To(w: Uuid, kinds: set<Kind>, excluded: set<Uuid>): set<Relation> {
      set r | r in store && r.object_ == w && r.kind in kinds && r.id !in excluded
    }

    /** Relation identity, and both listings distinct, filtered, bounded and complete below the limit. */
    ghost predicate Conforms() {
      && (forall r, s :: r in store && s in store && r.id == s.id ==> r == s)
      && (forall w, kinds, excluded, limit ::
            IsListing(listFrom(w, kinds, excluded, limit), From(w, kinds, excluded), limit))
      && (forall w, kinds, excluded, limit ::
            IsListing(listTo(w, kinds, excluded, limit), To(w, kinds, excluded), limit))
    }
  }

  ghost predicate IsListing(listed: seq<Relation>, matching: set<Relation>, limit: nat) {
    && Distinct(listed)
    && |listed| <= limit
    && (forall r :: r in listed ==> r in matching)
    && (|listed| < limit ==> forall r :: r in matching ==> r in listed)
  }

  datatype Traversal = Traversal(
    root: Uuid, works: seq<Uuid>, relations: seq<Relation>, maxDepthReached: nat, stoppedBy: Option<Limit>)

  // ----- keys and neighbours

  predicate IdLeq(a: Uuid, b: Uuid) {
    a <= b
  }

  /** Lexicographic comparison of (kind, subject, object, id). */
  predicate RelationLeq(a: Relation, b: Relation) {
    if a.kind != b.kind then TextLeq(a.kind.Value(), b.kind.Value())
    else if a.subject != b.subject then a.subject <= b.subject
    else if a.object_ != b.object_ then a.object_ <= b.object_
    else a.id <= b.id
  }

  lemma IdOrder(s: set<Uuid>)
    ensures Orders(IdLeq, s)
  {
  }

  lemma ValuesDiffer(a: Kind, b: Kind)
    requires a.Value() == b.Value()
    ensures a == b
  {
    var s, t := a.Value(), b.Value();
    assert |s| == |t| && forall i :: 0 <= i < |s| ==> s[i] == t[i];
  }

  lemma RelationOrder(s: set<Relation>)
    ensures Orders(RelationLeq, s)
  {
    hide Kind.Value;
    forall x, y
      ensures (RelationLeq(x, y) || RelationLeq(y, x)) && (RelationLeq(x, y) && RelationLeq(y, x) ==> x == y) {
      TextTotal(x.kind.Value(), y.kind.Value());
      if x.kind.Value() == y.kind.Value() {
        ValuesDiffer(x.kind, y.kind);
      }
    }
    forall x, y, z | RelationLeq(x, y) && RelationLeq(y, z) ensures RelationLeq(x, z) {
      TextTotal(x.kind.Value(), x.kind.Value());
      TextTotal(y.kind.Value(), y.kind.Value());
      TextTransitive(x.kind.Value(), y.kind.Value(), z.kind.Value());
      if x.kind == z.kind && x.kind != y.kind {
        TextTotal(x.kind.Value(), y.kind.Value());
        ValuesDiffer(x.kind, y.kind);
      }
    }
  }

  /** The numbers in ascending order. */
  function SortIds(s: set<Uuid>): (r: seq<Uuid>)
    ensures Distinct(r) && |r| == |s|
    ensures forall w :: w in r <==> w in s
    ensures forall i, j :: 0 <= i < j < |r| ==> r[i] < r[j]
  {
    IdOrder(s);
    Sort(s, IdLeq)
  }

  /** Before by kind, then subject, then object, then identity, all ascending. */
  ghost predicate KeyBefore(a: Relation, b: Relation) {
    || (a.kind != b.kind && TextLeq(a.kind.Value(), b.kind.Value()))
    || (a.kind == b.kind && a.subject < b.subject)
    || (a.kind == b.kind && a.subject == b.subject && a.object_ < b.object_)
    || (a.kind == b.kind && a.subject == b.subject && a.object_ == b.object_ && a.id < b.id)
  }

  function SortRelations(s: set<Relation>): (r: seq<Relation>)
    ensures Distinct(r) && |r| == |s|
    ensures forall x :: x in r <==> x in s
    ensures forall i, j :: 0 <= i < j < |r| ==> KeyBefore(r[i], r[j])
  {
    RelationOrder(s);
    Sort(s, RelationLeq)
  }

  function Neighbor(w: Uuid, r: Relation): Option<Uuid> {
    if r.subject == w then Some(r.object_)
    else if r.object_ == w then Some(r.subject)
    else None
  }

  function Ids(relations: seq<Relation>): set<Uuid> {
    set r | r in relations :: r.id
  }

  // ----- the loops, as functions

  function ListedFrom(repo: Repository, p: Policy, w: Uuid, limit: nat, excluded: set<Uuid>): seq<Relation> {
    if p.FollowsOut() then repo.listFrom(w, p.kinds, excluded, limit) else []
  }

  function ListedTo(repo: Repository, p: Policy, w: Uuid, limit: nat, excluded: set<Uuid>): seq<Relation> {
    if p.FollowsIn() then repo.listTo(w, p.kinds, excluded, limit) else []
  }

  function Listed(repo: Repository, p: Policy, w: Uuid, limit: nat, excluded: set<Uuid>): set<Relation> {
    Elements(ListedFrom(repo, p, w, limit, excluded)) + Elements(ListedTo(repo, p, w, limit, excluded))
  }

  function RelationsFor(repo: Repository, p: Policy, w: Uuid, limit: nat, excluded: set<Uuid>)
    : (batch: seq<Relation>)
    ensures |batch| <= limit
  {
    var ordered := SortRelations(Listed(repo, p, w, limit, excluded));
    if |ordered| <= limit then ordered else ordered[..limit]
  }

  predicate HasUnseen(repo: Repository, p: Policy, frontier: set<Uuid>, excluded: set<Uuid>) {
    exists w :: w in frontier && RelationsFor(repo, p, w, 1, excluded) != []
  }

  /** Lists grown so far; `next` holds the works found on the level being built. */
  datatype Progress = Progress(works: seq<Uuid>, relations: seq<Relation>, next: set<Uuid>)

  datatype Step = Grown(progress: Progress) | Cut(progress: Progress, limit: Limit) | Exhausted(progress: Progress)

  /** The loop over one work's relations. */
  function Absorb(p: Policy, w: Uuid, batch: seq<Relation>, s: Progress): (step: Step)
    ensures !step.Exhausted?
    ensures |step.progress.relations| <= |s.relations| + |batch|
    decreases |batch|
  {
    if batch == [] then Grown(s)
    else
      match Neighbor(w, batch[0])
      case None => Absorb(p, w, batch[1..], s)
      case Some(n) =>
        if n !in s.works && |s.works| >= p.maxWorks then Cut(s, ByWorks)
        else Absorb(p, w, batch[1..], Take(s, batch[0], n))
  }

  function Take(s: Progress, r: Relation, n: Uuid): Progress {
    if n in s.works then s.(relations := s.relations + [r])
    else Progress(s.works + [n], s.relations + [r], s.next + {n})
  }

  /** The loop over one level's works. */
  function Expand(repo: Repository, p: Policy, frontier: set<Uuid>, rest: seq<Uuid>, s: Progress): (step: Step)
    requires |s.relations| <= p.maxRelations
    ensures |step.progress.relations| <= p.maxRelations
    decreases |rest|
  {
    if rest == [] then Grown(s)
    else
      var batch := RelationsFor(repo, p, rest[0], p.maxRelations - |s.relations|, Ids(s.relations));
      var step := Absorb(p, rest[0], batch, s);
      if step.Cut? then step
      else if |step.progress.relations| == p.maxRelations then
        if HasUnseen(repo, p, frontier, Ids(step.progress.relations)) then Cut(step.progress, ByRelations)
        else Exhausted(step.progress)
      else Expand(repo, p, frontier, rest[1..], step.progress)
  }

  /** The loop over levels, with its `else` branch at `depth == maxDepth`. */
  function Levels(repo: Repository, p: Policy, root: Uuid, depth: nat, reached: nat,
                  frontier: set<Uuid>, works: seq<Uuid>, relations: seq<Relation>): Traversal
    requires depth <= p.maxDepth && |relations| <= p.maxRelations
    decreases p.maxDepth - depth
  {
    if depth == p.maxDepth then
      Traversal(root, works, relations, reached,
             if HasUnseen(repo, p, frontier, Ids(relations)) then Some(ByDepth) else None)
    else if |relations| == p.maxRelations then
      Traversal(root, works, relations, reached,
             if HasUnseen(repo, p, frontier, Ids(relations)) then Some(ByRelations) else None)
    else
      var step := Expand(repo, p, frontier, SortIds(frontier), Progress(works, relations, {}));
      var s := step.progress;
      if step.Cut? then Traversal(root, s.works, s.relations, reached, Some(step.limit))
      else if s.next == {} then Traversal(root, s.works, s.relations, depth + 1, None)
      else Levels(repo, p, root, depth + 1, depth + 1, s.next, s.works, s.relations)
  }

  function TraverseSpec(repo: Repository, p: Policy, root: Uuid): Traversal {
    Levels(repo, p, root, 0, 0, {root}, [root], [])
  }
}
