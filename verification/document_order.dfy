/** `_validated_parent_first_sections`: its checks in order, then the stack walk. */
module DocumentOrder {
  import opened Wrappers
  import opened Ordering
  import opened DocumentStructure

  // ----- the checks before the walk

  function SectionIds(sections: seq<Section>): seq<nat> {
    seq(|sections|, i requires 0 <= i < |sections| => sections[i].id)
  }

  function SectionOrdinals(sections: seq<Section>): seq<int> {
    seq(|sections|, i requires 0 <= i < |sections| => sections[i].ordinal)
  }

  ghost predicate UniqueSections(sections: seq<Section>) {
    Distinct(SectionIds(sections)) && Distinct(SectionOrdinals(sections))
  }

  /** The first passage whose id was seen before, or whose ordinal repeats within its section. */
  function PassageFaultIn(passages: seq<Passage>, ids: set<nat>, ordinals: set<int>): Option<Fault> {
    if passages == [] then None
    else if passages[0].id in ids then Some(DuplicatePassageIds)
    else if passages[0].ordinal in ordinals then Some(DuplicatePassageOrdinals)
    else PassageFaultIn(passages[1..], ids + {passages[0].id}, ordinals + {passages[0].ordinal})
  }

  function PassageIds(passages: seq<Passage>): set<nat> {
    set p | p in passages :: p.id
  }

  function PassageFault(sections: seq<Section>, ids: set<nat>): Option<Fault> {
    if sections == [] then None
    else
      var fault := PassageFaultIn(sections[0].passages, ids, {});
      if fault.Some? then fault else PassageFault(sections[1..], ids + PassageIds(sections[0].passages))
  }

  function FirstMissing(sections: seq<Section>, ids: set<nat>): Option<nat> {
    if sections == [] then None
    else if sections[0].parent.Some? && sections[0].parent.value !in ids then sections[0].parent
    else FirstMissing(sections[1..], ids)
  }

  lemma NoPassageIds()
    ensures PassageIds([]) == {}
  {
  }

  lemma PassageIdsAppend(passages: seq<Passage>, p: Passage)
    ensures PassageIds(passages + [p]) == PassageIds(passages) + {p.id}
  {
  }

  method CheckPassages(sections: seq<Section>) returns (fault: Option<Fault>)
    ensures fault == PassageFault(sections, {})
  {
    hide PassageIds;
    NoPassageIds();
    var ids: set<nat> := {};
    for i := 0 to |sections|
      invariant PassageFault(sections[i..], ids) == PassageFault(sections, {})
    {
      assert sections[i..][0] == sections[i] && sections[i..][1..] == sections[i + 1..];
      var passages := sections[i].passages;
      var ordinals: set<int> := {};
      ghost var before := ids;
      for j := 0 to |passages|
        invariant PassageFaultIn(passages[j..], ids, ordinals) == PassageFaultIn(passages, before, {})
        invariant ids == before + PassageIds(passages[..j])
      {
        assert passages[j..][0] == passages[j] && passages[j..][1..] == passages[j + 1..];
        assert passages[..j + 1] == passages[..j] + [passages[j]];
        PassageIdsAppend(passages[..j], passages[j]);
        if passages[j].id in ids {
          return Some(DuplicatePassageIds);
        }
        if passages[j].ordinal in ordinals {
          return Some(DuplicatePassageOrdinals);
        }
        ids := ids + {passages[j].id};
        ordinals := ordinals + {passages[j].ordinal};
      }
      assert passages[..|passages|] == passages;
    }
    return None;
  }

  // ----- what acceptance means

  /** The sections in preorder of their parent forest, children by ordinal. */
  ghost predicate IsPreorder(s: set<Section>, ordered: seq<Section>)
    requires Identified(s)
  {
    && Distinct(ordered)
    && Elements(ordered) == s
    && exists forest :: IsForest(s, forest) && ordered == FlattenAll(forest)
  }

  /** There is at most one such order. */
  lemma PreorderIsUnique(s: set<Section>, a: seq<Section>, b: seq<Section>)
    requires Identified(s) && IsPreorder(s, a) && IsPreorder(s, b)
    ensures a == b
  {
    var f :| IsForest(s, f) && a == FlattenAll(f);
    var g :| IsForest(s, g) && b == FlattenAll(g);
    TreesAreUnique(s, f, g);
  }

  lemma IdsIdentify(sections: seq<Section>)
    requires Distinct(SectionIds(sections))
    ensures Identified(Elements(sections)) && Distinct(sections)
  {
    forall x, y | x in Elements(sections) && y in Elements(sections) && x.id == y.id ensures x == y {
      var i :| 0 <= i < |sections| && sections[i] == x;
      var j :| 0 <= j < |sections| && sections[j] == y;
      assert SectionIds(sections)[i] == SectionIds(sections)[j];
    }
    forall i, j | 0 <= i < j < |sections| ensures sections[i] != sections[j] {
      assert SectionIds(sections)[i] != SectionIds(sections)[j];
    }
  }

  lemma {:induction false} NoneMissing(sections: seq<Section>, ids: set<nat>)
    ensures FirstMissing(sections, ids).None? <==>
            forall x :: x in sections && x.parent.Some? ==> x.parent.value in ids
  {
    if sections != [] {
      NoneMissing(sections[1..], ids);
      assert sections == [sections[0]] + sections[1..];
    }
  }

  lemma {:induction false} ParentsFound(sections: seq<Section>)
    requires FirstMissing(sections, Elements(SectionIds(sections))).None?
    ensures ParentsExist(Elements(sections))
  {
    var ids := Elements(SectionIds(sections));
    NoneMissing(sections, ids);
    forall y | y in Elements(sections) && y.parent.Some?
      ensures exists p :: p in Elements(sections) && p.id == y.parent.value
    {
      assert y.parent.value in SectionIds(sections);
      var i :| 0 <= i < |sections| && SectionIds(sections)[i] == y.parent.value;
      assert sections[i] in Elements(sections);
    }
  }

  /** The walk lists as many sections as there are exactly when there is no cycle. */
  lemma {:induction false} ListingIsTotalIffAcyclic(s: set<Section>, forest: seq<Tree>)
    requires Identified(s) && ParentsExist(s) && IsForest(s, forest)
    ensures |FlattenAll(forest)| == |s| <==> !Cyclic(s)
    ensures !Cyclic(s) ==> IsPreorder(s, FlattenAll(forest))
  {
    hide Rooted, Cyclic, Identified, IsTree, FlattenAll;
    var ordered := FlattenAll(forest);
    ForestIsDistinct(s, forest);
    DistinctSize(ordered);
    RootedIffAcyclic(s);
    forall y ensures y in ordered <==> y in s && Rooted(s, y) {
      ForestLists(s, forest, y);
    }
    assert Elements(ordered) <= s;
    if Elements(ordered) != s {
      ProperSubsetSize(Elements(ordered), s);
    }
  }

  /** A parent is listed before its child. */
  lemma {:induction false} ParentFirst(s: set<Section>, t: Tree, j: nat)
    requires Identified(s) && IsTree(s, t) && 0 < j < |Flatten(t)|
    ensures exists i :: 0 <= i < j && Flatten(t)[j].parent == Some(Flatten(t)[i].id)
    decreases t, 0
  {
    hide Row;
    ParentFirstAmong(s, t, t.kids, j - 1);
    var all := FlattenAll(t.kids);
    if all[j - 1].parent == Some(t.section.id) {
      assert Flatten(t)[0] == t.section;
    } else {
      var i :| 0 <= i < j - 1 && all[j - 1].parent == Some(all[i].id);
      assert Flatten(t)[i + 1] == all[i];
    }
  }

  lemma {:induction false} ParentFirstAmong(s: set<Section>, t: Tree, kids: seq<Tree>, j: nat)
    requires Identified(s) && IsTree(s, t) && j < |FlattenAll(kids)|
    requires forall k :: k in kids ==> k in t.kids
    ensures var all := FlattenAll(kids);
            all[j].parent == Some(t.section.id) || exists i :: 0 <= i < j && all[j].parent == Some(all[i].id)
    decreases t, 0, kids
  {
    hide Row;
    var all, first, rest := FlattenAll(kids), Flatten(kids[0]), FlattenAll(kids[1..]);
    assert kids[0] in kids;
    if j == 0 {
      KidIsChild(s, t, kids[0]);
      assert all[0] == first[0];
    } else if j < |first| {
      ParentFirst(s, kids[0], j);
      var i :| 0 <= i < j && first[j].parent == Some(first[i].id);
      assert all[i] == first[i] && all[j] == first[j];
    } else {
      ParentFirstAmong(s, t, kids[1..], j - |first|);
      assert all[j] == rest[j - |first|];
      if i :| 0 <= i < j - |first| && rest[j - |first|].parent == Some(rest[i].id) {
        assert all[i + |first|] == rest[i];
      }
    }
  }

  lemma {:induction false} ForestParentFirst(s: set<Section>, trees: seq<Tree>, j: nat)
    requires Identified(s) && j < |FlattenAll(trees)|
    requires forall t :: t in trees ==> IsTree(s, t) && t.section.parent.None?
    ensures var all := FlattenAll(trees);
            all[j].parent.None? || exists i :: 0 <= i < j && all[j].parent == Some(all[i].id)
    decreases |trees|
  {
    hide Row, IsTree;
    var all, first, rest := FlattenAll(trees), Flatten(trees[0]), FlattenAll(trees[1..]);
    assert trees[0] in trees;
    if j < |first| {
      if j > 0 {
        ParentFirst(s, trees[0], j);
        var i :| 0 <= i < j && first[j].parent == Some(first[i].id);
        assert all[i] == first[i] && all[j] == first[j];
      }
    } else {
      ForestParentFirst(s, trees[1..], j - |first|);
      assert all[j] == rest[j - |first|];
      if i :| 0 <= i < j - |first| && rest[j - |first|].parent == Some(rest[i].id) {
        assert all[i + |first|] == rest[i];
      }
    }
  }

  /** Main result on the order itself: parents come first. */
  lemma PreorderIsParentFirst(s: set<Section>, ordered: seq<Section>, j: nat)
    requires Identified(s) && IsPreorder(s, ordered) && j < |ordered| && ordered[j].parent.Some?
    ensures exists i :: 0 <= i < j && ordered[j].parent == Some(ordered[i].id)
  {
    var forest :| IsForest(s, forest) && ordered == FlattenAll(forest);
    forall t | t in forest ensures IsTree(s, t) && t.section.parent.None? {
      var i :| 0 <= i < |forest| && forest[i] == t;
      assert Heads(forest)[i] in Row(s, None);
    }
    ForestParentFirst(s, forest, j);
  }

  // ----- the walk

  function Reverse<T>(s: seq<T>): (r: seq<T>)
    ensures |r| == |s|
    ensures forall i :: 0 <= i < |s| ==> r[i] == s[|s| - 1 - i]
  {
    seq(|s|, i requires 0 <= i < |s| => s[|s| - 1 - i])
  }

  /** The dictionary of child lists, and the roots. */
  ghost predicate Indexed(s: set<Section>, children: map<nat, seq<Section>>, roots: seq<Section>) {
    && (forall x :: x in s ==> x.id in children)
    && (forall id :: id in children ==> Elements(children[id]) == ChildSet(s, Some(id)))
    && Elements(roots) == ChildSet(s, None)
  }

  lemma ChildSetGrows(s: set<Section>, x: Section)
    ensures ChildSet(s + {x}, x.parent) == ChildSet(s, x.parent) + {x}
    ensures forall parent :: parent != x.parent ==> ChildSet(s + {x}, parent) == ChildSet(s, parent)
  {
  }

  lemma ElementsAppend(s: seq<Section>, x: Section)
    ensures Elements(s + [x]) == Elements(s) + {x}
  {
  }

  method IndexChildren(sections: seq<Section>) returns (children: map<nat, seq<Section>>, roots: seq<Section>)
    requires forall x :: x in sections && x.parent.Some? ==> x.parent.value in SectionIds(sections)
    ensures Indexed(Elements(sections), children, roots)
  {
    hide Elements, ChildSet;
    children := map id | id in SectionIds(sections) :: [];
    roots := [];
    NoChildren();
    for i := 0 to |sections|
      invariant forall id :: id in children <==> id in SectionIds(sections)
      invariant forall id :: id in children ==> Elements(children[id]) == ChildSet(Elements(sections[..i]), Some(id))
      invariant Elements(roots) == ChildSet(Elements(sections[..i]), None)
    {
      var x := sections[i];
      assert x in sections;
      assert sections[..i + 1] == sections[..i] + [x];
      ElementsAppend(sections[..i], x);
      ChildSetGrows(Elements(sections[..i]), x);
      if x.parent.None? {
        ElementsAppend(roots, x);
        roots := roots + [x];
      } else {
        ElementsAppend(children[x.parent.value], x);
        children := children[x.parent.value := children[x.parent.value] + [x]];
      }
    }
    assert sections[..|sections|] == sections;
    IdsOfSections(sections);
  }

  lemma NoChildren()
    ensures Elements<Section>([]) == {}
    ensures forall parent :: ChildSet({}, parent) == {}
  {
  }

  lemma IdsOfSections(sections: seq<Section>)
    ensures forall x :: x in Elements(sections) ==> x.id in SectionIds(sections)
  {
    forall x | x in Elements(sections) ensures x.id in SectionIds(sections) {
      var i :| 0 <= i < |sections| && sections[i] == x;
      assert SectionIds(sections)[i] == x.id;
    }
  }

  lemma {:induction false} FlattenAllConcat(a: seq<Tree>, b: seq<Tree>)
    ensures FlattenAll(a + b) == FlattenAll(a) + FlattenAll(b)
  {
    if a == [] {
      assert a + b == b;
    } else {
      assert (a + b)[0] == a[0] && (a + b)[1..] == a[1..] + b;
      FlattenAllConcat(a[1..], b);
    }
  }

  lemma ReversePop(stack: seq<Section>, row: seq<Section>)
    requires stack != []
    ensures Reverse(stack) == [stack[|stack| - 1]] + Reverse(stack[..|stack| - 1])
    ensures Reverse(stack[..|stack| - 1] + Reverse(row)) == row + Reverse(stack[..|stack| - 1])
  {
  }

  lemma HeadsConcat(a: seq<Tree>, b: seq<Tree>)
    ensures Heads(a + b) == Heads(a) + Heads(b)
  {
  }

  lemma {:induction false} TreeParts(s: set<Section>, t: Tree)
    requires Identified(s) && IsTree(s, t)
    ensures t.section in s && Heads(t.kids) == Row(s, Some(t.section.id)) && forall k :: k in t.kids ==> IsTree(s, k)
  {
    hide Identified, Row, Heads;
  }

  /** The top of the stack is the head of the first tree. */
  lemma TopIsFirst(stack: seq<Section>, pending: seq<Tree>)
    requires stack != [] && Heads(pending) == Reverse(stack)
    ensures pending != [] && pending[0].section == stack[|stack| - 1] && pending == [pending[0]] + pending[1..]
    ensures Heads(pending[1..]) == Reverse(stack[..|stack| - 1])
  {
    hide Heads, Reverse;
    assert |pending| == |stack|;
    assert pending[0].section == Heads(pending)[0] == Reverse(stack)[0];
    assert pending == [pending[0]] + pending[1..];
    HeadsCons(pending[0], pending[1..]);
    ReversePop(stack, []);
  }

  /** One pop: the node is listed and its kids take its place at the top of the stack. */
  lemma {:induction false} PopStep(s: set<Section>, stack: seq<Section>, pending: seq<Tree>)
    requires Identified(s) && stack != [] && Heads(pending) == Reverse(stack)
    requires forall t :: t in pending ==> IsTree(s, t)
    ensures pending != [] && pending[0].section == stack[|stack| - 1] && pending[0].section in s
    ensures Heads(pending[0].kids + pending[1..]) ==
            Reverse(stack[..|stack| - 1] + Reverse(Row(s, Some(stack[|stack| - 1].id))))
    ensures forall t :: t in pending[0].kids + pending[1..] ==> IsTree(s, t)
    ensures FlattenAll(pending) == [pending[0].section] + FlattenAll(pending[0].kids + pending[1..])
  {
    hide Row, Identified, IsTree, Heads, Reverse;
    TopIsFirst(stack, pending);
    var node, rest := pending[0], pending[1..];
    TreeParts(s, node);
    ReversePop(stack, Row(s, Some(node.section.id)));
    HeadsConcat(node.kids, rest);
    FlattenAllConcat(node.kids, rest);
  }

  /** During the walk: the stack holds the heads of the trees still to be listed. */
  ghost predicate Midway(s: set<Section>, forest: seq<Tree>, stack: seq<Section>, pending: seq<Tree>,
                         ordered: seq<Section>)
    requires Identified(s)
  {
    && Heads(pending) == Reverse(stack)
    && (forall t :: t in pending ==> IsTree(s, t))
    && ordered + FlattenAll(pending) == FlattenAll(forest)
  }

  lemma {:induction false} MidwayStep(s: set<Section>, forest: seq<Tree>, stack: seq<Section>, pending: seq<Tree>,
                                      ordered: seq<Section>)
    requires Identified(s) && stack != [] && Midway(s, forest, stack, pending, ordered)
    ensures var x := stack[|stack| - 1];
            && pending != [] && x in s
            && |FlattenAll(pending[0].kids + pending[1..])| < |FlattenAll(pending)|
            && Midway(s, forest, stack[..|stack| - 1] + Reverse(Row(s, Some(x.id))),
                      pending[0].kids + pending[1..], ordered + [x])
  {
    hide Identified, IsTree, FlattenAll, Heads, Row, Reverse;
    PopStep(s, stack, pending);
  }

  method Walk(sections: seq<Section>, children: map<nat, seq<Section>>, roots: seq<Section>, ghost forest: seq<Tree>)
    returns (ordered: seq<Section>)
    requires Identified(Elements(sections)) && Indexed(Elements(sections), children, roots)
    requires IsForest(Elements(sections), forest)
    ensures ordered == FlattenAll(forest)
  {
    ghost var s := Elements(sections);
    hide Identified, Elements, Indexed, Row, SortSections, Midway, IsForest;
    RowOfIndex(s, children, roots);
    var stack := Reverse(SortSections(Elements(roots)));
    MidwayStart(s, forest);
    ordered := [];
    ghost var pending := forest;
    while stack != []
      invariant Midway(s, forest, stack, pending, ordered)
      decreases |FlattenAll(pending)|
    {
      var section := stack[|stack| - 1];
      MidwayStep(s, forest, stack, pending, ordered);
      stack := stack[..|stack| - 1] + Reverse(SortSections(Elements(children[section.id])));
      ordered := ordered + [section];
      pending := pending[0].kids + pending[1..];
    }
    MidwayEnd(s, forest, pending, ordered);
  }

  lemma MidwayStart(s: set<Section>, forest: seq<Tree>)
    requires Identified(s) && IsForest(s, forest)
    ensures Midway(s, forest, Reverse(Row(s, None)), forest, [])
  {
    ReverseTwice(Row(s, None));
  }

  lemma {:induction false} MidwayEnd(s: set<Section>, forest: seq<Tree>, pending: seq<Tree>, ordered: seq<Section>)
    requires Identified(s) && Midway(s, forest, [], pending, ordered)
    ensures ordered == FlattenAll(forest)
  {
    NothingPending(pending);
  }

  lemma ReverseTwice(s: seq<Section>)
    ensures Reverse(Reverse(s)) == s
  {
  }

  lemma {:induction false} NothingPending(pending: seq<Tree>)
    requires Heads(pending) == Reverse([])
    ensures FlattenAll(pending) == []
  {
    assert |Heads(pending)| == 0;
  }

  lemma RowOfIndex(s: set<Section>, children: map<nat, seq<Section>>, roots: seq<Section>)
    requires Identified(s) && Indexed(s, children, roots)
    ensures Identified(Elements(roots)) && SortSections(Elements(roots)) == Row(s, None)
    ensures forall x :: x in s ==> x.id in children && Identified(Elements(children[x.id])) &&
                                   SortSections(Elements(children[x.id])) == Row(s, Some(x.id))
  {
  }

  /** The first check that fails decides; what passes them all is accepted exactly when acyclic, in preorder. */
  ghost predicate IsVerdict(sections: seq<Section>, outcome: Outcome) {
    && (outcome == Rejected(DuplicateSections) <==> !UniqueSections(sections))
    && (UniqueSections(sections) ==>
          var passages, missing := PassageFault(sections, {}), FirstMissing(sections, Elements(SectionIds(sections)));
          if passages.Some? then outcome == Rejected(passages.value)
          else if missing.Some? then outcome == Rejected(MissingParent(missing.value))
          else if Cyclic(Elements(sections)) then outcome == Rejected(CyclicParent)
          else outcome.Ordered? && Identified(Elements(sections)) && IsPreorder(Elements(sections), outcome.sections))
  }

  /** Main result: each rejection has its exact cause, and acceptance is exactly an acyclic hierarchy. */
  method ValidatedParentFirst(sections: seq<Section>) returns (outcome: Outcome)
    ensures IsVerdict(sections, outcome)
  {
    hide PassageFault, FirstMissing, Cyclic, IsPreorder, Elements, SectionIds, SectionOrdinals, Distinct, Identified,
      IsForest;
    var ids, ordinals := SectionIds(sections), SectionOrdinals(sections);
    SizesTell(ids);
    SizesTell(ordinals);
    if |ids| != |Elements(ids)| || |ordinals| != |Elements(ordinals)| {
      return Rejected(DuplicateSections);
    }
    var fault := CheckPassages(sections);
    if fault.Some? {
      PassageFaultIsNoOther(sections, {});
      return Rejected(fault.value);
    }
    var missing := FirstMissing(sections, Elements(ids));
    if missing.Some? {
      return Rejected(MissingParent(missing.value));
    }
    IdsIdentify(sections);
    ParentsFound(sections);
    ParentIdsKnown(sections);
    var children, roots := IndexChildren(sections);
    ghost var forest := TheForest(Elements(sections));
    var ordered := Walk(sections, children, roots, forest);
    ListingIsTotalIffAcyclic(Elements(sections), forest);
    DistinctSize(sections);
    if |ordered| != |sections| {
      return Rejected(CyclicParent);
    }
    return Ordered(ordered);
  }

  lemma SizesTell<T>(s: seq<T>)
    ensures |s| == |Elements(s)| <==> Distinct(s)
  {
    ElementsSize(s);
    if Distinct(s) {
      DistinctSize(s);
    }
  }

  lemma {:induction false} PassageFaultIsNoOther(sections: seq<Section>, ids: set<nat>)
    ensures var fault := PassageFault(sections, ids);
            fault.Some? ==> fault.value.DuplicatePassageIds? || fault.value.DuplicatePassageOrdinals?
  {
    if sections != [] {
      PassageFaultInIsNoOther(sections[0].passages, ids, {});
      PassageFaultIsNoOther(sections[1..], ids + PassageIds(sections[0].passages));
    }
  }

  lemma {:induction false} PassageFaultInIsNoOther(passages: seq<Passage>, ids: set<nat>, ordinals: set<int>)
    ensures var fault := PassageFaultIn(passages, ids, ordinals);
            fault.Some? ==> fault.value.DuplicatePassageIds? || fault.value.DuplicatePassageOrdinals?
  {
    if passages != [] {
      PassageFaultInIsNoOther(passages[1..], ids + {passages[0].id}, ordinals + {passages[0].ordinal});
    }
  }

  lemma {:induction false} ParentIdsKnown(sections: seq<Section>)
    requires FirstMissing(sections, Elements(SectionIds(sections))).None?
    ensures forall x :: x in sections && x.parent.Some? ==> x.parent.value in SectionIds(sections)
  {
    NoneMissing(sections, Elements(SectionIds(sections)));
  }

  lemma TheForest(s: set<Section>) returns (forest: seq<Tree>)
    requires Identified(s)
    ensures IsForest(s, forest)
  {
    forest := GrowForest(s, Row(s, None));
  }

  // ----- what the passage checks accept

  ghost function PassageIdList(passages: seq<Passage>): seq<nat> {
    seq(|passages|, i requires 0 <= i < |passages| => passages[i].id)
  }

  ghost function PassageOrdinals(passages: seq<Passage>): seq<int> {
    seq(|passages|, i requires 0 <= i < |passages| => passages[i].ordinal)
  }

  ghost function AllPassageIds(sections: seq<Section>): seq<nat> {
    if sections == [] then [] else PassageIdList(sections[0].passages) + AllPassageIds(sections[1..])
  }

  ghost predicate Fresh<T>(s: seq<T>, seen: set<T>) {
    Distinct(s) && forall x | x in s :: x !in seen
  }

  lemma FreshCons<T>(x: T, rest: seq<T>, seen: set<T>)
    ensures Fresh([x] + rest, seen) <==> x !in seen && Fresh(rest, seen + {x})
  {
    var all := [x] + rest;
    if x !in seen && Fresh(rest, seen + {x}) {
      assert forall i :: 0 < i < |all| ==> all[i] == rest[i - 1];
    }
    if Fresh(all, seen) {
      assert all[0] == x && forall i :: 0 <= i < |rest| ==> rest[i] == all[i + 1];
      forall y | y in rest ensures y !in seen + {x} {
        var i :| 0 <= i < |rest| && rest[i] == y;
        assert all[0] != all[i + 1] && all[i + 1] in all;
      }
    }
  }

  lemma FreshConcat<T>(a: seq<T>, b: seq<T>, seen: set<T>)
    ensures Fresh(a + b, seen) <==> Fresh(a, seen) && Fresh(b, seen + Elements(a))
    decreases |a|
  {
    hide Fresh;
    if a == [] {
      assert a + b == b && seen + Elements(a) == seen;
      assert Fresh(a, seen) by { NothingFresh(seen); }
    } else {
      assert a == [a[0]] + a[1..] && a + b == [a[0]] + (a[1..] + b);
      assert seen + {a[0]} + Elements(a[1..]) == seen + Elements(a);
      FreshCons(a[0], a[1..], seen);
      FreshCons(a[0], a[1..] + b, seen);
      FreshConcat(a[1..], b, seen + {a[0]});
    }
  }

  lemma NothingFresh<T>(seen: set<T>)
    ensures Fresh([], seen)
  {
  }

  lemma {:induction false} CleanSection(passages: seq<Passage>, ids: set<nat>, ordinals: set<int>)
    ensures PassageFaultIn(passages, ids, ordinals).None? <==>
            Fresh(PassageIdList(passages), ids) && Fresh(PassageOrdinals(passages), ordinals)
  {
    hide Fresh;
    if passages == [] {
      NothingFresh(ids);
      NothingFresh(ordinals);
    } else {
      var p, rest := passages[0], passages[1..];
      assert PassageIdList(passages) == [p.id] + PassageIdList(rest);
      assert PassageOrdinals(passages) == [p.ordinal] + PassageOrdinals(rest);
      FreshCons(p.id, PassageIdList(rest), ids);
      FreshCons(p.ordinal, PassageOrdinals(rest), ordinals);
      CleanSection(rest, ids + {p.id}, ordinals + {p.ordinal});
    }
  }

  /** The passage checks pass exactly when ids never repeat and ordinals never repeat within a section. */
  lemma {:induction false} CleanPassages(sections: seq<Section>, ids: set<nat>)
    ensures PassageFault(sections, ids).None? <==>
            && Fresh(AllPassageIds(sections), ids)
            && forall x :: x in sections ==> Distinct(PassageOrdinals(x.passages))
  {
    hide PassageFaultIn, Distinct, PassageIds;
    if sections == [] {
      NothingFresh(ids);
    } else {
      var x, rest := sections[0], sections[1..];
      assert sections == [x] + rest;
      CleanSection(x.passages, ids, {});
      OrdinalsFresh(x.passages);
      IdListElements(x.passages);
      FreshConcat(PassageIdList(x.passages), AllPassageIds(rest), ids);
      CleanPassages(rest, ids + PassageIds(x.passages));
    }
  }

  lemma OrdinalsFresh(passages: seq<Passage>)
    ensures Fresh(PassageOrdinals(passages), {}) <==> Distinct(PassageOrdinals(passages))
  {
  }

  lemma IdListElements(passages: seq<Passage>)
    ensures Elements(PassageIdList(passages)) == PassageIds(passages)
  {
    forall id | id in PassageIds(passages) ensures id in PassageIdList(passages) {
      var p :| p in passages && p.id == id;
      var i :| 0 <= i < |passages| && passages[i] == p;
      assert PassageIdList(passages)[i] == id;
    }
  }

  // ----- the order of the input

  /** The lists `f` gives for the sections, one after the other. */
  ghost function Gather<T>(sections: seq<Section>, f: Section -> seq<T>): seq<T> {
    if sections == [] then [] else f(sections[0]) + Gather(sections[1..], f)
  }

  lemma {:induction false} GatherJoins<T>(a: seq<Section>, b: seq<Section>, f: Section -> seq<T>)
    ensures Gather(a + b, f) == Gather(a, f) + Gather(b, f)
  {
    if a == [] {
      assert a + b == b;
    } else {
      assert (a + b)[1..] == a[1..] + b;
      GatherJoins(a[1..], b, f);
    }
  }

  lemma {:induction false} GatherCons<T>(x: Section, rest: seq<Section>, f: Section -> seq<T>)
    ensures Gather([x] + rest, f) == f(x) + Gather(rest, f)
  {
    assert ([x] + rest)[1..] == rest;
  }

  /** Taking one section out of a list takes its items out of what is gathered. */
  lemma {:induction false} GatherWithout<T>(b: seq<Section>, k: nat, f: Section -> seq<T>)
    requires k < |b|
    ensures multiset(Gather(b, f)) == multiset(f(b[k])) + multiset(Gather(b[..k] + b[k + 1..], f))
  {
    hide Gather;
    var before, after := b[..k], b[k + 1..];
    assert b == before + ([b[k]] + after);
    GatherJoins(before, after, f);
    GatherJoins(before, [b[k]] + after, f);
    GatherCons(b[k], after, f);
  }

  lemma SameRest<T>(a: seq<T>, b: seq<T>, k: nat)
    requires multiset(a) == multiset(b) && a != [] && k < |b| && b[k] == a[0]
    ensures multiset(a[1..]) == multiset(b[..k] + b[k + 1..])
  {
    var before, after := b[..k], b[k + 1..];
    assert a == [a[0]] + a[1..];
    assert b == before + ([b[k]] + after);
    assert multiset(before + after) == multiset(b) - multiset{b[k]};
    assert multiset(a[1..]) == multiset(a) - multiset{a[0]};
  }

  lemma FindFirst<T>(a: seq<T>, b: seq<T>) returns (k: nat)
    requires multiset(a) == multiset(b) && a != []
    ensures k < |b| && b[k] == a[0]
  {
    assert a[0] in multiset(b);
    k :| k < |b| && b[k] == a[0];
  }

  lemma {:induction false} GatherPermutes<T>(a: seq<Section>, b: seq<Section>, f: Section -> seq<T>)
    requires multiset(a) == multiset(b)
    ensures multiset(Gather(a, f)) == multiset(Gather(b, f))
  {
    if a == [] {
      assert |multiset(b)| == 0;
    } else {
      var k := FindFirst(a, b);
      SameRest(a, b, k);
      GatherPermutes(a[1..], b[..k] + b[k + 1..], f);
      GatherWithout(b, k, f);
    }
  }

  lemma {:induction false} IdsAreGathered(sections: seq<Section>)
    ensures Gather(sections, (x: Section) => [x.id]) == SectionIds(sections)
  {
    if sections != [] {
      IdsAreGathered(sections[1..]);
    }
  }

  lemma {:induction false} OrdinalsAreGathered(sections: seq<Section>)
    ensures Gather(sections, (x: Section) => [x.ordinal]) == SectionOrdinals(sections)
  {
    if sections != [] {
      OrdinalsAreGathered(sections[1..]);
    }
  }

  lemma {:induction false} PassageIdsAreGathered(sections: seq<Section>)
    ensures Gather(sections, (x: Section) => PassageIdList(x.passages)) == AllPassageIds(sections)
  {
    if sections != [] {
      PassageIdsAreGathered(sections[1..]);
    }
  }

  lemma DistinctPermutes<T>(a: seq<T>, b: seq<T>)
    requires multiset(a) == multiset(b)
    ensures Elements(a) == Elements(b) && (Distinct(a) <==> Distinct(b))
  {
    assert forall x :: x in a <==> x in multiset(a);
    assert forall x :: x in b <==> x in multiset(b);
    assert |a| == |multiset(a)| == |b|;
    SizesTell(a);
    SizesTell(b);
  }

  lemma UniquenessPermutes(a: seq<Section>, b: seq<Section>)
    requires multiset(a) == multiset(b)
    ensures UniqueSections(a) <==> UniqueSections(b)
    ensures Elements(SectionIds(a)) == Elements(SectionIds(b))
  {
    GatherPermutes(a, b, (x: Section) => [x.id]);
    GatherPermutes(a, b, (x: Section) => [x.ordinal]);
    IdsAreGathered(a);
    IdsAreGathered(b);
    OrdinalsAreGathered(a);
    OrdinalsAreGathered(b);
    DistinctPermutes(SectionIds(a), SectionIds(b));
    DistinctPermutes(SectionOrdinals(a), SectionOrdinals(b));
  }

  lemma {:induction false} PassageChecksPermute(a: seq<Section>, b: seq<Section>)
    requires multiset(a) == multiset(b)
    ensures PassageFault(a, {}).None? <==> PassageFault(b, {}).None?
  {
    GatherPermutes(a, b, (x: Section) => PassageIdList(x.passages));
    PassageIdsAreGathered(a);
    PassageIdsAreGathered(b);
    DistinctPermutes(AllPassageIds(a), AllPassageIds(b));
    DistinctPermutes(a, b);
    CleanPassages(a, {});
    CleanPassages(b, {});
    assert forall x :: x in a <==> x in Elements(a);
    assert forall x :: x in b <==> x in Elements(b);
  }

  lemma {:induction false} ParentChecksPermute(a: seq<Section>, b: seq<Section>)
    requires multiset(a) == multiset(b)
    ensures FirstMissing(a, Elements(SectionIds(a))).None? <==> FirstMissing(b, Elements(SectionIds(b))).None?
  {
    UniquenessPermutes(a, b);
    DistinctPermutes(a, b);
    NoneMissing(a, Elements(SectionIds(a)));
    NoneMissing(b, Elements(SectionIds(b)));
    assert forall x :: x in a <==> x in Elements(a);
    assert forall x :: x in b <==> x in Elements(b);
  }

  /**
   The order of the input does not matter: the same sections are accepted or not alike, with the same result.
   A rejection is of the same stage, though which passage or parent it names may differ.
   */
  lemma InputOrderIsIrrelevant(a: seq<Section>, b: seq<Section>, x: Outcome, y: Outcome)
    requires multiset(a) == multiset(b) && IsVerdict(a, x) && IsVerdict(b, y)
    ensures x.Ordered? || y.Ordered? ==> x == y
    ensures x == Rejected(DuplicateSections) <==> y == Rejected(DuplicateSections)
    ensures x == Rejected(CyclicParent) <==> y == Rejected(CyclicParent)
    ensures x.Rejected? && x.fault.MissingParent? <==> y.Rejected? && y.fault.MissingParent?
  {
    hide UniqueSections, PassageFault, FirstMissing, Cyclic, IsPreorder, Elements, SectionIds, Identified;
    UniquenessPermutes(a, b);
    PassageChecksPermute(a, b);
    ParentChecksPermute(a, b);
    DistinctPermutes(a, b);
    PassageFaultIsNoOther(a, {});
    PassageFaultIsNoOther(b, {});
    if x.Ordered? && y.Ordered? {
      PreorderIsUnique(Elements(a), x.sections, y.sections);
    }
  }
}
