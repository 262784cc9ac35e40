/**
 Parent-first ordering of a document's sections
 (src/tarkka/domain/document_structure.py): the stack walk that doubles as a cycle detector.
 */
module DocumentStructure {
  import opened Wrappers
  import opened Ordering

  datatype Passage = Passage(id: nat, ordinal: int)

  datatype Section = Section(id: nat, ordinal: int, parent: Option<nat>, passages: seq<Passage>)

  datatype Fault =
    | DuplicateSections
    | DuplicatePassageIds
    | DuplicatePassageOrdinals
    | MissingParent(id: nat)
    | CyclicParent

  datatype Outcome = Ordered(sections: seq<Section>) | Rejected(fault: Fault)

  // ----- the parent relation

  /** Section ids identify sections. */
  ghost predicate Identified(s: set<Section>) {
    forall x, y :: x in s && y in s && x.id == y.id ==> x == y
  }

  /** `y` stands `n` levels below `x`. */
  ghost predicate Below(s: set<Section>, y: Section, x: Section, n: nat)
    decreases n
  {
    if n == 0 then y == x
    else exists p :: p in s && y.parent == Some(p.id) && Below(s, p, x, n - 1)
  }

  /** Some section is its own ancestor. */
  ghost predicate Cyclic(s: set<Section>) {
    exists x, n: nat :: x in s && n > 0 && Below(s, x, x, n)
  }

  ghost predicate RootedAt(s: set<Section>, y: Section, r: Section, n: nat) {
    r in s && r.parent.None? && Below(s, y, r, n)
  }

  /** Following parents from `y` ends at a root. */
  ghost predicate Rooted(s: set<Section>, y: Section) {
    exists r, n: nat :: RootedAt(s, y, r, n)
  }

  ghost predicate ParentsExist(s: set<Section>) {
    forall y :: y in s && y.parent.Some? ==> exists p :: p in s && p.id == y.parent.value
  }

  // ----- the tree reading of a set of sections

  datatype Tree = Tree(section: Section, kids: seq<Tree>)

  predicate SectionLeq(a: Section, b: Section) {
    if a.ordinal != b.ordinal then a.ordinal < b.ordinal else a.id <= b.id
  }

  ghost function ChildSet(s: set<Section>, parent: Option<nat>): set<Section> {
    set c | c in s && c.parent == parent
  }

  lemma SectionOrder(s: set<Section>)
    requires Identified(s)
    ensures Orders(SectionLeq, s)
  {
  }

  /** `sorted(sections, key=_section_order_key)`. */
  function SortSections(sections: set<Section>): (row: seq<Section>)
    requires Identified(sections)
    ensures Distinct(row) && |row| == |sections|
    ensures forall c :: c in row <==> c in sections
    ensures forall i, j :: 0 <= i < j < |row| ==> row[i].ordinal <= row[j].ordinal
  {
    SectionOrder(sections);
    Sort(sections, SectionLeq)
  }

  /** The children of a section, or the roots, by ordinal. */
  ghost function Row(s: set<Section>, parent: Option<nat>): (row: seq<Section>)
    requires Identified(s)
    ensures Distinct(row)
    ensures forall c :: c in row <==> c in s && c.parent == parent
  {
    SortSections(ChildSet(s, parent))
  }

  ghost function Heads(trees: seq<Tree>): (heads: seq<Section>)
    ensures |heads| == |trees|
    ensures forall i :: 0 <= i < |trees| ==> heads[i] == trees[i].section
  {
    seq(|trees|, i requires 0 <= i < |trees| => trees[i].section)
  }

  /** Every node's kids are exactly its children, by ordinal. */
  ghost predicate IsTree(s: set<Section>, t: Tree)
    requires Identified(s)
  {
    && t.section in s
    && Heads(t.kids) == Row(s, Some(t.section.id))
    && forall k :: k in t.kids ==> IsTree(s, k)
  }

  ghost predicate IsForest(s: set<Section>, forest: seq<Tree>)
    requires Identified(s)
  {
    Heads(forest) == Row(s, None) && forall t :: t in forest ==> IsTree(s, t)
  }

  /** Preorder: a section, then its subtrees one after the other. */
  ghost function Flatten(t: Tree): seq<Section> {
    [t.section] + FlattenAll(t.kids)
  }

  ghost function FlattenAll(trees: seq<Tree>): seq<Section> {
    if trees == [] then [] else Flatten(trees[0]) + FlattenAll(trees[1..])
  }

  // ----- climbing

  lemma {:induction false} BelowUp(s: set<Section>, y: Section, c: Section, x: Section, n: nat)
    requires Below(s, y, c, n) && x in s && c.parent == Some(x.id)
    ensures Below(s, y, x, n + 1)
    decreases n
  {
    if n == 0 {
      assert Below(s, x, x, 0);
    } else {
      var p :| p in s && y.parent == Some(p.id) && Below(s, p, c, n - 1);
      BelowUp(s, p, c, x, n - 1);
    }
  }

  lemma {:induction false} BelowTrans(s: set<Section>, y: Section, c: Section, x: Section, n: nat, m: nat)
    requires Below(s, y, c, n) && Below(s, c, x, m)
    ensures Below(s, y, x, n + m)
    decreases n
  {
    if n > 0 {
      var p :| p in s && y.parent == Some(p.id) && Below(s, p, c, n - 1);
      BelowTrans(s, p, c, x, n - 1, m);
    }
  }

  /** Parents are unique, so two ancestors lie on one line. */
  lemma {:induction false} OneLine(s: set<Section>, y: Section, a: Section, b: Section, n: nat, m: nat)
    requires Identified(s) && Below(s, y, a, n) && Below(s, y, b, m) && n <= m
    ensures Below(s, a, b, m - n)
    decreases n
  {
    if n > 0 {
      var p :| p in s && y.parent == Some(p.id) && Below(s, p, a, n - 1);
      var q :| q in s && y.parent == Some(q.id) && Below(s, q, b, m - 1);
      assert p == q;
      OneLine(s, p, a, b, n - 1, m - 1);
    }
  }

  lemma {:induction false} RootedIsNoCycle(s: set<Section>, x: Section, r: Section, d: nat, m: nat)
    requires Identified(s) && RootedAt(s, x, r, d) && m > 0
    ensures !Below(s, x, x, m)
    decreases d
  {
    if Below(s, x, x, m) {
      var p :| p in s && x.parent == Some(p.id) && Below(s, p, x, m - 1);
      if d > 0 {
        var q :| q in s && x.parent == Some(q.id) && Below(s, q, r, d - 1);
        assert p == q;
        BelowUp(s, p, x, p, m - 1);
        RootedIsNoCycle(s, p, r, d - 1, m);
      }
      assert false;
    }
  }

  lemma ChildIsRooted(s: set<Section>, c: Section, x: Section)
    requires x in s && Rooted(s, x) && c.parent == Some(x.id)
    ensures Rooted(s, c)
  {
    var r, n: nat :| RootedAt(s, x, r, n);
    assert Below(s, c, r, n + 1);
    assert RootedAt(s, c, r, n + 1);
  }

  // ----- the forest exists

  ghost predicate IsUnder(s: set<Section>, y: Section, x: Section) {
    exists n: nat :: Below(s, y, x, n)
  }

  ghost function Subtree(s: set<Section>, x: Section): set<Section> {
    set y | y in s && IsUnder(s, y, x)
  }

  lemma NotUnderChild(s: set<Section>, c: Section, x: Section)
    requires Identified(s) && x in s && Rooted(s, x) && c.parent == Some(x.id)
    ensures x !in Subtree(s, c)
  {
    if x in Subtree(s, c) {
      var n: nat :| Below(s, x, c, n);
      BelowUp(s, x, c, x, n);
      var r, d: nat :| RootedAt(s, x, r, d);
      RootedIsNoCycle(s, x, r, d, n + 1);
      assert false;
    }
  }

  lemma SubtreeShrinks(s: set<Section>, c: Section, x: Section)
    requires Identified(s) && x in s && Rooted(s, x) && c.parent == Some(x.id)
    ensures Subtree(s, c) < Subtree(s, x)
  {
    forall y | y in Subtree(s, c) ensures y in Subtree(s, x) {
      var n: nat :| Below(s, y, c, n);
      BelowUp(s, y, c, x, n);
    }
    assert x in Subtree(s, x) by { assert Below(s, x, x, 0); }
    NotUnderChild(s, c, x);
  }

  lemma HeadsCons(t: Tree, rest: seq<Tree>)
    ensures Heads([t] + rest) == [t.section] + Heads(rest)
  {
  }

  lemma Grow(s: set<Section>, x: Section) returns (t: Tree)
    requires Identified(s) && x in s && Rooted(s, x)
    ensures t.section == x && IsTree(s, t)
    decreases |Subtree(s, x)|, 1, 0
  {
    var row := Row(s, Some(x.id));
    var kids := GrowAll(s, x, row);
    t := Tree(x, kids);
    assert Heads(kids) == row;
  }

  lemma GrowAll(s: set<Section>, x: Section, row: seq<Section>) returns (trees: seq<Tree>)
    requires Identified(s) && x in s && Rooted(s, x)
    requires forall c :: c in row ==> c in s && c.parent == Some(x.id)
    ensures Heads(trees) == row
    ensures forall t :: t in trees ==> IsTree(s, t)
    decreases |Subtree(s, x)|, 0, |row|
  {
    hide Row, Below, Subtree, Rooted, Identified, IsTree;
    if row == [] {
      trees := [];
    } else {
      ChildIsRooted(s, row[0], x);
      SubtreeShrinks(s, row[0], x);
      ProperSubsetSize(Subtree(s, row[0]), Subtree(s, x));
      var t := Grow(s, row[0]);
      var rest := GrowAll(s, x, row[1..]);
      trees := [t] + rest;
      HeadsCons(t, rest);
      assert row == [row[0]] + row[1..];
    }
  }

  lemma GrowForest(s: set<Section>, row: seq<Section>) returns (forest: seq<Tree>)
    requires Identified(s) && forall r :: r in row ==> r in s && r.parent.None?
    ensures Heads(forest) == row
    ensures forall t :: t in forest ==> IsTree(s, t)
  {
    hide Row, Subtree, Identified, IsTree;
    if row == [] {
      forest := [];
    } else {
      assert RootedAt(s, row[0], row[0], 0);
      var t := Grow(s, row[0]);
      var rest := GrowForest(s, row[1..]);
      forest := [t] + rest;
      HeadsCons(t, rest);
      assert row == [row[0]] + row[1..];
    }
  }

  // ----- there is only one

  lemma {:induction false} TreeIsUnique(s: set<Section>, a: Tree, b: Tree)
    requires Identified(s) && IsTree(s, a) && IsTree(s, b) && a.section == b.section
    ensures a == b
    decreases a
  {
    TreesAreUnique(s, a.kids, b.kids);
  }

  lemma {:induction false} TreesAreUnique(s: set<Section>, a: seq<Tree>, b: seq<Tree>)
    requires Identified(s) && Heads(a) == Heads(b)
    requires (forall t :: t in a ==> IsTree(s, t)) && (forall t :: t in b ==> IsTree(s, t))
    ensures a == b
    decreases a
  {
    assert |Heads(a)| == |Heads(b)|;
    forall i | 0 <= i < |a| ensures a[i] == b[i] {
      assert Heads(a)[i] == Heads(b)[i];
      TreeIsUnique(s, a[i], b[i]);
    }
  }

  // ----- what a forest lists

  ghost predicate Lists(trees: seq<Tree>, y: Section) {
    exists t :: t in trees && y in Flatten(t)
  }

  lemma {:induction false} FlattenAllHas(trees: seq<Tree>, y: Section)
    ensures y in FlattenAll(trees) <==> Lists(trees, y)
  {
    hide Flatten;
    if trees != [] {
      FlattenAllHas(trees[1..], y);
      assert trees == [trees[0]] + trees[1..];
      assert Lists(trees, y) <==> y in Flatten(trees[0]) || Lists(trees[1..], y) by {
        if y in Flatten(trees[0]) {
          assert trees[0] in trees;
        }
      }
    }
  }

  /** A tree lists exactly its root's descendants. */
  lemma {:induction false} TreeLists(s: set<Section>, t: Tree, y: Section)
    requires Identified(s) && IsTree(s, t)
    ensures y in Flatten(t) <==> y in Subtree(s, t.section)
    decreases t
  {
    hide Row;
    var x := t.section;
    FlattenAllHas(t.kids, y);
    if y in FlattenAll(t.kids) {
      var k :| k in t.kids && y in Flatten(k);
      TreeLists(s, k, y);
      KidIsChild(s, t, k);
      var n: nat :| Below(s, y, k.section, n);
      BelowUp(s, y, k.section, x, n);
    }
    if y in Subtree(s, x) && y != x {
      var n: nat :| Below(s, y, x, n);
      var c, m := TopChild(s, y, x, n);
      var k := ChildIsKid(s, t, c);
      TreeLists(s, k, y);
    }
    if y == x {
      assert Below(s, x, x, 0);
    }
  }

  lemma {:induction false} KidIsChild(s: set<Section>, t: Tree, k: Tree)
    requires Identified(s) && IsTree(s, t) && k in t.kids
    ensures k.section in s && k.section.parent == Some(t.section.id)
  {
    var i :| 0 <= i < |t.kids| && t.kids[i] == k;
    assert Heads(t.kids)[i] in Row(s, Some(t.section.id));
  }

  lemma ChildIsKid(s: set<Section>, t: Tree, c: Section) returns (k: Tree)
    requires Identified(s) && IsTree(s, t) && c in s && c.parent == Some(t.section.id)
    ensures k in t.kids && k.section == c
  {
    assert c in Heads(t.kids);
    var i :| 0 <= i < |t.kids| && Heads(t.kids)[i] == c;
    k := t.kids[i];
  }

  /** The child of `x` through which `y` is reached. */
  lemma {:induction false} TopChild(s: set<Section>, y: Section, x: Section, n: nat) returns (c: Section, m: nat)
    requires y in s && Below(s, y, x, n) && n > 0
    ensures c in s && c.parent == Some(x.id) && Below(s, y, c, m)
    decreases n
  {
    var p :| p in s && y.parent == Some(p.id) && Below(s, p, x, n - 1);
    if n == 1 {
      c, m := y, 0;
    } else {
      c, m := TopChild(s, p, x, n - 1);
      m := m + 1;
    }
  }

  lemma {:induction false} ForestLists(s: set<Section>, forest: seq<Tree>, y: Section)
    requires Identified(s) && IsForest(s, forest)
    ensures y in FlattenAll(forest) <==> y in s && Rooted(s, y)
  {
    FlattenAllHas(forest, y);
    if y in FlattenAll(forest) {
      var t :| t in forest && y in Flatten(t);
      TreeLists(s, t, y);
      var i :| 0 <= i < |forest| && forest[i] == t;
      assert Heads(forest)[i] in Row(s, None);
      var n: nat :| Below(s, y, t.section, n);
      assert RootedAt(s, y, t.section, n);
    }
    if y in s && Rooted(s, y) {
      var r, n: nat :| RootedAt(s, y, r, n);
      assert r in Heads(forest);
      var i :| 0 <= i < |forest| && Heads(forest)[i] == r;
      TreeLists(s, forest[i], y);
    }
  }

  // ----- nothing is listed twice

  lemma ParentIsRooted(s: set<Section>, c: Section, p: Section)
    requires Identified(s) && p in s && Rooted(s, c) && c.parent == Some(p.id)
    ensures Rooted(s, p)
  {
    var r, n: nat :| RootedAt(s, c, r, n);
    var q :| q in s && c.parent == Some(q.id) && Below(s, q, r, n - 1);
    assert p == q && RootedAt(s, p, r, n - 1);
  }

  /** Subtrees of two siblings share nothing. */
  lemma {:induction false} SiblingsAreApart(s: set<Section>, a: Section, b: Section, y: Section, n: nat, m: nat)
    requires Identified(s) && a in s && b in s && Rooted(s, a) && a.parent == b.parent && n <= m
    requires Below(s, y, a, n) && Below(s, y, b, m)
    ensures a == b
  {
    OneLine(s, y, a, b, n, m);
    if m > n {
      var p :| p in s && a.parent == Some(p.id) && Below(s, p, b, m - n - 1);
      BelowUp(s, p, b, p, m - n - 1);
      ParentIsRooted(s, a, p);
      var r, d: nat :| RootedAt(s, p, r, d);
      RootedIsNoCycle(s, p, r, d, m - n);
      assert false;
    }
  }

  ghost predicate Siblings(s: set<Section>, parent: Option<nat>, trees: seq<Tree>)
    requires Identified(s)
  {
    && Distinct(Heads(trees))
    && forall t :: t in trees ==> t.section in s && IsTree(s, t) && Rooted(s, t.section) && t.section.parent == parent
  }

  lemma {:induction false} TreeIsDistinct(s: set<Section>, t: Tree)
    requires Identified(s) && IsTree(s, t) && Rooted(s, t.section)
    ensures Distinct(Flatten(t))
    decreases t
  {
    hide Row, Below, Subtree, Rooted;
    forall k | k in t.kids ensures k.section in s && Rooted(s, k.section) && k.section.parent == Some(t.section.id) {
      KidIsChild(s, t, k);
      ChildIsRooted(s, k.section, t.section);
    }
    TreesAreDistinct(s, Some(t.section.id), t.kids);
    RootOutsideKids(s, t);
  }

  lemma {:induction false} RootOutsideKids(s: set<Section>, t: Tree)
    requires Identified(s) && IsTree(s, t) && Rooted(s, t.section)
    ensures t.section !in FlattenAll(t.kids)
  {
    hide Row, Below, Rooted, Subtree, Flatten, Identified;
    FlattenAllHas(t.kids, t.section);
    if k :| k in t.kids && t.section in Flatten(k) {
      TreeLists(s, k, t.section);
      KidIsChild(s, t, k);
      NotUnderChild(s, k.section, t.section);
      assert false;
    }
  }

  lemma {:induction false} TreesAreDistinct(s: set<Section>, parent: Option<nat>, trees: seq<Tree>)
    requires Identified(s) && Siblings(s, parent, trees)
    ensures Distinct(FlattenAll(trees))
    decreases trees
  {
    hide Below, Subtree, Rooted, IsTree, Flatten, Identified;
    if trees != [] {
      var t, rest := trees[0], trees[1..];
      assert trees == [t] + rest;
      assert Heads(trees)[1..] == Heads(rest);
      TreeIsDistinct(s, t);
      TreesAreDistinct(s, parent, rest);
      forall y | y in Flatten(t) ensures y !in FlattenAll(rest) {
        FirstTreeApart(s, parent, trees, y);
      }
      DistinctConcat(Flatten(t), FlattenAll(rest));
    }
  }

  lemma FirstTreeApart(s: set<Section>, parent: Option<nat>, trees: seq<Tree>, y: Section)
    requires Identified(s) && Siblings(s, parent, trees) && trees != [] && y in Flatten(trees[0])
    ensures y !in FlattenAll(trees[1..])
  {
    hide Below, Subtree, Rooted, IsTree, Flatten, Identified, FlattenAll;
    FlattenAllHas(trees[1..], y);
    if i :| 1 <= i < |trees| && y in Flatten(trees[i]) {
      assert Heads(trees)[0] != Heads(trees)[i];
      TreesApart(s, trees[0], trees[i], y);
    }
  }

  lemma {:induction false} TreesApart(s: set<Section>, t: Tree, k: Tree, y: Section)
    requires Identified(s) && IsTree(s, t) && IsTree(s, k) && t.section in s && k.section in s && t.section != k.section
    requires Rooted(s, t.section) && Rooted(s, k.section) && t.section.parent == k.section.parent
    requires y in Flatten(t)
    ensures y !in Flatten(k)
  {
    hide IsTree, Flatten, Rooted;
    TreeLists(s, t, y);
    TreeLists(s, k, y);
    if y in Flatten(k) {
      var n: nat :| Below(s, y, t.section, n);
      var m: nat :| Below(s, y, k.section, m);
      if n <= m {
        SiblingsAreApart(s, t.section, k.section, y, n, m);
      } else {
        SiblingsAreApart(s, k.section, t.section, y, m, n);
      }
    }
  }

  lemma {:induction false} ForestIsDistinct(s: set<Section>, forest: seq<Tree>)
    requires Identified(s) && IsForest(s, forest)
    ensures Distinct(FlattenAll(forest))
  {
    hide FlattenAll, Flatten, Identified;
    forall t | t in forest ensures t.section in s && Rooted(s, t.section) && t.section.parent == None {
      var i :| 0 <= i < |forest| && forest[i] == t;
      assert Heads(forest)[i] in Row(s, None);
      assert RootedAt(s, t.section, t.section, 0);
    }
    TreesAreDistinct(s, None, forest);
  }

  // ----- rooted everywhere means acyclic

  ghost predicate IsChain(s: set<Section>, chain: seq<Section>) {
    && (forall i :: 0 <= i < |chain| ==> chain[i] in s)
    && (forall i :: 0 <= i < |chain| - 1 ==> chain[i].parent == Some(chain[i + 1].id))
  }

  lemma {:induction false} ChainClimbs(s: set<Section>, chain: seq<Section>, i: nat, j: nat)
    requires IsChain(s, chain) && i <= j < |chain|
    ensures Below(s, chain[i], chain[j], j - i)
    decreases j - i
  {
    if i < j {
      ChainClimbs(s, chain, i + 1, j);
    }
  }

  lemma {:induction false} UnrootedChain(s: set<Section>, y: Section, n: nat) returns (chain: seq<Section>)
    requires ParentsExist(s) && y in s && !Rooted(s, y)
    ensures |chain| == n + 1 && chain[0] == y && IsChain(s, chain)
    decreases n
  {
    if n == 0 {
      chain := [y];
    } else {
      assert y.parent.Some? by {
        assert Below(s, y, y, 0);
        assert !RootedAt(s, y, y, 0);
      }
      var p :| p in s && p.id == y.parent.value;
      if Rooted(s, p) {
        ChildIsRooted(s, y, p);
      }
      var rest := UnrootedChain(s, p, n - 1);
      chain := [y] + rest;
    }
  }

  /** On existing parents, every section is rooted exactly when no section is its own ancestor. */
  lemma RootedIffAcyclic(s: set<Section>)
    requires Identified(s) && ParentsExist(s)
    ensures (forall y :: y in s ==> Rooted(s, y)) <==> !Cyclic(s)
  {
    if Cyclic(s) {
      var x, n: nat :| x in s && n > 0 && Below(s, x, x, n);
      if Rooted(s, x) {
        var r, d: nat :| RootedAt(s, x, r, d);
        RootedIsNoCycle(s, x, r, d, n);
      }
    }
    if y :| y in s && !Rooted(s, y) {
      var chain := UnrootedChain(s, y, |s|);
      ChainRepeats(s, chain);
    }
  }

  /** A chain longer than the set comes back to a section it has passed. */
  lemma ChainRepeats(s: set<Section>, chain: seq<Section>)
    requires IsChain(s, chain) && |chain| > |s|
    ensures Cyclic(s)
  {
    hide Below;
    if Distinct(chain) {
      DistinctSize(chain);
      SubsetSize(Elements(chain), s);
    }
    var i, j :| 0 <= i < j < |chain| && chain[i] == chain[j];
    ChainClimbs(s, chain, i, j);
    assert chain[i] in s && Below(s, chain[i], chain[i], j - i);
  }
}
