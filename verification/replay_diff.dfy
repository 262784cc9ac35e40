/** Bounded structural diff of two JSON trees (src/tarkka/application/replay.py). */
module ReplayDiff {
  import opened Wrappers
  import opened PythonText

  datatype Json =
    | Null
    | Bool(b: bool)
    | Int(i: int)
    | Float(r: real)
    | Text(s: string)
    | List(items: seq<Json>)
    | Object(fields: map<string, Json>)

  /** How a value is rendered for a diagnostic, before it is shortened. */
  type Renderer = Json -> string

  datatype Mismatch = Mismatch(path: string, expected: string, actual: string)

  predicate IsNumber(v: Json) {
    v.Bool? || v.Int? || v.Float?
  }

  function NumberOf(v: Json): real
    requires IsNumber(v)
  {
    match v
    case Bool(b) => if b then 1.0 else 0.0
    case Int(i) => i as real
    case Float(r) => r
  }

  /** Python equality where at least one side is a leaf, or the containers differ in kind. */
  predicate LeafEqual(e: Json, a: Json) {
    || (e.Null? && a.Null?)
    || (e.Text? && a.Text? && e.s == a.s)
    || (IsNumber(e) && IsNumber(a) && NumberOf(e) == NumberOf(a))
  }

  /** `_diagnostic`. */
  function Diagnostic(render: Renderer, v: Json, chars: nat): (d: string)
    requires chars >= 1
    ensures |d| <= chars
  {
    var rendered := render(v);
    if |rendered| <= chars then rendered else rendered[..chars - 1] + "…"
  }

  function Note(render: Renderer, chars: nat, path: string, e: Json, a: Json): Mismatch
    requires chars >= 1
  {
    Mismatch(if path == [] then "$" else path, Diagnostic(render, e, chars), Diagnostic(render, a, chars))
  }

  function KeyPath(path: string, key: string): string {
    if path != [] then path + "." + key else key
  }

  function LengthPath(path: string): string {
    if path != [] then path + ".length" else "length"
  }

  function ItemPath(path: string, index: nat): string {
    path + "[" + Decimal(index) + "]"
  }

  function Shorter(e: seq<Json>, a: seq<Json>): nat {
    if |e| <= |a| then |e| else |a|
  }

  // ----- the unlimited walk

  function Diff(render: Renderer, chars: nat, path: string, e: Json, a: Json): seq<Mismatch>
    requires chars >= 1
    decreases e, 1, 0
  {
    if e.Object? && a.Object? then
      DiffKeys(render, chars, path, e, a, SortTexts(e.fields.Keys + a.fields.Keys))
    else if e.List? && a.List? then
      (if |e.items| != |a.items| then
         [Note(render, chars, LengthPath(path), Int(|e.items|), Int(|a.items|))]
       else [])
      + DiffItems(render, chars, path, e, a, 0)
    else if !LeafEqual(e, a) then [Note(render, chars, path, e, a)]
    else []
  }

  predicate KeysOf(e: Json, a: Json, keys: seq<string>)
    requires e.Object? && a.Object?
  {
    forall k :: k in keys ==> k in e.fields || k in a.fields
  }

  function DiffKey(render: Renderer, chars: nat, path: string, e: Json, a: Json, key: string): seq<Mismatch>
    requires chars >= 1 && e.Object? && a.Object? && (key in e.fields || key in a.fields)
    decreases e, 0, 0
  {
    if key !in e.fields then [Note(render, chars, KeyPath(path, key), Text("<missing>"), a.fields[key])]
    else if key !in a.fields then [Note(render, chars, KeyPath(path, key), e.fields[key], Text("<missing>"))]
    else Diff(render, chars, KeyPath(path, key), e.fields[key], a.fields[key])
  }

  function DiffKeys(render: Renderer, chars: nat, path: string, e: Json, a: Json, keys: seq<string>): seq<Mismatch>
    requires chars >= 1 && e.Object? && a.Object? && KeysOf(e, a, keys)
    decreases e, 0, |keys| + 1
  {
    if keys == [] then []
    else
      assert keys[0] in keys;
      DiffKey(render, chars, path, e, a, keys[0]) + DiffKeys(render, chars, path, e, a, keys[1..])
  }

  function DiffItems(render: Renderer, chars: nat, path: string, e: Json, a: Json, index: nat): seq<Mismatch>
    requires chars >= 1 && e.List? && a.List? && index <= Shorter(e.items, a.items)
    decreases e, 0, Shorter(e.items, a.items) - index
  {
    if index == Shorter(e.items, a.items) then []
    else
      Diff(render, chars, ItemPath(path, index), e.items[index], a.items[index])
      + DiffItems(render, chars, path, e, a, index + 1)
  }

  // ----- equality of trees

  /** The same shape, keys and lengths, with equal leaves. */
  predicate SameTree(e: Json, a: Json)
    decreases e
  {
    if e.Object? && a.Object? then
      e.fields.Keys == a.fields.Keys && forall k :: k in e.fields.Keys ==> SameTree(e.fields[k], a.fields[k])
    else if e.List? && a.List? then
      |e.items| == |a.items| && forall i :: 0 <= i < |e.items| ==> SameTree(e.items[i], a.items[i])
    else LeafEqual(e, a)
  }

  /** The walk reports nothing exactly when the trees are equal. */
  lemma {:induction false} NoDiffIffSame(render: Renderer, chars: nat, path: string, e: Json, a: Json)
    requires chars >= 1
    ensures Diff(render, chars, path, e, a) == [] <==> SameTree(e, a)
    decreases e, 1, 0
  {
    if e.Object? && a.Object? {
      var keys := SortTexts(e.fields.Keys + a.fields.Keys);
      assert KeysOf(e, a, keys);
      NoDiffKeys(render, chars, path, e, a, keys);
      if SameTree(e, a) {
        forall k | k in keys ensures KeySame(e, a, k) {}
      }
      if forall k :: k in keys ==> KeySame(e, a, k) {
        forall k | k in e.fields.Keys + a.fields.Keys
          ensures k in e.fields && k in a.fields && SameTree(e.fields[k], a.fields[k])
        {
          assert k in keys && KeySame(e, a, k);
        }
        assert e.fields.Keys == a.fields.Keys;
      }
    } else if e.List? && a.List? {
      NoDiffItems(render, chars, path, e, a, 0);
    }
  }

  predicate KeySame(e: Json, a: Json, key: string)
    requires e.Object? && a.Object?
  {
    key in e.fields && key in a.fields && SameTree(e.fields[key], a.fields[key])
  }

  lemma {:induction false} NoDiffKeys(render: Renderer, chars: nat, path: string, e: Json, a: Json, keys: seq<string>)
    requires chars >= 1 && e.Object? && a.Object? && KeysOf(e, a, keys)
    ensures DiffKeys(render, chars, path, e, a, keys) == [] <==> forall k :: k in keys ==> KeySame(e, a, k)
    decreases e, 0, |keys|
  {
    hide SameTree, Diff;
    if keys != [] {
      var k := keys[0];
      assert k in keys && keys == [k] + keys[1..];
      NoDiffKeys(render, chars, path, e, a, keys[1..]);
      if k in e.fields && k in a.fields {
        NoDiffIffSame(render, chars, KeyPath(path, k), e.fields[k], a.fields[k]);
      }
      assert DiffKey(render, chars, path, e, a, k) == [] <==> KeySame(e, a, k);
    }
  }

  lemma {:induction false} NoDiffItems(render: Renderer, chars: nat, path: string, e: Json, a: Json, index: nat)
    requires chars >= 1 && e.List? && a.List? && index <= Shorter(e.items, a.items)
    ensures DiffItems(render, chars, path, e, a, index) == [] <==>
            forall i :: index <= i < Shorter(e.items, a.items) ==> SameTree(e.items[i], a.items[i])
    decreases e, 0, Shorter(e.items, a.items) - index
  {
    hide SameTree, Diff;
    if index < Shorter(e.items, a.items) {
      NoDiffIffSame(render, chars, ItemPath(path, index), e.items[index], a.items[index]);
      NoDiffItems(render, chars, path, e, a, index + 1);
      ItemsStep(render, chars, path, e, a, index);
      hide DiffItems;
      if DiffItems(render, chars, path, e, a, index) == [] {
        assert SameTree(e.items[index], a.items[index]);
      }
    }
  }

  lemma ItemsStep(render: Renderer, chars: nat, path: string, e: Json, a: Json, index: nat)
    requires chars >= 1 && e.List? && a.List? && index < Shorter(e.items, a.items)
    ensures DiffItems(render, chars, path, e, a, index) ==
            Diff(render, chars, ItemPath(path, index), e.items[index], a.items[index])
            + DiffItems(render, chars, path, e, a, index + 1)
  {
  }

  lemma {:induction false} KeysStep(render: Renderer, chars: nat, path: string, e: Json, a: Json, keys: seq<string>,
                                    n: nat)
    requires chars >= 1 && e.Object? && a.Object? && KeysOf(e, a, keys) && n < |keys|
    ensures KeysOf(e, a, keys[n..]) && KeysOf(e, a, keys[n + 1..]) && keys[n] in keys
    ensures DiffKeys(render, chars, path, e, a, keys[n..]) ==
            DiffKey(render, chars, path, e, a, keys[n]) + DiffKeys(render, chars, path, e, a, keys[n + 1..])
  {
    assert keys[n..][0] == keys[n] && keys[n..][1..] == keys[n + 1..];
  }

  // ----- the bounded walk over one shared list

  function Capped(found: seq<Mismatch>, limit: nat): seq<Mismatch> {
    if |found| <= limit then found else found[..limit]
  }

  /** The mismatches collected so far, shared by the whole recursion. */
  class Collector {
    const render: Renderer
    const chars: nat
    const limit: nat
    var mismatches: seq<Mismatch>

    constructor (render: Renderer, chars: nat, limit: nat)
      ensures this.render == render && this.chars == chars && this.limit == limit && mismatches == []
    {
      this.render := render;
      this.chars := chars;
      this.limit := limit;
      mismatches := [];
    }

    method Add(path: string, e: Json, a: Json)
      requires chars >= 1
      modifies this
      ensures mismatches == old(mismatches) + [Note(render, chars, path, e, a)]
    {
      mismatches := mismatches + [Note(render, chars, path, e, a)];
    }

    method Walk(path: string, e: Json, a: Json)
      requires chars >= 1 && |mismatches| < limit
      modifies this
      ensures mismatches == Capped(old(mismatches) + Diff(render, chars, path, e, a), limit)
      decreases e, 1, 0
    {
      if e.Object? && a.Object? {
        WalkKeys(path, e, a);
        return;
      }
      if e.List? && a.List? {
        WalkItems(path, e, a);
        return;
      }
      if !LeafEqual(e, a) {
        Add(path, e, a);
      }
    }

    method WalkKeys(path: string, e: Json, a: Json)
      requires chars >= 1 && |mismatches| < limit && e.Object? && a.Object?
      modifies this
      ensures mismatches == Capped(old(mismatches) + Diff(render, chars, path, e, a), limit)
      decreases e, 0, 1
    {
      hide Diff, DiffKeys, DiffKey, KeysOf;
      var keys := SortTexts(e.fields.Keys + a.fields.Keys);
      DiffIsKeys(render, chars, path, e, a);
      KeysFrom(render, chars, path, e, a, keys);
      ghost var before := mismatches;
      for n := 0 to |keys|
        invariant |mismatches| < limit && KeysOf(e, a, keys[n..])
        invariant mismatches + DiffKeys(render, chars, path, e, a, keys[n..]) ==
                    before + Diff(render, chars, path, e, a)
      {
        KeysStep(render, chars, path, e, a, keys, n);
        KeyKnown(e, a, keys, n);
        ghost var was := mismatches;
        WalkKey(path, e, a, keys[n]);
        CapStep(was, DiffKey(render, chars, path, e, a, keys[n]), DiffKeys(render, chars, path, e, a, keys[n + 1..]),
                limit);
        if |mismatches| >= limit {
          return;
        }
      }
    }

    /** The loop body for one key. */
    method WalkKey(path: string, e: Json, a: Json, key: string)
      requires chars >= 1 && |mismatches| < limit && e.Object? && a.Object? && (key in e.fields || key in a.fields)
      modifies this
      ensures mismatches == Capped(old(mismatches) + DiffKey(render, chars, path, e, a, key), limit)
      decreases e, 0, 0
    {
      hide Diff, Note;
      if key !in e.fields {
        Add(KeyPath(path, key), Text("<missing>"), a.fields[key]);
      } else if key !in a.fields {
        Add(KeyPath(path, key), e.fields[key], Text("<missing>"));
      } else {
        Walk(KeyPath(path, key), e.fields[key], a.fields[key]);
      }
    }

    method WalkItems(path: string, e: Json, a: Json)
      requires chars >= 1 && |mismatches| < limit && e.List? && a.List?
      modifies this
      ensures mismatches == Capped(old(mismatches) + Diff(render, chars, path, e, a), limit)
      decreases e, 0, 1
    {
      hide Diff, Note;
      ghost var before := mismatches;
      DiffIsItems(render, chars, path, e, a);
      if |e.items| != |a.items| {
        Add(LengthPath(path), Int(|e.items|), Int(|a.items|));
        CapStep(before, [Note(render, chars, LengthPath(path), Int(|e.items|), Int(|a.items|))],
                DiffItems(render, chars, path, e, a, 0), limit);
        if |mismatches| >= limit {
          return;
        }
      }
      for index := 0 to Shorter(e.items, a.items)
        invariant |mismatches| < limit
        invariant mismatches + DiffItems(render, chars, path, e, a, index) == before + Diff(render, chars, path, e, a)
      {
        ghost var was, found := mismatches, Diff(render, chars, ItemPath(path, index), e.items[index], a.items[index]);
        Walk(ItemPath(path, index), e.items[index], a.items[index]);
        CapStep(was, found, DiffItems(render, chars, path, e, a, index + 1), limit);
        if |mismatches| >= limit {
          return;
        }
      }
    }
  }

  lemma {:induction false} KeysFrom(render: Renderer, chars: nat, path: string, e: Json, a: Json, keys: seq<string>)
    requires chars >= 1 && e.Object? && a.Object? && KeysOf(e, a, keys)
    ensures KeysOf(e, a, keys[0..]) && KeysOf(e, a, keys[|keys|..])
    ensures DiffKeys(render, chars, path, e, a, keys[0..]) == DiffKeys(render, chars, path, e, a, keys)
    ensures DiffKeys(render, chars, path, e, a, keys[|keys|..]) == []
  {
    assert keys[0..] == keys;
  }

  lemma KeyKnown(e: Json, a: Json, keys: seq<string>, n: nat)
    requires e.Object? && a.Object? && n < |keys| && KeysOf(e, a, keys[n..])
    ensures keys[n] in e.fields || keys[n] in a.fields
  {
    assert keys[n..][0] == keys[n];
  }

  lemma {:induction false} DiffIsKeys(render: Renderer, chars: nat, path: string, e: Json, a: Json)
    requires chars >= 1 && e.Object? && a.Object?
    ensures KeysOf(e, a, SortTexts(e.fields.Keys + a.fields.Keys))
    ensures Diff(render, chars, path, e, a) ==
              DiffKeys(render, chars, path, e, a, SortTexts(e.fields.Keys + a.fields.Keys))
  {
  }

  lemma {:induction false} DiffIsItems(render: Renderer, chars: nat, path: string, e: Json, a: Json)
    requires chars >= 1 && e.List? && a.List?
    ensures Diff(render, chars, path, e, a) ==
            (if |e.items| != |a.items| then [Note(render, chars, LengthPath(path), Int(|e.items|), Int(|a.items|))]
             else [])
            + DiffItems(render, chars, path, e, a, 0)
  {
  }

  /** Stopping at the limit loses only what the limit cuts off. */
  lemma CapStep(was: seq<Mismatch>, found: seq<Mismatch>, rest: seq<Mismatch>, limit: nat)
    requires |was| < limit
    ensures var now := Capped(was + found, limit);
            if |now| >= limit then now == Capped(was + (found + rest), limit)
            else now == was + found && was + (found + rest) == now + rest
  {
    assert was + (found + rest) == was + found + rest;
  }

  /** Main result: exactly the first `limit` entries of the unlimited walk, and none at all only for equal trees. */
  method ReplayMismatches(render: Renderer, e: Json, a: Json, limit: int, chars: int)
    returns (result: Result<seq<Mismatch>>)
    ensures result.Err? <==> limit < 1 || chars < 1
    ensures result.Ok? ==> result.value == Capped(Diff(render, chars, "", e, a), limit)
    ensures result.Ok? ==> (result.value == [] <==> SameTree(e, a))
  {
    hide Diff, SameTree;
    if limit < 1 || chars < 1 {
      return Err;
    }
    NoDiffIffSame(render, chars, "", e, a);
    var collector := new Collector(render, chars, limit);
    collector.Walk("", e, a);
    result := Ok(collector.mismatches);
    assert [] + Diff(render, chars, "", e, a) == Diff(render, chars, "", e, a);
  }
}
