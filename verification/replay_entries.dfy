/** What the entries of a replay diff say: where the trees differ, and which side held what. */
module ReplayEntries {
  import opened Wrappers
  import opened PythonText
  import opened ReplayDiff

  datatype Step = Field(key: string) | Item(index: nat)

  /** The value at an address, if there is one. */
  ghost function At(v: Json, address: seq<Step>): Option<Json>
    decreases |address|
  {
    if address == [] then Some(v)
    else
      match address[0]
      case Field(k) => if v.Object? && k in v.fields then At(v.fields[k], address[1..]) else None
      case Item(i) => if v.List? && i < |v.items| then At(v.items[i], address[1..]) else None
  }

  ghost function Dotted(path: string, key: string): string {
    if path == "" then key else path + "." + key
  }

  /** The path of an address below `path`: keys after dots, indices in brackets. */
  ghost function PathText(path: string, address: seq<Step>): string
    decreases |address|
  {
    if address == [] then path
    else
      match address[0]
      case Field(k) => PathText(Dotted(path, k), address[1..])
      case Item(i) => PathText(path + "[" + Decimal(i) + "]", address[1..])
  }

  /** A value as a diagnostic shows it: in full if it fits, else cut to the length allowed, ending in an ellipsis. */
  ghost predicate Shows(render: Renderer, chars: nat, v: Json, d: string) {
    if |render(v)| <= chars then d == render(v)
    else chars >= 1 && |d| == chars && d[..chars - 1] == render(v)[..chars - 1] && d[chars - 1] == '…'
  }

  /** Python equality of leaves: numbers by value, with `True` equal to 1 and `False` to 0. */
  ghost predicate Alike(e: Json, a: Json) {
    match (e, a)
    case (Null, Null) => true
    case (Text(s), Text(t)) => s == t
    case (Bool(b), Bool(c)) => b == c
    case (Bool(b), Int(i)) => i == if b then 1 else 0
    case (Int(i), Bool(b)) => i == if b then 1 else 0
    case (Bool(b), Float(r)) => r == if b then 1.0 else 0.0
    case (Float(r), Bool(b)) => r == if b then 1.0 else 0.0
    case (Int(i), Int(j)) => i == j
    case (Int(i), Float(r)) => i as real == r
    case (Float(r), Int(i)) => i as real == r
    case (Float(r), Float(t)) => r == t
    case _ => false
  }

  lemma LeafEqualIsAlike(e: Json, a: Json)
    ensures LeafEqual(e, a) <==> Alike(e, a)
  {
  }

  ghost predicate Says(render: Renderer, chars: nat, path: string, expected: Json, actual: Json, m: Mismatch) {
    && m.path == (if path == "" then "$" else path)
    && Shows(render, chars, expected, m.expected)
    && Shows(render, chars, actual, m.actual)
  }

  /** A key that only one of two objects has. */
  ghost predicate MissingKey(render: Renderer, chars: nat, path: string, e: Json, a: Json, k: string, m: Mismatch) {
    && e.Object? && a.Object?
    && ((k !in e.fields && k in a.fields &&
         Says(render, chars, Dotted(path, k), Text("<missing>"), a.fields[k], m)) ||
        (k in e.fields && k !in a.fields &&
         Says(render, chars, Dotted(path, k), e.fields[k], Text("<missing>"), m)))
  }

  /** The mismatches of two values themselves: a missing key, a different length, or a different leaf. */
  ghost predicate Here(render: Renderer, chars: nat, path: string, e: Json, a: Json, m: Mismatch) {
    || (exists k :: MissingKey(render, chars, path, e, a, k, m))
    || (e.List? && a.List? && |e.items| != |a.items| &&
        Says(render, chars, Dotted(path, "length"), Int(|e.items|), Int(|a.items|), m))
    || (!(e.Object? && a.Object?) && !(e.List? && a.List?) && !Alike(e, a) && Says(render, chars, path, e, a, m))
  }

  /** The mismatch is one of the values at this address of both trees. */
  ghost predicate Entry(render: Renderer, chars: nat, path: string, e: Json, a: Json, address: seq<Step>, m: Mismatch) {
    && At(e, address).Some? && At(a, address).Some?
    && Here(render, chars, PathText(path, address), At(e, address).value, At(a, address).value, m)
  }

  ghost predicate SomeEntry(render: Renderer, chars: nat, path: string, e: Json, a: Json, m: Mismatch) {
    exists address :: Entry(render, chars, path, e, a, address, m)
  }

  // ----- one note

  lemma {:induction false} NoteSays(render: Renderer, chars: nat, path: string, e: Json, a: Json, m: Mismatch)
    requires chars >= 1
    ensures m == Note(render, chars, path, e, a) <==> Says(render, chars, path, e, a, m)
  {
    ShowsOnly(render, chars, e, m.expected);
    ShowsOnly(render, chars, a, m.actual);
  }

  lemma {:induction false} ShowsOnly(render: Renderer, chars: nat, v: Json, d: string)
    requires chars >= 1
    ensures d == Diagnostic(render, v, chars) <==> Shows(render, chars, v, d)
  {
    if |render(v)| > chars && Shows(render, chars, v, d) {
      assert d == d[..chars - 1] + [d[chars - 1]];
    }
  }

  // ----- entries of parts

  lemma {:induction false} EntryInField(render: Renderer, chars: nat, path: string, e: Json, a: Json, k: string,
                                        m: Mismatch)
    requires e.Object? && a.Object? && k in e.fields && k in a.fields
    ensures SomeEntry(render, chars, Dotted(path, k), e.fields[k], a.fields[k], m) <==>
            exists rest :: Entry(render, chars, path, e, a, [Field(k)] + rest, m)
  {
    hide Here, Dotted;
    forall rest
      ensures Entry(render, chars, Dotted(path, k), e.fields[k], a.fields[k], rest, m) <==>
              Entry(render, chars, path, e, a, [Field(k)] + rest, m)
    {
      assert ([Field(k)] + rest)[1..] == rest;
    }
  }

  lemma {:induction false} EntryInItem(render: Renderer, chars: nat, path: string, e: Json, a: Json, i: nat,
                                       m: Mismatch)
    requires e.List? && a.List? && i < |e.items| && i < |a.items|
    ensures SomeEntry(render, chars, path + "[" + Decimal(i) + "]", e.items[i], a.items[i], m) <==>
            exists rest :: Entry(render, chars, path, e, a, [Item(i)] + rest, m)
  {
    hide Here;
    forall rest
      ensures Entry(render, chars, path + "[" + Decimal(i) + "]", e.items[i], a.items[i], rest, m) <==>
              Entry(render, chars, path, e, a, [Item(i)] + rest, m)
    {
      assert ([Item(i)] + rest)[1..] == rest;
    }
  }

  /** Every entry is one of the values themselves, of a common field, or of a common item. */
  lemma {:induction false} EntryCases(render: Renderer, chars: nat, path: string, e: Json, a: Json, m: Mismatch)
    ensures SomeEntry(render, chars, path, e, a, m) <==>
            || Here(render, chars, path, e, a, m)
            || (e.Object? && a.Object? &&
                exists k :: k in e.fields && k in a.fields &&
                            SomeEntry(render, chars, Dotted(path, k), e.fields[k], a.fields[k], m))
            || (e.List? && a.List? &&
                exists i: nat :: i < |e.items| && i < |a.items| &&
                                 SomeEntry(render, chars, path + "[" + Decimal(i) + "]", e.items[i], a.items[i], m))
  {
    hide Here, Dotted, SomeEntry;
    if SomeEntry(render, chars, path, e, a, m) {
      var address := EntryOf(render, chars, path, e, a, m);
      if address != [] {
        assert address == [address[0]] + address[1..];
        match address[0]
        case Field(k) => EntryInField(render, chars, path, e, a, k, m);
        case Item(i) => EntryInItem(render, chars, path, e, a, i, m);
      }
    }
    if Here(render, chars, path, e, a, m) {
      EntryIs(render, chars, path, e, a, [], m);
    }
    if e.Object? && a.Object? {
      forall k | k in e.fields && k in a.fields &&
                 SomeEntry(render, chars, Dotted(path, k), e.fields[k], a.fields[k], m)
        ensures SomeEntry(render, chars, path, e, a, m)
      {
        EntryInField(render, chars, path, e, a, k, m);
        var rest :| Entry(render, chars, path, e, a, [Field(k)] + rest, m);
        EntryIs(render, chars, path, e, a, [Field(k)] + rest, m);
      }
    }
    if e.List? && a.List? {
      forall i: nat | i < |e.items| && i < |a.items| &&
                      SomeEntry(render, chars, path + "[" + Decimal(i) + "]", e.items[i], a.items[i], m)
        ensures SomeEntry(render, chars, path, e, a, m)
      {
        EntryInItem(render, chars, path, e, a, i, m);
        var rest :| Entry(render, chars, path, e, a, [Item(i)] + rest, m);
        EntryIs(render, chars, path, e, a, [Item(i)] + rest, m);
      }
    }
  }

  lemma EntryOf(render: Renderer, chars: nat, path: string, e: Json, a: Json, m: Mismatch) returns (address: seq<Step>)
    requires SomeEntry(render, chars, path, e, a, m)
    ensures Entry(render, chars, path, e, a, address, m)
  {
    hide Entry;
    address :| Entry(render, chars, path, e, a, address, m);
  }

  lemma EntryIs(render: Renderer, chars: nat, path: string, e: Json, a: Json, address: seq<Step>, m: Mismatch)
    requires Entry(render, chars, path, e, a, address, m)
    ensures SomeEntry(render, chars, path, e, a, m)
  {
    hide Entry;
  }

  // ----- the walk reports the entries

  /**
   Main result: the unlimited walk reports exactly the places where the trees differ, under the path of the place, with
   what the expected tree holds there as expected and what the actual one holds as actual.
   */
  lemma {:induction false} DiffIsEntries(render: Renderer, chars: nat, path: string, e: Json, a: Json, m: Mismatch)
    requires chars >= 1
    ensures m in Diff(render, chars, path, e, a) <==> SomeEntry(render, chars, path, e, a, m)
    decreases e, 1, 0
  {
    hide SomeEntry, Here, Says, Diff, LeafEqual, Dotted;
    EntryCases(render, chars, path, e, a, m);
    if e.Object? && a.Object? {
      ObjectsAreEntries(render, chars, path, e, a, m);
    } else if e.List? && a.List? {
      ListsAreEntries(render, chars, path, e, a, m);
    } else {
      DiffOfLeaves(render, chars, path, e, a);
      LeafIsHere(render, chars, path, e, a, m);
      NoteSays(render, chars, path, e, a, m);
    }
  }

  lemma LeafIsHere(render: Renderer, chars: nat, path: string, e: Json, a: Json, m: Mismatch)
    requires !(e.Object? && a.Object?) && !(e.List? && a.List?)
    ensures Here(render, chars, path, e, a, m) <==> !LeafEqual(e, a) && Says(render, chars, path, e, a, m)
  {
    hide Says, LeafEqual, Alike;
    LeafEqualIsAlike(e, a);
  }

  lemma {:induction false} ObjectsAreEntries(render: Renderer, chars: nat, path: string, e: Json, a: Json, m: Mismatch)
    requires chars >= 1 && e.Object? && a.Object?
    ensures m in Diff(render, chars, path, e, a) <==>
            || Here(render, chars, path, e, a, m)
            || exists k :: k in e.fields && k in a.fields &&
                           SomeEntry(render, chars, Dotted(path, k), e.fields[k], a.fields[k], m)
    decreases e, 0, |SortTexts(e.fields.Keys + a.fields.Keys)| + 2
  {
    hide SomeEntry, Here, KeyEntry, MissingKey, Diff, DiffKeys, Dotted;
    var keys := SortTexts(e.fields.Keys + a.fields.Keys);
    DiffIsKeys(render, chars, path, e, a);
    KeysAreEntries(render, chars, path, e, a, keys, m);
    KeyEntriesAre(render, chars, path, e, a, keys, m);
  }

  lemma {:induction false} KeyEntriesAre(render: Renderer, chars: nat, path: string, e: Json, a: Json,
                                         keys: seq<string>, m: Mismatch)
    requires e.Object? && a.Object? && forall k :: k in keys <==> k in e.fields || k in a.fields
    ensures (exists k :: k in keys && KeyEntry(render, chars, path, e, a, k, m)) <==>
            || Here(render, chars, path, e, a, m)
            || exists k :: k in e.fields && k in a.fields &&
                           SomeEntry(render, chars, Dotted(path, k), e.fields[k], a.fields[k], m)
  {
    hide SomeEntry, Says, Dotted;
    if k :| k in e.fields && k in a.fields && SomeEntry(render, chars, Dotted(path, k), e.fields[k], a.fields[k], m) {
      assert k in keys && KeyEntry(render, chars, path, e, a, k, m);
    }
    if k :| MissingKey(render, chars, path, e, a, k, m) {
      assert k in keys && KeyEntry(render, chars, path, e, a, k, m);
    }
  }

  lemma {:induction false} ListsAreEntries(render: Renderer, chars: nat, path: string, e: Json, a: Json, m: Mismatch)
    requires chars >= 1 && e.List? && a.List?
    ensures m in Diff(render, chars, path, e, a) <==>
            || Here(render, chars, path, e, a, m)
            || exists i: nat :: i < |e.items| && i < |a.items| &&
                                SomeEntry(render, chars, path + "[" + Decimal(i) + "]", e.items[i], a.items[i], m)
    decreases e, 0, Shorter(e.items, a.items) + 1
  {
    hide SomeEntry, Says, Diff, Dotted, Note, Decimal;
    DiffIsItems(render, chars, path, e, a);
    LengthIsDotted(path);
    NoteSays(render, chars, Dotted(path, "length"), Int(|e.items|), Int(|a.items|), m);
    ItemsAreEntries(render, chars, path, e, a, 0, m);
  }

  lemma LengthIsDotted(path: string)
    ensures LengthPath(path) == Dotted(path, "length")
  {
  }

  lemma {:induction false} DiffOfLeaves(render: Renderer, chars: nat, path: string, e: Json, a: Json)
    requires chars >= 1 && !(e.Object? && a.Object?) && !(e.List? && a.List?)
    ensures Diff(render, chars, path, e, a) == if LeafEqual(e, a) then [] else [Note(render, chars, path, e, a)]
  {
  }

  /** A key is missing on one side, or what is below it on both sides differs. */
  ghost predicate KeyEntry(render: Renderer, chars: nat, path: string, e: Json, a: Json, k: string, m: Mismatch)
    requires e.Object? && a.Object?
  {
    || MissingKey(render, chars, path, e, a, k, m)
    || (k in e.fields && k in a.fields && SomeEntry(render, chars, Dotted(path, k), e.fields[k], a.fields[k], m))
  }

  lemma {:induction false} KeysAreEntries(render: Renderer, chars: nat, path: string, e: Json, a: Json,
                                          keys: seq<string>, m: Mismatch)
    requires chars >= 1 && e.Object? && a.Object? && KeysOf(e, a, keys)
    ensures m in DiffKeys(render, chars, path, e, a, keys) <==>
            exists k :: k in keys && KeyEntry(render, chars, path, e, a, k, m)
    decreases e, 0, |keys| + 1
  {
    hide SomeEntry, Says, Diff, Dotted, MissingKey;
    if keys != [] {
      var k := keys[0];
      assert k in keys && keys == [k] + keys[1..];
      KeyIsEntry(render, chars, path, e, a, k, m);
      KeysAreEntries(render, chars, path, e, a, keys[1..], m);
    }
  }

  lemma {:induction false} KeyIsEntry(render: Renderer, chars: nat, path: string, e: Json, a: Json, k: string,
                                      m: Mismatch)
    requires chars >= 1 && e.Object? && a.Object? && (k in e.fields || k in a.fields)
    ensures m in DiffKey(render, chars, path, e, a, k) <==> KeyEntry(render, chars, path, e, a, k, m)
    decreases e, 0, 0
  {
    hide SomeEntry, Says, Diff;
    if k !in e.fields {
      NoteSays(render, chars, Dotted(path, k), Text("<missing>"), a.fields[k], m);
    } else if k !in a.fields {
      NoteSays(render, chars, Dotted(path, k), e.fields[k], Text("<missing>"), m);
    } else {
      DiffIsEntries(render, chars, Dotted(path, k), e.fields[k], a.fields[k], m);
    }
  }

  lemma {:induction false} ItemsAreEntries(render: Renderer, chars: nat, path: string, e: Json, a: Json, index: nat,
                                           m: Mismatch)
    requires chars >= 1 && e.List? && a.List? && index <= Shorter(e.items, a.items)
    ensures m in DiffItems(render, chars, path, e, a, index) <==>
            exists i: nat :: index <= i < Shorter(e.items, a.items) &&
                             SomeEntry(render, chars, path + "[" + Decimal(i) + "]", e.items[i], a.items[i], m)
    decreases e, 0, Shorter(e.items, a.items) - index
  {
    hide SomeEntry, Says, Diff, Decimal;
    if index < Shorter(e.items, a.items) {
      DiffIsEntries(render, chars, ItemPath(path, index), e.items[index], a.items[index], m);
      ItemsAreEntries(render, chars, path, e, a, index + 1, m);
      ItemsStep(render, chars, path, e, a, index);
    }
  }
}
