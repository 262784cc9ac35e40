/** Untrusted JSON-like values and the frozen metadata of proof bundles (src/tarkka/domain/proof_bundles.py). */
module BundleValues {
  import opened Wrappers
  import opened PythonText

  /** A string used as an object key: the names the manifest contract knows, and every other text. */
  datatype Key =
    | FormatKey | SchemaVersionKey | DocumentKey | ArtifactKey | WorkDocumentsKey | SourceObservationsKey
    | ResourceLinksKey
    | ResearchStateKey | NormalizedDocumentKey
    | DocumentIdKey | ArtifactIdKey | TitleKey | ParserNameKey | ParserVersionKey | NormalizedAtKey
    | Sha256Key | SizeBytesKey | MediaTypeKey | PathKey | OriginalNameKey | SourceUriKey | AcquiredAtKey
    | LinkIdKey | WorkIdKey | LinkedAtKey
    | ObservationIdKey | SourceNameKey | BasisKey | SourceVersionKey | ProviderRecordIdKey | NativeArtifactIdKey
    | MetadataKey | ObservedAtKey
    | TargetUriKey | RelationKey | LabelKey
    | OtherKey(text: string)

  /** Python values a manifest parser may meet. An `OddMapping` has a key that is not a string. */
  datatype Value =
    | Null
    | Bool(b: bool)
    | Int(i: int)
    | Float(r: real)
    | NonFinite
    | Text(s: string)
    | List(items: seq<Value>)
    | Tuple(elements: seq<Value>)
    | Mapping(fields: map<Key, Value>)
    | OddMapping
    | Opaque

  predicate Blank(s: string) {
    Strip(s) == []
  }

  /** Nothing but white space. */
  lemma {:induction false} BlankIs(s: string)
    ensures Blank(s) <==> forall c :: c in s ==> IsSpace(c)
    decreases |s|
  {
    hide IsSpace;
    if s != [] && IsSpace(s[0]) {
      assert s == [s[0]] + s[1..];
      BlankIs(s[1..]);
    } else if s != [] && IsSpace(s[|s| - 1]) {
      assert s == s[..|s| - 1] + [s[|s| - 1]];
      BlankIs(s[..|s| - 1]);
    }
  }

  predicate BlankKey(k: Key) {
    k.OtherKey? && Blank(k.text)
  }

  /** Metadata as an observation keeps it: tuples for arrays, non-blank string keys, finite numbers. */
  predicate Frozen(v: Value) {
    match v
    case Null | Bool(_) | Int(_) | Float(_) | Text(_) => true
    case Tuple(elements) => forall i :: 0 <= i < |elements| ==> Frozen(elements[i])
    case Mapping(fields) => forall k :: k in fields ==> !BlankKey(k) && Frozen(fields[k])
    case NonFinite | List(_) | OddMapping | Opaque => false
  }

  /** What `_copy_json_value` accepts. */
  predicate Copyable(v: Value) {
    match v
    case Null | Bool(_) | Int(_) | Float(_) | Text(_) => true
    case List(items) => forall i :: 0 <= i < |items| ==> Copyable(items[i])
    case Tuple(elements) => forall i :: 0 <= i < |elements| ==> Copyable(elements[i])
    case Mapping(fields) => forall k :: k in fields ==> !BlankKey(k) && Copyable(fields[k])
    case NonFinite | OddMapping | Opaque => false
  }

  /** The frozen copy of an acceptable value. */
  function Copy(v: Value): (c: Value)
    requires Copyable(v)
  {
    match v
    case List(items) => Tuple(seq(|items|, i requires 0 <= i < |items| => Copy(items[i])))
    case Tuple(elements) => Tuple(seq(|elements|, i requires 0 <= i < |elements| => Copy(elements[i])))
    case Mapping(fields) => Mapping(map k | k in fields :: Copy(fields[k]))
    case _ => v
  }

  /** `_json_plain_value`. */
  function Plain(v: Value): Value {
    match v
    case Tuple(elements) => List(seq(|elements|, i requires 0 <= i < |elements| => Plain(elements[i])))
    case Mapping(fields) => Mapping(map k | k in fields :: Plain(fields[k]))
    case _ => v
  }

  lemma {:induction false} CopyIsFrozen(v: Value)
    requires Copyable(v)
    ensures Frozen(Copy(v))
  {
    match v
    case List(items) =>
      forall i | 0 <= i < |items| ensures Frozen(Copy(items[i])) {
        CopyIsFrozen(items[i]);
      }
    case Tuple(elements) =>
      forall i | 0 <= i < |elements| ensures Frozen(Copy(elements[i])) {
        CopyIsFrozen(elements[i]);
      }
    case Mapping(fields) =>
      forall k | k in fields ensures Frozen(Copy(fields[k])) {
        CopyIsFrozen(fields[k]);
      }
    case _ =>
  }

  /** However deeply nested, frozen metadata written out and copied back is itself. */
  lemma {:induction false} PlainCopiesBack(v: Value)
    requires Frozen(v)
    ensures Copyable(Plain(v)) && Copy(Plain(v)) == v
  {
    match v
    case Tuple(elements) =>
      forall i | 0 <= i < |elements| ensures Copyable(Plain(elements[i])) && Copy(Plain(elements[i])) == elements[i] {
        PlainCopiesBack(elements[i]);
      }
      assert Copy(Plain(v)).elements == elements;
    case Mapping(fields) =>
      forall k | k in fields ensures Copyable(Plain(fields[k])) && Copy(Plain(fields[k])) == fields[k] {
        PlainCopiesBack(fields[k]);
      }
      assert Copy(Plain(v)).fields == fields;
    case _ =>
  }

  /** `_copy_json_mapping`: fills a new dictionary key by key, or raises. */
  method CopyJsonMapping(v: Value) returns (r: Result<Value>)
    ensures r == if v.Mapping? && Copyable(v) then Ok(Copy(v)) else Err
    decreases v, 0
  {
    if !v.Mapping? {
      return Err;
    }
    var frozen: map<Key, Value> := map[];
    var pending := v.fields.Keys;
    while pending != {}
      invariant pending <= v.fields.Keys && frozen.Keys == v.fields.Keys - pending
      invariant forall k :: k in frozen ==> !BlankKey(k) && Copyable(v.fields[k]) && frozen[k] == Copy(v.fields[k])
      decreases |pending|
    {
      var key :| key in pending;
      if BlankKey(key) {
        return Err;
      }
      var item := CopyJsonValue(v.fields[key]);
      if item.Err? {
        return Err;
      }
      frozen := frozen[key := item.value];
      pending := pending - {key};
    }
    assert frozen == Copy(v).fields;
    r := Ok(Mapping(frozen));
  }

  /** `_copy_json_value`. */
  method CopyJsonValue(v: Value) returns (r: Result<Value>)
    ensures r == if Copyable(v) then Ok(Copy(v)) else Err
    decreases v, 1
  {
    match v
    case Null | Bool(_) | Int(_) | Float(_) | Text(_) =>
      r := Ok(v);
    case Mapping(_) =>
      r := CopyJsonMapping(v);
    case List(items) =>
      r := CopyJsonItems(v, items);
    case Tuple(elements) =>
      r := CopyJsonItems(v, elements);
    case NonFinite | OddMapping | Opaque =>
      r := Err;
  }

  method CopyJsonItems(v: Value, items: seq<Value>) returns (r: Result<Value>)
    requires v == List(items) || v == Tuple(items)
    ensures r == if Copyable(v) then Ok(Copy(v)) else Err
    decreases v, 0
  {
    var copied := [];
    for i := 0 to |items|
      invariant |copied| == i
      invariant forall j :: 0 <= j < i ==> Copyable(items[j]) && copied[j] == Copy(items[j])
    {
      var item := CopyJsonValue(items[i]);
      if item.Err? {
        return Err;
      }
      copied := copied + [item.value];
    }
    assert copied == Copy(v).elements;
    r := Ok(Tuple(copied));
  }
}
