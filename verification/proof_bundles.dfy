/**
 The three proof-bundle manifest versions, printed and parsed (src/tarkka/domain/proof_bundles.py,
 proof_bundle_v2.py and proof_bundle_v3.py in the same directory).
 */
module ProofBundles {
  import opened Wrappers
  import opened BundleValues

  /** A UUID. */
  type Id = nat

  /**
   The Python library functions used: UUID text, ISO-8601 instants with a zone, and the artifact identity of a digest.
   */
  datatype Library = Library(show: Id -> string, read: string -> Option<Id>, isInstant: string -> bool,
                             artifactId: string -> Id) {
    /** `UUID(str(id)) == id`. */
    ghost predicate Faithful() {
      forall id: Id :: read(show(id)) == Some(id)
    }
  }

  predicate IsSha256(s: string) {
    |s| == 64 && forall i :: 0 <= i < 64 ==> '0' <= s[i] <= '9' || 'a' <= s[i] <= 'f'
  }

  predicate OptionalNotBlank(s: Option<string>) {
    s.Some? ==> !Blank(s.value)
  }

  // ----- the records, with what their constructors accept

  datatype Artifact = Artifact(
    artifactId: Id, sha256: string, sizeBytes: int, mediaType: string, path: string,
    originalName: Option<string>, sourceUri: Option<string>, acquiredAt: string)
  {
    predicate Valid(lib: Library) {
      && IsSha256(sha256) && artifactId == lib.artifactId(sha256) && sizeBytes >= 0
      && !Blank(mediaType) && path == "artifacts/sha256/" + sha256
      && OptionalNotBlank(originalName) && OptionalNotBlank(sourceUri) && lib.isInstant(acquiredAt)
    }
  }

  datatype Document = Document(
    documentId: Id, artifactId: Id, title: string, parserName: string, parserVersion: string, normalizedAt: string)
  {
    predicate Valid(lib: Library) {
      !Blank(parserName) && !Blank(parserVersion) && lib.isInstant(normalizedAt)
    }
  }

  datatype WorkLink = WorkLink(linkId: Id, workId: Id, artifactId: Id, documentId: Id, linkedAt: string) {
    predicate Valid(lib: Library) {
      lib.isInstant(linkedAt)
    }
  }

  const BASES: set<string> := {"native", "reconstructed", "inferred"}
  const RELATIONS: set<string> :=
    {"canonical", "alternate", "full_text", "supplement", "dataset", "software", "citation", "related", "version",
     "correction", "retraction"}

  datatype Observation = Observation(
    observationId: Id, sourceName: string, basis: string, sourceVersion: Option<string>,
    providerRecordId: Option<string>, mediaType: Option<string>, nativeArtifactId: Option<Id>, metadata: Value,
    observedAt: string)
  {
    predicate Valid(lib: Library) {
      && !Blank(sourceName) && !Blank(basis) && basis in BASES
      && OptionalNotBlank(sourceVersion) && OptionalNotBlank(providerRecordId) && OptionalNotBlank(mediaType)
      && lib.isInstant(observedAt) && metadata.Mapping? && Frozen(metadata)
    }
  }

  datatype ResourceLink = ResourceLink(
    linkId: Id, observationId: Id, targetUri: string, relation: string,
    mediaType: Option<string>, caption: Option<string>, metadata: Value)
  {
    predicate Valid(lib: Library) {
      && !Blank(targetUri) && !Blank(relation) && relation in RELATIONS
      && OptionalNotBlank(mediaType) && OptionalNotBlank(caption) && metadata.Mapping? && Frozen(metadata)
    }
  }

  predicate Unique<T>(items: seq<T>, id: T -> Id) {
    forall i, j :: 0 <= i < j < |items| ==> id(items[i]) != id(items[j])
  }

  const FORMAT := "tarkka-proof-bundle"

  datatype Manifest = Manifest(
    document: Document, artifact: Artifact, works: seq<WorkLink>, observations: seq<Observation>,
    links: seq<ResourceLink>, format: string, schemaVersion: int)
  {
    /** `__post_init__`. */
    predicate Consistent() {
      && format == FORMAT && schemaVersion == 1
      && document.artifactId == artifact.artifactId
      && (forall i :: 0 <= i < |works| ==>
            works[i].documentId == document.documentId && works[i].artifactId == artifact.artifactId)
      && (forall i :: 0 <= i < |observations| ==>
                        observations[i].nativeArtifactId.None? ||
                        observations[i].nativeArtifactId.value == artifact.artifactId)
      && (forall i :: 0 <= i < |links| ==>
                        exists j :: 0 <= j < |observations| && observations[j].observationId == links[i].observationId)
      && Unique(works, (w: WorkLink) => w.linkId)
      && Unique(observations, (o: Observation) => o.observationId)
      && Unique(links, (l: ResourceLink) => l.linkId)
    }

    predicate Valid(lib: Library) {
      && document.Valid(lib) && artifact.Valid(lib)
      && (forall i :: 0 <= i < |works| ==> works[i].Valid(lib))
      && (forall i :: 0 <= i < |observations| ==> observations[i].Valid(lib))
      && (forall i :: 0 <= i < |links| ==> links[i].Valid(lib))
      && Consistent()
    }
  }

  /** An integrity descriptor of one archive member. */
  datatype Member = Member(path: string, sha256: string, sizeBytes: int) {
    predicate Valid(expectedPath: string) {
      path == expectedPath && IsSha256(sha256) && sizeBytes >= 0
    }
  }

  const RESEARCH_STATE_PATH := "research/claim-lineage.json"
  const NORMALIZED_DOCUMENT_PATH := "replay/normalized-document.json"

  /** A version 2 manifest: the version 1 fields `_v1_manifest` rebuilds, and the research state. */
  datatype Manifest2 = Manifest2(base: Manifest, researchState: Member, schemaVersion: int) {
    predicate Valid(lib: Library) {
      base.Valid(lib) && researchState.Valid(RESEARCH_STATE_PATH) && schemaVersion == 2
    }
  }

  datatype Manifest3 = Manifest3(base: Manifest2, normalizedDocument: Member, schemaVersion: int) {
    predicate Valid(lib: Library) {
      base.Valid(lib) && normalizedDocument.Valid(NORMALIZED_DOCUMENT_PATH) && schemaVersion == 3
    }
  }

  // ----- printing

  function OptionalText(s: Option<string>): Value {
    if s.None? then Null else Text(s.value)
  }

  function ArtifactToDict(lib: Library, a: Artifact): Value {
    Mapping(map[ArtifactIdKey := Text(lib.show(a.artifactId)), Sha256Key := Text(a.sha256),
                SizeBytesKey := Int(a.sizeBytes), MediaTypeKey := Text(a.mediaType), PathKey := Text(a.path),
                OriginalNameKey := OptionalText(a.originalName), SourceUriKey := OptionalText(a.sourceUri),
                AcquiredAtKey := Text(a.acquiredAt)])
  }

  function DocumentToDict(lib: Library, d: Document): Value {
    Mapping(map[DocumentIdKey := Text(lib.show(d.documentId)), ArtifactIdKey := Text(lib.show(d.artifactId)),
                TitleKey := Text(d.title), ParserNameKey := Text(d.parserName),
                ParserVersionKey := Text(d.parserVersion), NormalizedAtKey := Text(d.normalizedAt)])
  }

  function WorkToDict(lib: Library, w: WorkLink): Value {
    Mapping(map[LinkIdKey := Text(lib.show(w.linkId)), WorkIdKey := Text(lib.show(w.workId)),
                ArtifactIdKey := Text(lib.show(w.artifactId)), DocumentIdKey := Text(lib.show(w.documentId)),
                LinkedAtKey := Text(w.linkedAt)])
  }

  function ObservationToDict(lib: Library, o: Observation): Value {
    Mapping(map[ObservationIdKey := Text(lib.show(o.observationId)), SourceNameKey := Text(o.sourceName),
                BasisKey := Text(o.basis), SourceVersionKey := OptionalText(o.sourceVersion),
                ProviderRecordIdKey := OptionalText(o.providerRecordId), MediaTypeKey := OptionalText(o.mediaType),
                NativeArtifactIdKey :=
                    (if o.nativeArtifactId.None? then Null else Text(lib.show(o.nativeArtifactId.value))),
                MetadataKey := Plain(o.metadata), ObservedAtKey := Text(o.observedAt)])
  }

  function LinkToDict(lib: Library, l: ResourceLink): Value {
    Mapping(map[LinkIdKey := Text(lib.show(l.linkId)), ObservationIdKey := Text(lib.show(l.observationId)),
                TargetUriKey := Text(l.targetUri), RelationKey := Text(l.relation),
                MediaTypeKey := OptionalText(l.mediaType), LabelKey := OptionalText(l.caption),
                MetadataKey := Plain(l.metadata)])
  }

  function ListOf<T>(show: T -> Value, items: seq<T>): Value {
    List(seq(|items|, i requires 0 <= i < |items| => show(items[i])))
  }

  function ManifestToDict(lib: Library, m: Manifest): map<Key, Value> {
    map[FormatKey := Text(m.format), SchemaVersionKey := Int(m.schemaVersion),
        DocumentKey := DocumentToDict(lib, m.document), ArtifactKey := ArtifactToDict(lib, m.artifact),
        WorkDocumentsKey := ListOf(w => WorkToDict(lib, w), m.works),
        SourceObservationsKey := ListOf(o => ObservationToDict(lib, o), m.observations),
        ResourceLinksKey := ListOf(l => LinkToDict(lib, l), m.links)]
  }

  function MemberToDict(d: Member): Value {
    Mapping(map[PathKey := Text(d.path), Sha256Key := Text(d.sha256), SizeBytesKey := Int(d.sizeBytes)])
  }

  /** The version 1 payload with its version overwritten and one key added. */
  function Manifest2ToDict(lib: Library, m: Manifest2): map<Key, Value> {
    ManifestToDict(lib, m.base)[SchemaVersionKey := Int(m.schemaVersion)]
      [ResearchStateKey := MemberToDict(m.researchState)]
  }

  function Manifest3ToDict(lib: Library, m: Manifest3): map<Key, Value> {
    Manifest2ToDict(lib, m.base)[SchemaVersionKey := Int(m.schemaVersion)]
      [NormalizedDocumentKey := MemberToDict(m.normalizedDocument)]
  }

  // ----- parsing

  function Require(ok: bool): Result<()> {
    if ok then Ok(()) else Err
  }

  /** `_mapping` and `_require_keys`. */
  function Fields(v: Value, expected: set<Key>): (r: Result<map<Key, Value>>)
    ensures r.Ok? <==> v.Mapping? && v.fields.Keys == expected
    ensures r.Ok? ==> r.value == v.fields
  {
    if v.Mapping? && v.fields.Keys == expected then Ok(v.fields) else Err
  }

  function ReadText(v: Value): Result<string> {
    if v.Text? then Ok(v.s) else Err
  }

  function ReadOptionalText(v: Value): Result<Option<string>> {
    if v.Null? then Ok(None) else if v.Text? then Ok(Some(v.s)) else Err
  }

  /** `_integer`: a Boolean is not one. */
  function ReadInt(v: Value): Result<int> {
    if v.Int? then Ok(v.i) else Err
  }

  function ReadId(lib: Library, v: Value): Result<Id> {
    var raw :- ReadText(v);
    if lib.read(raw).Some? then Ok(lib.read(raw).value) else Err
  }

  /** The copy a constructor keeps of its metadata. */
  function ReadMetadata(v: Value): Result<Value> {
    if v.Mapping? && Copyable(v) then Ok(Copy(v)) else Err
  }

  const ARTIFACT_KEYS: set<Key> :=
    {ArtifactIdKey, Sha256Key, SizeBytesKey, MediaTypeKey, PathKey, OriginalNameKey, SourceUriKey, AcquiredAtKey}
  const DOCUMENT_KEYS: set<Key> :=
      {DocumentIdKey, ArtifactIdKey, TitleKey, ParserNameKey, ParserVersionKey, NormalizedAtKey}
  const WORK_KEYS: set<Key> := {LinkIdKey, WorkIdKey, ArtifactIdKey, DocumentIdKey, LinkedAtKey}
  const OBSERVATION_KEYS: set<Key> :=
    {ObservationIdKey, SourceNameKey, BasisKey, SourceVersionKey, ProviderRecordIdKey, MediaTypeKey,
     NativeArtifactIdKey, MetadataKey, ObservedAtKey}
  const LINK_KEYS: set<Key> :=
      {LinkIdKey, ObservationIdKey, TargetUriKey, RelationKey, MediaTypeKey, LabelKey, MetadataKey}
  const MEMBER_KEYS: set<Key> := {PathKey, Sha256Key, SizeBytesKey}
  const MANIFEST_KEYS: set<Key> :=
    {FormatKey, SchemaVersionKey, DocumentKey, ArtifactKey, WorkDocumentsKey, SourceObservationsKey, ResourceLinksKey}

  function ReadArtifact(lib: Library, v: Value): (r: Result<Artifact>)
    ensures r.Ok? ==> r.value.Valid(lib)
  {
    var d :- Fields(v, ARTIFACT_KEYS);
    var artifactId :- ReadId(lib, d[ArtifactIdKey]);
    var sha256 :- ReadText(d[Sha256Key]);
    var sizeBytes :- ReadInt(d[SizeBytesKey]);
    var mediaType :- ReadText(d[MediaTypeKey]);
    var path :- ReadText(d[PathKey]);
    var originalName :- ReadOptionalText(d[OriginalNameKey]);
    var sourceUri :- ReadOptionalText(d[SourceUriKey]);
    var acquiredAt :- ReadText(d[AcquiredAtKey]);
    var a := Artifact(artifactId, sha256, sizeBytes, mediaType, path, originalName, sourceUri, acquiredAt);
    var _ :- Require(a.Valid(lib));
    Ok(a)
  }

  function ReadDocument(lib: Library, v: Value): (r: Result<Document>)
    ensures r.Ok? ==> r.value.Valid(lib)
  {
    var d :- Fields(v, DOCUMENT_KEYS);
    var documentId :- ReadId(lib, d[DocumentIdKey]);
    var artifactId :- ReadId(lib, d[ArtifactIdKey]);
    var title :- ReadText(d[TitleKey]);
    var parserName :- ReadText(d[ParserNameKey]);
    var parserVersion :- ReadText(d[ParserVersionKey]);
    var normalizedAt :- ReadText(d[NormalizedAtKey]);
    var document := Document(documentId, artifactId, title, parserName, parserVersion, normalizedAt);
    var _ :- Require(document.Valid(lib));
    Ok(document)
  }

  function ReadWork(lib: Library, v: Value): (r: Result<WorkLink>)
    ensures r.Ok? ==> r.value.Valid(lib)
  {
    var d :- Fields(v, WORK_KEYS);
    var linkId :- ReadId(lib, d[LinkIdKey]);
    var workId :- ReadId(lib, d[WorkIdKey]);
    var artifactId :- ReadId(lib, d[ArtifactIdKey]);
    var documentId :- ReadId(lib, d[DocumentIdKey]);
    var linkedAt :- ReadText(d[LinkedAtKey]);
    var w := WorkLink(linkId, workId, artifactId, documentId, linkedAt);
    var _ :- Require(w.Valid(lib));
    Ok(w)
  }

  function ReadOptionalId(lib: Library, v: Value): Result<Option<Id>> {
    if v.Null? then Ok(None)
    else
      var id :- ReadId(lib, v);
      Ok(Some(id))
  }

  function ReadObservation(lib: Library, v: Value): (r: Result<Observation>)
    ensures r.Ok? ==> r.value.Valid(lib)
  {
    var d :- Fields(v, OBSERVATION_KEYS);
    var observationId :- ReadId(lib, d[ObservationIdKey]);
    var sourceName :- ReadText(d[SourceNameKey]);
    var basis :- ReadText(d[BasisKey]);
    var sourceVersion :- ReadOptionalText(d[SourceVersionKey]);
    var providerRecordId :- ReadOptionalText(d[ProviderRecordIdKey]);
    var mediaType :- ReadOptionalText(d[MediaTypeKey]);
    var nativeArtifactId :- ReadOptionalId(lib, d[NativeArtifactIdKey]);
    var metadata :- ReadMetadata(d[MetadataKey]);
    var observedAt :- ReadText(d[ObservedAtKey]);
    var o := Observation(observationId, sourceName, basis, sourceVersion, providerRecordId, mediaType, nativeArtifactId,
                         metadata, observedAt);
    var _ :- Require(o.Valid(lib));
    Ok(o)
  }

  function ReadLink(lib: Library, v: Value): (r: Result<ResourceLink>)
    ensures r.Ok? ==> r.value.Valid(lib)
  {
    var d :- Fields(v, LINK_KEYS);
    var linkId :- ReadId(lib, d[LinkIdKey]);
    var observationId :- ReadId(lib, d[ObservationIdKey]);
    var targetUri :- ReadText(d[TargetUriKey]);
    var relation :- ReadText(d[RelationKey]);
    var mediaType :- ReadOptionalText(d[MediaTypeKey]);
    var caption :- ReadOptionalText(d[LabelKey]);
    var metadata :- ReadMetadata(d[MetadataKey]);
    var l := ResourceLink(linkId, observationId, targetUri, relation, mediaType, caption, metadata);
    var _ :- Require(l.Valid(lib));
    Ok(l)
  }

  /** Every item parsed in order, or the error of one that cannot be. */
  function ReadAll<T>(read: Value -> Result<T>, items: seq<Value>): (r: Result<seq<T>>)
    ensures r.Ok? <==> forall i :: 0 <= i < |items| ==> read(items[i]).Ok?
    ensures r.Ok? ==> |r.value| == |items| && forall i :: 0 <= i < |items| ==> read(items[i]) == Ok(r.value[i])
  {
    if items == [] then Ok([])
    else
      var before :- ReadAll(read, items[..|items| - 1]);
      var last :- read(items[|items| - 1]);
      Ok(before + [last])
  }

  /** `_sequence` and the parsing of its items: only a list will do. */
  function ReadList<T>(read: Value -> Result<T>, v: Value): (r: Result<seq<T>>)
    ensures r.Ok? ==> v.List? && |r.value| == |v.items| && forall i :: 0 <= i < |v.items| ==>
              read(v.items[i]) == Ok(r.value[i])
  {
    if v.List? then ReadAll(read, v.items) else Err
  }

  function ReadMember(v: Value, expectedPath: string): (r: Result<Member>)
    ensures r.Ok? ==> r.value.Valid(expectedPath)
  {
    var d :- Fields(v, MEMBER_KEYS);
    var path :- ReadText(d[PathKey]);
    var sha256 :- ReadText(d[Sha256Key]);
    var sizeBytes :- ReadInt(d[SizeBytesKey]);
    var m := Member(path, sha256, sizeBytes);
    var _ :- Require(m.Valid(expectedPath));
    Ok(m)
  }

  /** `proof_bundle_manifest_from_dict`. */
  function ReadManifest(lib: Library, v: Value): (r: Result<Manifest>)
    ensures r.Ok? ==>
              r.value.Valid(lib) && v.Mapping? && v.fields.Keys == MANIFEST_KEYS && v.fields[SchemaVersionKey] == Int(1)
  {
    var root :- Fields(v, MANIFEST_KEYS);
    var format :- ReadText(root[FormatKey]);
    var schemaVersion :- ReadInt(root[SchemaVersionKey]);
    var _ :- Require(format == FORMAT && schemaVersion == 1);
    var document :- ReadDocument(lib, root[DocumentKey]);
    var artifact :- ReadArtifact(lib, root[ArtifactKey]);
    var works :- ReadList(w => ReadWork(lib, w), root[WorkDocumentsKey]);
    var observations :- ReadList(o => ReadObservation(lib, o), root[SourceObservationsKey]);
    var links :- ReadList(l => ReadLink(lib, l), root[ResourceLinksKey]);
    var m := Manifest(document, artifact, works, observations, links, format, schemaVersion);
    var _ :- Require(m.Consistent());
    Ok(m)
  }

  /** `proof_bundle_manifest_v2_from_dict`. */
  function ReadManifest2(lib: Library, v: Value): (r: Result<Manifest2>)
    ensures r.Ok? ==>
              && r.value.Valid(lib) && v.Mapping? && v.fields.Keys == MANIFEST_KEYS + {ResearchStateKey}
              && v.fields[SchemaVersionKey] == Int(2)
  {
    var root :- Fields(v, MANIFEST_KEYS + {ResearchStateKey});
    var schemaVersion :- ReadInt(root[SchemaVersionKey]);
    var _ :- Require(schemaVersion == 2);
    var base :- ReadManifest(lib, Mapping((root - {ResearchStateKey})[SchemaVersionKey := Int(1)]));
    var researchState :- ReadMember(root[ResearchStateKey], RESEARCH_STATE_PATH);
    Ok(Manifest2(base, researchState, schemaVersion))
  }

  /** `proof_bundle_manifest_v3_from_dict`. */
  function ReadManifest3(lib: Library, v: Value): (r: Result<Manifest3>)
    ensures r.Ok? ==>
              && r.value.Valid(lib) && v.Mapping? &&
                 v.fields.Keys == MANIFEST_KEYS + {ResearchStateKey, NormalizedDocumentKey}
              && v.fields[SchemaVersionKey] == Int(3)
  {
    var root :- Fields(v, MANIFEST_KEYS + {ResearchStateKey, NormalizedDocumentKey});
    var schemaVersion :- ReadInt(root[SchemaVersionKey]);
    var _ :- Require(schemaVersion == 3);
    var base :- ReadManifest2(lib, Mapping((root - {NormalizedDocumentKey})[SchemaVersionKey := Int(2)]));
    var normalizedDocument :- ReadMember(root[NormalizedDocumentKey], NORMALIZED_DOCUMENT_PATH);
    Ok(Manifest3(base, normalizedDocument, schemaVersion))
  }

  datatype AnyManifest = V1(v1: Manifest) | V2(v2: Manifest2) | V3(v3: Manifest3) {
    predicate Valid(lib: Library) {
      match this
      case V1(m) => m.Valid(lib)
      case V2(m) => m.Valid(lib)
      case V3(m) => m.Valid(lib)
    }
  }

  function ToDict(lib: Library, m: AnyManifest): Value {
    match m
    case V1(v1) => Mapping(ManifestToDict(lib, v1))
    case V2(v2) => Mapping(Manifest2ToDict(lib, v2))
    case V3(v3) => Mapping(Manifest3ToDict(lib, v3))
  }

  /** Python's `value == n`, where a float may equal an integer. */
  predicate EqualsInt(v: Value, n: int) {
    v == Int(n) || v == Float(n as real)
  }

  /** `proof_bundle_manifest_from_versioned_dict`. */
  function ReadVersioned(lib: Library, v: Value): Result<AnyManifest> {
    if v.Mapping? && SchemaVersionKey in v.fields && EqualsInt(v.fields[SchemaVersionKey], 2) then
      var m :- ReadManifest2(lib, v);
      Ok(V2(m))
    else if v.Mapping? && SchemaVersionKey in v.fields && EqualsInt(v.fields[SchemaVersionKey], 3)
            && NormalizedDocumentKey in v.fields then
      var m :- ReadManifest3(lib, v);
      Ok(V3(m))
    else
      var m :- ReadManifest(lib, v);
      Ok(V1(m))
  }

  // ----- what is printed reads back

  lemma ArtifactReadsBack(lib: Library, a: Artifact)
    requires lib.Faithful() && a.Valid(lib)
    ensures ReadArtifact(lib, ArtifactToDict(lib, a)) == Ok(a)
  {
    hide IsSha256, Blank;
    assert ArtifactToDict(lib, a).fields.Keys == ARTIFACT_KEYS;
  }

  lemma DocumentReadsBack(lib: Library, d: Document)
    requires lib.Faithful() && d.Valid(lib)
    ensures ReadDocument(lib, DocumentToDict(lib, d)) == Ok(d)
  {
    hide Blank;
    assert DocumentToDict(lib, d).fields.Keys == DOCUMENT_KEYS;
  }

  lemma WorkReadsBack(lib: Library, w: WorkLink)
    requires lib.Faithful() && w.Valid(lib)
    ensures ReadWork(lib, WorkToDict(lib, w)) == Ok(w)
  {
    assert WorkToDict(lib, w).fields.Keys == WORK_KEYS;
  }

  lemma {:induction false} MetadataReadsBack(v: Value)
    requires v.Mapping? && Frozen(v)
    ensures ReadMetadata(Plain(v)) == Ok(v)
  {
    PlainCopiesBack(v);
  }

  lemma OptionalTextReadsBack(s: Option<string>)
    ensures ReadOptionalText(OptionalText(s)) == Ok(s)
  {
  }

  lemma IdReadsBack(lib: Library, id: Id)
    requires lib.Faithful()
    ensures ReadId(lib, Text(lib.show(id))) == Ok(id)
    ensures ReadOptionalId(lib, Text(lib.show(id))) == Ok(Some(id)) && ReadOptionalId(lib, Null) == Ok(None)
  {
  }

  lemma ObservationMetadataReadsBack(lib: Library, o: Observation)
    requires o.Valid(lib)
    ensures ReadMetadata(Plain(o.metadata)) == Ok(o.metadata)
  {
    MetadataReadsBack(o.metadata);
  }

  lemma ObservationReadsBack(lib: Library, o: Observation)
    requires lib.Faithful() && o.Valid(lib)
    ensures ReadObservation(lib, ObservationToDict(lib, o)) == Ok(o)
  {
    hide Blank, Frozen, Plain, Copyable, Copy, ReadMetadata, ReadId, ReadOptionalId, ReadOptionalText, OptionalText,
      Observation.Valid;
    OptionalTextReadsBack(o.sourceVersion);
    OptionalTextReadsBack(o.providerRecordId);
    OptionalTextReadsBack(o.mediaType);
    IdReadsBack(lib, o.observationId);
    if o.nativeArtifactId.Some? {
      IdReadsBack(lib, o.nativeArtifactId.value);
    }
    ObservationMetadataReadsBack(lib, o);
    assert ObservationToDict(lib, o).fields.Keys == OBSERVATION_KEYS;
  }

  lemma LinkReadsBack(lib: Library, l: ResourceLink)
    requires lib.Faithful() && l.Valid(lib)
    ensures ReadLink(lib, LinkToDict(lib, l)) == Ok(l)
  {
    hide Blank, Frozen, Plain, Copyable, Copy, ReadMetadata, ReadId, ReadOptionalText, OptionalText;
    OptionalTextReadsBack(l.mediaType);
    OptionalTextReadsBack(l.caption);
    IdReadsBack(lib, l.linkId);
    IdReadsBack(lib, l.observationId);
    MetadataReadsBack(l.metadata);
    assert LinkToDict(lib, l).fields.Keys == LINK_KEYS;
  }

  lemma ListReadsBack<T>(read: Value -> Result<T>, show: T -> Value, items: seq<T>)
    requires forall i :: 0 <= i < |items| ==> read(show(items[i])) == Ok(items[i])
    ensures ReadList(read, ListOf(show, items)) == Ok(items)
  {
    hide ReadAll;
    var r := ReadList(read, ListOf(show, items));
    assert forall i :: 0 <= i < |items| ==> ListOf(show, items).items[i] == show(items[i]);
    assert r.Ok? && r.value == items;
  }

  lemma ManifestReadsBack(lib: Library, m: Manifest)
    requires lib.Faithful() && m.Valid(lib)
    ensures ReadManifest(lib, Mapping(ManifestToDict(lib, m))) == Ok(m)
  {
    hide ArtifactToDict, DocumentToDict, WorkToDict, ObservationToDict, LinkToDict, ListOf, ReadArtifact, ReadDocument,
      ReadWork, ReadObservation, ReadLink, ReadList;
    DocumentReadsBack(lib, m.document);
    ArtifactReadsBack(lib, m.artifact);
    forall i | 0 <= i < |m.works| ensures ReadWork(lib, WorkToDict(lib, m.works[i])) == Ok(m.works[i]) {
      WorkReadsBack(lib, m.works[i]);
    }
    ListReadsBack(w => ReadWork(lib, w), w => WorkToDict(lib, w), m.works);
    forall i | 0 <= i < |m.observations|
      ensures ReadObservation(lib, ObservationToDict(lib, m.observations[i])) == Ok(m.observations[i])
    {
      ObservationReadsBack(lib, m.observations[i]);
    }
    ListReadsBack(o => ReadObservation(lib, o), o => ObservationToDict(lib, o), m.observations);
    forall i | 0 <= i < |m.links| ensures ReadLink(lib, LinkToDict(lib, m.links[i])) == Ok(m.links[i]) {
      LinkReadsBack(lib, m.links[i]);
    }
    ListReadsBack(l => ReadLink(lib, l), l => LinkToDict(lib, l), m.links);
    assert ManifestToDict(lib, m).Keys == MANIFEST_KEYS;
  }

  lemma MemberReadsBack(d: Member, expectedPath: string)
    requires d.Valid(expectedPath)
    ensures ReadMember(MemberToDict(d), expectedPath) == Ok(d)
  {
    hide IsSha256;
    assert MemberToDict(d).fields.Keys == MEMBER_KEYS;
  }

  lemma Manifest2ReadsBack(lib: Library, m: Manifest2)
    requires lib.Faithful() && m.Valid(lib)
    ensures ReadManifest2(lib, Mapping(Manifest2ToDict(lib, m))) == Ok(m)
  {
    hide MemberToDict, ReadMember, ReadManifest, DocumentToDict, ArtifactToDict, ListOf, WorkToDict, ObservationToDict,
      LinkToDict;
    ManifestReadsBack(lib, m.base);
    MemberReadsBack(m.researchState, RESEARCH_STATE_PATH);
    var root := Manifest2ToDict(lib, m);
    assert root.Keys == MANIFEST_KEYS + {ResearchStateKey};
    assert (root - {ResearchStateKey})[SchemaVersionKey := Int(1)] == ManifestToDict(lib, m.base);
  }

  lemma Manifest3ReadsBack(lib: Library, m: Manifest3)
    requires lib.Faithful() && m.Valid(lib)
    ensures ReadManifest3(lib, Mapping(Manifest3ToDict(lib, m))) == Ok(m)
  {
    hide MemberToDict, ReadMember, ReadManifest2, ManifestToDict;
    Manifest2ReadsBack(lib, m.base);
    MemberReadsBack(m.normalizedDocument, NORMALIZED_DOCUMENT_PATH);
    var root := Manifest3ToDict(lib, m);
    Manifest2Keys(lib, m.base);
    assert root.Keys == MANIFEST_KEYS + {ResearchStateKey, NormalizedDocumentKey};
    assert (root - {NormalizedDocumentKey})[SchemaVersionKey := Int(2)] == Manifest2ToDict(lib, m.base);
  }

  lemma Manifest2Keys(lib: Library, m: Manifest2)
    requires m.Valid(lib)
    ensures Manifest2ToDict(lib, m).Keys == MANIFEST_KEYS + {ResearchStateKey}
    ensures Manifest2ToDict(lib, m)[SchemaVersionKey] == Int(2)
  {
    hide MemberToDict, DocumentToDict, ArtifactToDict, ListOf, WorkToDict, ObservationToDict, LinkToDict;
    assert ManifestToDict(lib, m.base).Keys == MANIFEST_KEYS;
  }

  /** Main result: every valid manifest of every version, printed and parsed by version, is the same manifest. */
  lemma ManifestRoundTrip(lib: Library, m: AnyManifest)
    requires lib.Faithful() && m.Valid(lib)
    ensures ReadVersioned(lib, ToDict(lib, m)) == Ok(m)
  {
    hide ReadManifest, ReadManifest2, ReadManifest3, ManifestToDict, Manifest2ToDict, Manifest3ToDict;
    match m
    case V1(v1) =>
      ManifestReadsBack(lib, v1);
      assert ReadManifest(lib, ToDict(lib, m)).Ok?;
    case V2(v2) =>
      Manifest2ReadsBack(lib, v2);
      assert ReadManifest2(lib, ToDict(lib, m)).Ok?;
    case V3(v3) =>
      Manifest3ReadsBack(lib, v3);
      assert ReadManifest3(lib, ToDict(lib, m)).Ok?;
  }

  /**
   Main result: no value is a manifest of two versions, and dispatch finds the one version that accepts it, if any.
   */
  lemma VersionsAreDisjoint(lib: Library, v: Value)
    ensures !(ReadManifest(lib, v).Ok? && ReadManifest2(lib, v).Ok?)
    ensures !(ReadManifest(lib, v).Ok? && ReadManifest3(lib, v).Ok?)
    ensures !(ReadManifest2(lib, v).Ok? && ReadManifest3(lib, v).Ok?)
    ensures ReadVersioned(lib, v) ==
            if ReadManifest(lib, v).Ok? then Ok(V1(ReadManifest(lib, v).value))
            else if ReadManifest2(lib, v).Ok? then Ok(V2(ReadManifest2(lib, v).value))
            else if ReadManifest3(lib, v).Ok? then Ok(V3(ReadManifest3(lib, v).value))
            else Err
  {
    hide ReadManifest, ReadManifest2, ReadManifest3;
  }

  /** What a version prints, no other version's parser accepts. */
  lemma OtherVersionsRefuse(lib: Library, m: AnyManifest)
    requires lib.Faithful() && m.Valid(lib)
    ensures !m.V1? ==> ReadManifest(lib, ToDict(lib, m)).Err?
    ensures !m.V2? ==> ReadManifest2(lib, ToDict(lib, m)).Err?
    ensures !m.V3? ==> ReadManifest3(lib, ToDict(lib, m)).Err?
  {
    hide ReadManifest, ReadManifest2, ReadManifest3, ReadVersioned, ToDict;
    ManifestRoundTrip(lib, m);
    VersionsAreDisjoint(lib, ToDict(lib, m));
  }

  /** Whatever parses is a valid manifest, and printing it gives a form that parses to the same manifest. */
  lemma ParsedIsCanonical(lib: Library, v: Value)
    requires lib.Faithful() && ReadVersioned(lib, v).Ok?
    ensures var m := ReadVersioned(lib, v).value;
            m.Valid(lib) && ReadVersioned(lib, ToDict(lib, m)) == Ok(m)
  {
    hide ReadManifest, ReadManifest2, ReadManifest3, ToDict;
    ManifestRoundTrip(lib, ReadVersioned(lib, v).value);
  }

  ghost predicate OneArtifact(lib: Library, m: Manifest) {
    var sha := m.artifact.sha256;
    && m.document.artifactId == m.artifact.artifactId && m.artifact.artifactId == lib.artifactId(sha)
    && m.artifact.path == "artifacts/sha256/" + sha && m.artifact.sizeBytes >= 0
    && |sha| == 64 && (forall c :: c in sha ==> 48 <= c as int <= 57 || 97 <= c as int <= 102)
    && (forall w :: w in m.works ==>
          w.documentId == m.document.documentId && w.artifactId == m.artifact.artifactId)
    && (forall o :: o in m.observations ==>
          && o.basis in {"native", "reconstructed", "inferred"}
          && (o.nativeArtifactId.Some? ==> o.nativeArtifactId.value == m.artifact.artifactId))
  }

  ghost predicate LinksResolve(m: Manifest) {
    forall l :: l in m.links ==> exists o :: o in m.observations && o.observationId == l.observationId
  }

  ghost predicate NothingTwice(m: Manifest) {
    && (forall i, j :: 0 <= i < j < |m.works| ==> m.works[i].linkId != m.works[j].linkId)
    && (forall i, j :: 0 <= i < j < |m.observations| ==>
          m.observations[i].observationId != m.observations[j].observationId)
    && (forall i, j :: 0 <= i < j < |m.links| ==> m.links[i].linkId != m.links[j].linkId)
  }

  lemma HasOneArtifact(lib: Library, m: Manifest)
    requires m.Valid(lib)
    ensures OneArtifact(lib, m)
  {
    hide Unique, Blank, ResourceLink.Valid;
    assert forall c :: c in m.artifact.sha256 ==> '0' <= c <= '9' || 'a' <= c <= 'f';
  }

  lemma ItsLinksResolve(m: Manifest)
    requires m.Consistent()
    ensures LinksResolve(m)
  {
    hide Unique;
    forall l | l in m.links ensures exists o :: o in m.observations && o.observationId == l.observationId {
      var i :| 0 <= i < |m.links| && m.links[i] == l;
      var j :| 0 <= j < |m.observations| && m.observations[j].observationId == m.links[i].observationId;
      assert m.observations[j] in m.observations;
    }
  }

  lemma FormatIsChecked(lib: Library, v: Value)
    requires ReadManifest(lib, v).Ok?
    ensures v.fields[FormatKey] == Text("tarkka-proof-bundle")
  {
    hide ReadArtifact, ReadDocument, ReadList, Blank, Manifest.Consistent;
  }

  /**
   What is accepted holds together: the document and every work link name the one artifact, whose identity and path
   follow from its digest; every resource link names a listed observation; and no identity is listed twice.
   */
  lemma AcceptedHoldsTogether(lib: Library, v: Value)
    requires ReadManifest(lib, v).Ok?
    ensures v.fields[FormatKey] == Text("tarkka-proof-bundle")
    ensures var m := ReadManifest(lib, v).value; OneArtifact(lib, m) && LinksResolve(m) && NothingTwice(m)
  {
    FormatIsChecked(lib, v);
    var m := ReadManifest(lib, v).value;
    hide ReadManifest, OneArtifact, LinksResolve, NothingTwice, Unique, Blank, Artifact.Valid, Document.Valid,
      WorkLink.Valid, Observation.Valid, ResourceLink.Valid;
    HasOneArtifact(lib, m);
    assert m.Consistent() by {
      ValidIsConsistent(lib, m);
    }
    hide Manifest.Consistent, Manifest.Valid;
    ItsLinksResolve(m);
    NothingIsTwice(m);
  }

  lemma ValidIsConsistent(lib: Library, m: Manifest)
    requires m.Valid(lib)
    ensures m.Consistent()
  {
    hide Manifest.Consistent, Artifact.Valid, Document.Valid;
  }

  lemma NothingIsTwice(m: Manifest)
    requires m.Consistent()
    ensures NothingTwice(m)
  {
  }
}
