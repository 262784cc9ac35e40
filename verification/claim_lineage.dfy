/** Bounded claim-lineage pages (src/tarkka/application/claim_lineage.py). */
module ClaimLineages {
  import opened Wrappers

  /** A UUID. Its canonical text sorts as the number does. */
  type Id = nat

  const MAX_OFFSET: nat := 10_000
  const MAX_PAGE_SIZE: nat := 100

  datatype Claim = Claim(id: Id, documentId: Id, runId: Id, evidenceIds: seq<Id>)

  datatype Extraction = ClaimRecord(claim: Claim) | OtherRecord

  datatype Evidence = Evidence(id: Id, documentId: Id, runId: Id)

  datatype ExtractionRun = ExtractionRun(id: Id, documentId: Id)

  datatype Document = Document(id: Id, artifactId: Id)

  /** `canonicalId` is the identity derived from the artifact's digest. */
  datatype Artifact = Artifact(id: Id, canonicalId: Id)

  datatype Relation = Relation(id: Id, claimId: Id, evidenceId: Option<Id>, contextId: Option<Id>)

  datatype CitationContext = CitationContext(id: Id, documentId: Id)

  datatype SourceLineage = SourceLineage(document: Document, artifact: Artifact)

  datatype EvidenceLineage = EvidenceLineage(evidence: Evidence, run: ExtractionRun, source: Id, lineage: SourceLineage)

  datatype Assessment = Assessment(relation: Relation, evidence: Option<EvidenceLineage>,
                                   context: Option<CitationContext>)

  datatype Lineage = Lineage(
    claim: Claim, run: ExtractionRun, source: SourceLineage,
    totalEvidence: nat, evidence: seq<EvidenceLineage>,
    totalRelations: nat, assessments: seq<Assessment>)

  /**
   What the repositories hold. `relations` lists a claim's relations in page order; `locate` finds an evidence's source.
   */
  datatype Library = Library(
    extractions: map<Id, Extraction>,
    evidence: map<Id, Evidence>,
    runs: map<Id, ExtractionRun>,
    documents: map<Id, Document>,
    artifacts: map<Id, Artifact>,
    contexts: Option<map<(Id, Id), CitationContext>>,
    relations: Id -> seq<Relation>,
    locate: (Document, Evidence) -> Option<Id>)

  function Get<T>(m: map<Id, T>, id: Id): Option<T> {
    if id in m then Some(m[id]) else None
  }

  /** The run a record names, if it exists and is consistent. */
  function RunOf(lib: Library, runId: Id, documentId: Id): Option<ExtractionRun> {
    var run := Get(lib.runs, runId);
    if run.Some? && run.value.id == runId && run.value.documentId == documentId then run else None
  }

  function SourceOf(lib: Library, documentId: Id): Option<SourceLineage> {
    var document := Get(lib.documents, documentId);
    if document.None? || document.value.id != documentId then None
    else
      var artifact := Get(lib.artifacts, document.value.artifactId);
      if artifact.None? || artifact.value.id != document.value.artifactId ||
         artifact.value.id != artifact.value.canonicalId
      then None
      else Some(SourceLineage(document.value, artifact.value))
  }

  /** `owner` is the claim the evidence was extracted with, when that is required. */
  function EvidenceOf(lib: Library, evidenceId: Id, owner: Option<Claim>): Option<EvidenceLineage> {
    var evidence := Get(lib.evidence, evidenceId);
    if evidence.None? then None
    else if owner.Some? &&
            (evidence.value.documentId != owner.value.documentId || evidence.value.runId != owner.value.runId)
    then None
    else
      var run := RunOf(lib, evidence.value.runId, evidence.value.documentId);
      var lineage := SourceOf(lib, evidence.value.documentId);
      if run.None? || lineage.None? then None
      else
        var source := lib.locate(lineage.value.document, evidence.value);
        if source.None? then None else Some(EvidenceLineage(evidence.value, run.value, source.value, lineage.value))
  }

  function ContextOf(lib: Library, documentId: Id, contextId: Id): Option<CitationContext> {
    if lib.contexts.None? || (documentId, contextId) !in lib.contexts.value then None
    else
      var context := lib.contexts.value[(documentId, contextId)];
      if context.id == contextId && context.documentId == documentId then Some(context) else None
  }

  function AssessmentOf(lib: Library, claim: Claim, relation: Relation): Option<Assessment> {
    var evidence := if relation.evidenceId.Some? then EvidenceOf(lib, relation.evidenceId.value, None) else None;
    var context := if relation.contextId.Some? then ContextOf(lib, claim.documentId, relation.contextId.value)
        else None;
    if relation.claimId != claim.id || evidence.Some? != relation.evidenceId.Some? ||
       context.Some? != relation.contextId.Some?
    then None
    else Some(Assessment(relation, evidence, context))
  }

  function AllEvidence(lib: Library, claim: Claim, ids: seq<Id>): Option<seq<EvidenceLineage>> {
    if ids == [] then Some([])
    else
      var before := AllEvidence(lib, claim, ids[..|ids| - 1]);
      var last := EvidenceOf(lib, ids[|ids| - 1], Some(claim));
      if before.None? || last.None? then None else Some(before.value + [last.value])
  }

  function AllAssessments(lib: Library, claim: Claim, relations: seq<Relation>): Option<seq<Assessment>> {
    if relations == [] then Some([])
    else
      var before := AllAssessments(lib, claim, relations[..|relations| - 1]);
      var last := AssessmentOf(lib, claim, relations[|relations| - 1]);
      if before.None? || last.None? then None else Some(before.value + [last.value])
  }

  function Min(a: int, b: int): int {
    if a < b then a else b
  }

  /** Python's `s[offset:offset + limit]`. */
  function Slice<T>(s: seq<T>, offset: nat, limit: nat): seq<T> {
    s[Min(offset, |s|)..Min(offset + limit, |s|)]
  }

  /** `_validate_page`. */
  predicate PageAllowed(offset: int, limit: int) {
    0 <= offset <= MAX_OFFSET && 0 <= limit <= MAX_PAGE_SIZE
  }

  /** One page as the repositories determine it; nothing where `inspect` raises. */
  function Page(lib: Library, claimId: Id, offset: int, limit: int, evidenceOffset: int,
                evidenceLimit: int): Option<Lineage> {
    if !PageAllowed(offset, limit) || !PageAllowed(evidenceOffset, evidenceLimit) then None
    else if claimId !in lib.extractions || lib.extractions[claimId].OtherRecord? then None
    else
      var claim := lib.extractions[claimId].claim;
      var run := RunOf(lib, claim.runId, claim.documentId);
      var source := SourceOf(lib, claim.documentId);
      var evidence := AllEvidence(lib, claim, Slice(claim.evidenceIds, evidenceOffset, evidenceLimit));
      var relations := lib.relations(claim.id);
      var assessments := AllAssessments(lib, claim, Slice(relations, offset, limit));
      if run.None? || source.None? || evidence.None? || assessments.None? then None
      else Some(Lineage(claim, run.value, source.value, |claim.evidenceIds|, evidence.value, |relations|,
                        assessments.value))
  }

  /** An evidence of a page with its run and its source, as stored: they belong to one document, and to each other. */
  ghost predicate Joined(lib: Library, id: Id, e: EvidenceLineage) {
    && Get(lib.evidence, id) == Some(e.evidence)
    && Get(lib.runs, e.evidence.runId) == Some(e.run) && e.run.id == e.evidence.runId
    && e.run.documentId == e.evidence.documentId
    && Sourced(lib, e.evidence.documentId, e.lineage)
    && lib.locate(e.lineage.document, e.evidence) == Some(e.source)
  }

  ghost predicate Sourced(lib: Library, documentId: Id, s: SourceLineage) {
    && Get(lib.documents, documentId) == Some(s.document) && s.document.id == documentId
    && Get(lib.artifacts, s.document.artifactId) == Some(s.artifact) && s.artifact.id == s.document.artifactId
    && s.artifact.id == s.artifact.canonicalId
  }

  lemma {:induction false} EvidenceIsJoined(lib: Library, id: Id, owner: Option<Claim>, e: EvidenceLineage)
    ensures EvidenceOf(lib, id, owner) == Some(e) <==>
            && Joined(lib, id, e)
            && (owner.Some? ==> e.evidence.documentId == owner.value.documentId &&
                                e.evidence.runId == owner.value.runId)
  {
  }

  /** What is asked for is there, and is what was asked for. */
  ghost predicate Assessed(lib: Library, claim: Claim, r: Relation, a: Assessment) {
    && a.relation == r && r.claimId == claim.id
    && (a.evidence.Some? <==> r.evidenceId.Some?)
    && (a.evidence.Some? ==> Joined(lib, r.evidenceId.value, a.evidence.value))
    && (a.context.Some? <==> r.contextId.Some?)
    && (a.context.Some? ==>
          && lib.contexts.Some? && (claim.documentId, r.contextId.value) in lib.contexts.value
          && lib.contexts.value[(claim.documentId, r.contextId.value)] == a.context.value
          && a.context.value.id == r.contextId.value && a.context.value.documentId == claim.documentId)
  }

  lemma {:induction false} AssessmentIsAssessed(lib: Library, claim: Claim, r: Relation, a: Assessment)
    ensures AssessmentOf(lib, claim, r) == Some(a) <==> Assessed(lib, claim, r, a)
  {
    hide EvidenceOf, Joined;
    if r.evidenceId.Some? {
      var found := EvidenceOf(lib, r.evidenceId.value, None);
      if found.Some? {
        EvidenceIsJoined(lib, r.evidenceId.value, None, found.value);
      }
      if a.evidence.Some? {
        EvidenceIsJoined(lib, r.evidenceId.value, None, a.evidence.value);
      }
    }
  }

  lemma {:induction false} AllEvidenceIsJoined(lib: Library, claim: Claim, ids: seq<Id>, all: seq<EvidenceLineage>)
    ensures AllEvidence(lib, claim, ids) == Some(all) <==>
            |all| == |ids| && forall i :: 0 <= i < |ids| ==> EvidenceOf(lib, ids[i], Some(claim)) == Some(all[i])
  {
    hide EvidenceOf;
    if ids != [] {
      var n := |ids| - 1;
      var before := AllEvidence(lib, claim, ids[..n]);
      if before.Some? {
        AllEvidenceIsJoined(lib, claim, ids[..n], before.value);
      }
      if |all| == |ids| {
        AllEvidenceIsJoined(lib, claim, ids[..n], all[..n]);
        assert all == all[..n] + [all[n]];
      }
    }
  }

  lemma {:induction false} AllAssessmentsAreAssessed(lib: Library, claim: Claim, relations: seq<Relation>,
                                                     all: seq<Assessment>)
    ensures AllAssessments(lib, claim, relations) == Some(all) <==>
            |all| == |relations| &&
            forall i :: 0 <= i < |relations| ==> AssessmentOf(lib, claim, relations[i]) == Some(all[i])
  {
    hide AssessmentOf;
    if relations != [] {
      var n := |relations| - 1;
      var before := AllAssessments(lib, claim, relations[..n]);
      if before.Some? {
        AllAssessmentsAreAssessed(lib, claim, relations[..n], before.value);
      }
      if |all| == |relations| {
        AllAssessmentsAreAssessed(lib, claim, relations[..n], all[..n]);
        assert all == all[..n] + [all[n]];
      }
    }
  }

  /** The items of a page: those from `offset` on, `limit` of them or as many as there are. */
  ghost predicate IsSlice<T>(s: seq<T>, offset: nat, limit: nat, page: seq<T>) {
    && |page| <= limit
    && (offset + |page| < |s| ==> |page| == limit)
    && (if offset < |s| then offset + |page| <= |s| else page == [])
    && forall i :: 0 <= i < |page| ==> offset + i < |s| && page[i] == s[offset + i]
  }

  lemma SliceIs<T>(s: seq<T>, offset: nat, limit: nat)
    ensures IsSlice(s, offset, limit, Slice(s, offset, limit))
  {
  }

  /**
   A page holds together: its claim, run and source belong to each other; its evidence is the claim's own, of the
   asked positions in order, each from the claim's run and document; and its assessments are those of the claim's
   relations at the asked positions, each with the evidence and the context it names.
   */
  lemma {:induction false} PageHoldsTogether(lib: Library, claimId: Id, offset: int, limit: int, evidenceOffset: int,
                                             evidenceLimit: int)
    requires Page(lib, claimId, offset, limit, evidenceOffset, evidenceLimit).Some?
    ensures var l := Page(lib, claimId, offset, limit, evidenceOffset, evidenceLimit).value;
            && claimId in lib.extractions && lib.extractions[claimId] == ClaimRecord(l.claim)
            && Get(lib.runs, l.claim.runId) == Some(l.run)
            && l.run.id == l.claim.runId && l.run.documentId == l.claim.documentId
            && Sourced(lib, l.claim.documentId, l.source)
            && l.totalEvidence == |l.claim.evidenceIds| && l.totalRelations == |lib.relations(l.claim.id)|
            && (exists ids ::
                  && IsSlice(l.claim.evidenceIds, evidenceOffset, evidenceLimit, ids) && |ids| == |l.evidence|
                  && forall i :: 0 <= i < |ids| ==>
                                   && Joined(lib, ids[i], l.evidence[i])
                                   && l.evidence[i].evidence.documentId == l.claim.documentId
                                   && l.evidence[i].evidence.runId == l.claim.runId)
            && (exists relations ::
                  && IsSlice(lib.relations(l.claim.id), offset, limit, relations) && |relations| == |l.assessments|
                  && forall i :: 0 <= i < |relations| ==> Assessed(lib, l.claim, relations[i], l.assessments[i]))
  {
    var l := Page(lib, claimId, offset, limit, evidenceOffset, evidenceLimit).value;
    var ids := Slice(l.claim.evidenceIds, evidenceOffset, evidenceLimit);
    var relations := Slice(lib.relations(l.claim.id), offset, limit);
    hide Slice, IsSlice, AllEvidence, AllAssessments, EvidenceOf, AssessmentOf, Joined, Assessed;
    SliceIs(l.claim.evidenceIds, evidenceOffset, evidenceLimit);
    SliceIs(lib.relations(l.claim.id), offset, limit);
    AllEvidenceIsJoined(lib, l.claim, ids, l.evidence);
    AllAssessmentsAreAssessed(lib, l.claim, relations, l.assessments);
    forall i | 0 <= i < |ids|
      ensures && Joined(lib, ids[i], l.evidence[i])
              && l.evidence[i].evidence.documentId == l.claim.documentId
              && l.evidence[i].evidence.runId == l.claim.runId
    {
      EvidenceIsJoined(lib, ids[i], Some(l.claim), l.evidence[i]);
    }
    forall i | 0 <= i < |relations| ensures Assessed(lib, l.claim, relations[i], l.assessments[i]) {
      AssessmentIsAssessed(lib, l.claim, relations[i], l.assessments[i]);
    }
  }

  /** The per-call caches. A cached value is the one a fresh lookup would give. */
  class Caches {
    const lib: Library
    var sources: map<Id, SourceLineage>
    var runs: map<Id, ExtractionRun>

    ghost predicate Valid()
      reads this
    {
      && (forall d :: d in sources ==> SourceOf(lib, d) == Some(sources[d]))
      && (forall r :: r in runs ==> Get(lib.runs, r) == Some(runs[r]) && runs[r].id == r)
    }

    constructor (lib: Library)
      ensures Valid() && this.lib == lib
    {
      this.lib := lib;
      sources, runs := map[], map[];
    }

    /** `_extraction_run`. */
    method ReadRun(runId: Id, documentId: Id) returns (run: Option<ExtractionRun>)
      requires Valid()
      modifies this
      ensures Valid() && run == RunOf(lib, runId, documentId)
    {
      if runId in runs {
        return if runs[runId].documentId != documentId then None else Some(runs[runId]);
      }
      run := Get(lib.runs, runId);
      if run.None? || run.value.id != runId || run.value.documentId != documentId {
        return None;
      }
      runs := runs[runId := run.value];
    }

    /** `_source_lineage`. */
    method ReadSource(documentId: Id) returns (source: Option<SourceLineage>)
      requires Valid()
      modifies this
      ensures Valid() && source == SourceOf(lib, documentId)
    {
      if documentId in sources {
        return Some(sources[documentId]);
      }
      var document := Get(lib.documents, documentId);
      if document.None? || document.value.id != documentId {
        return None;
      }
      var artifact := Get(lib.artifacts, document.value.artifactId);
      if artifact.None? || artifact.value.id != document.value.artifactId ||
         artifact.value.id != artifact.value.canonicalId {
        return None;
      }
      source := Some(SourceLineage(document.value, artifact.value));
      sources := sources[documentId := source.value];
    }

    /** `_evidence_lineage`. */
    method ReadEvidence(evidenceId: Id, owner: Option<Claim>) returns (r: Option<EvidenceLineage>)
      requires Valid()
      modifies this
      ensures Valid() && r == EvidenceOf(lib, evidenceId, owner)
    {
      var evidence := Get(lib.evidence, evidenceId);
      if evidence.None? {
        return None;
      }
      if owner.Some? &&
         (evidence.value.documentId != owner.value.documentId || evidence.value.runId != owner.value.runId) {
        return None;
      }
      var run := ReadRun(evidence.value.runId, evidence.value.documentId);
      if run.None? {
        return None;
      }
      var lineage := ReadSource(evidence.value.documentId);
      if lineage.None? {
        return None;
      }
      var source := lib.locate(lineage.value.document, evidence.value);
      r := if source.None? then None else Some(EvidenceLineage(evidence.value, run.value, source.value, lineage.value));
    }
  }

  /** `inspect`: the caches never change what a page says. */
  method Inspect(lib: Library, claimId: Id, offset: int, limit: int, evidenceOffset: int, evidenceLimit: int)
    returns (page: Option<Lineage>)
    ensures page == Page(lib, claimId, offset, limit, evidenceOffset, evidenceLimit)
  {
    hide RunOf, SourceOf, EvidenceOf, AssessmentOf, Slice;
    if !PageAllowed(offset, limit) || !PageAllowed(evidenceOffset, evidenceLimit) {
      return None;
    }
    if claimId !in lib.extractions || lib.extractions[claimId].OtherRecord? {
      return None;
    }
    var claim := lib.extractions[claimId].claim;
    var caches := new Caches(lib);
    var run := caches.ReadRun(claim.runId, claim.documentId);
    if run.None? {
      return None;
    }
    var source := caches.ReadSource(claim.documentId);
    if source.None? {
      return None;
    }
    var evidence := ReadAllEvidence(caches, claim, Slice(claim.evidenceIds, evidenceOffset, evidenceLimit));
    if evidence.None? {
      return None;
    }
    var relations := lib.relations(claim.id);
    var assessments := ReadAssessments(caches, claim, Slice(relations, offset, limit));
    if assessments.None? {
      return None;
    }
    page := Some(Lineage(claim, run.value, source.value, |claim.evidenceIds|, evidence.value, |relations|,
                         assessments.value));
  }

  method ReadAllEvidence(caches: Caches, claim: Claim, ids: seq<Id>) returns (r: Option<seq<EvidenceLineage>>)
    requires caches.Valid()
    modifies caches
    ensures caches.Valid() && r == AllEvidence(caches.lib, claim, ids)
  {
    hide EvidenceOf;
    var found := [];
    for i := 0 to |ids|
      invariant caches.Valid() && AllEvidence(caches.lib, claim, ids[..i]) == Some(found)
    {
      var one := caches.ReadEvidence(ids[i], Some(claim));
      assert ids[..i + 1][..i] == ids[..i];
      if one.None? {
        EvidencePrefix(caches.lib, claim, ids, i + 1);
        return None;
      }
      found := found + [one.value];
    }
    assert ids[..|ids|] == ids;
    r := Some(found);
  }

  method ReadAssessments(caches: Caches, claim: Claim, relations: seq<Relation>) returns (r: Option<seq<Assessment>>)
    requires caches.Valid()
    modifies caches
    ensures caches.Valid() && r == AllAssessments(caches.lib, claim, relations)
  {
    hide EvidenceOf, ContextOf;
    var found := [];
    for i := 0 to |relations|
      invariant caches.Valid() && AllAssessments(caches.lib, claim, relations[..i]) == Some(found)
    {
      var one := ReadAssessment(caches, claim, relations[i]);
      assert relations[..i + 1][..i] == relations[..i];
      if one.None? {
        AssessmentsPrefix(caches.lib, claim, relations, i + 1);
        return None;
      }
      found := found + [one.value];
    }
    assert relations[..|relations|] == relations;
    r := Some(found);
  }

  method ReadAssessment(caches: Caches, claim: Claim, relation: Relation) returns (r: Option<Assessment>)
    requires caches.Valid()
    modifies caches
    ensures caches.Valid() && r == AssessmentOf(caches.lib, claim, relation)
  {
    hide EvidenceOf, ContextOf;
    if relation.claimId != claim.id {
      return None;
    }
    var evidence := None;
    if relation.evidenceId.Some? {
      evidence := caches.ReadEvidence(relation.evidenceId.value, None);
      if evidence.None? {
        return None;
      }
    }
    var context := None;
    if relation.contextId.Some? {
      context := ContextOf(caches.lib, claim.documentId, relation.contextId.value);
      if context.None? {
        return None;
      }
    }
    r := Some(Assessment(relation, evidence, context));
  }

  /** A list with an unresolvable prefix does not resolve. */
  lemma {:induction false} EvidencePrefix(lib: Library, claim: Claim, ids: seq<Id>, k: nat)
    requires k <= |ids|
    ensures AllEvidence(lib, claim, ids[..k]).None? ==> AllEvidence(lib, claim, ids).None?
  {
    hide EvidenceOf;
    if k == |ids| {
      assert ids[..k] == ids;
    } else {
      EvidencePrefix(lib, claim, ids[..|ids| - 1], k);
      assert ids[..|ids| - 1][..k] == ids[..k];
    }
  }

  lemma {:induction false} AssessmentsPrefix(lib: Library, claim: Claim, relations: seq<Relation>, k: nat)
    requires k <= |relations|
    ensures AllAssessments(lib, claim, relations[..k]).None? ==> AllAssessments(lib, claim, relations).None?
  {
    hide AssessmentOf;
    if k == |relations| {
      assert relations[..k] == relations;
    } else {
      AssessmentsPrefix(lib, claim, relations[..|relations| - 1], k);
      assert relations[..|relations| - 1][..k] == relations[..k];
    }
  }

  /** Resolving two pages in turn resolves the list they make up. */
  lemma {:induction false} EvidenceJoins(lib: Library, claim: Claim, a: seq<Id>, b: seq<Id>)
    ensures var ra, rb, r := AllEvidence(lib, claim, a), AllEvidence(lib, claim, b), AllEvidence(lib, claim, a + b);
            if ra.Some? && rb.Some? then r == Some(ra.value + rb.value) else r.None?
  {
    hide EvidenceOf;
    if b == [] {
      assert a + b == a;
      assert AllEvidence(lib, claim, a).Some? ==>
               AllEvidence(lib, claim, a).value + [] == AllEvidence(lib, claim, a).value;
    } else {
      EvidenceJoins(lib, claim, a, b[..|b| - 1]);
      assert (a + b)[..|a + b| - 1] == a + b[..|b| - 1];
      var ra, rb := AllEvidence(lib, claim, a), AllEvidence(lib, claim, b);
      if ra.Some? && rb.Some? {
        var front, last := AllEvidence(lib, claim, b[..|b| - 1]).value, EvidenceOf(lib, b[|b| - 1], Some(claim)).value;
        assert (ra.value + front) + [last] == ra.value + (front + [last]);
      }
    }
  }

  lemma {:induction false} AssessmentsJoin(lib: Library, claim: Claim, a: seq<Relation>, b: seq<Relation>)
    ensures var ra, rb, r := AllAssessments(lib, claim, a), AllAssessments(lib, claim, b),
            AllAssessments(lib, claim, a + b);
            if ra.Some? && rb.Some? then r == Some(ra.value + rb.value) else r.None?
  {
    hide AssessmentOf;
    if b == [] {
      assert a + b == a;
      assert AllAssessments(lib, claim, a).Some? ==>
               AllAssessments(lib, claim, a).value + [] == AllAssessments(lib, claim, a).value;
    } else {
      AssessmentsJoin(lib, claim, a, b[..|b| - 1]);
      assert (a + b)[..|a + b| - 1] == a + b[..|b| - 1];
      var ra, rb := AllAssessments(lib, claim, a), AllAssessments(lib, claim, b);
      if ra.Some? && rb.Some? {
        var front, last := AllAssessments(lib, claim, b[..|b| - 1]).value, AssessmentOf(lib, claim, b[|b| - 1]).value;
        assert (ra.value + front) + [last] == ra.value + (front + [last]);
      }
    }
  }

  /** Each listed item appears once, in place, as the lookup gives it. */
  lemma {:induction false} EvidenceInOrder(lib: Library, claim: Claim, ids: seq<Id>)
    requires AllEvidence(lib, claim, ids).Some?
    ensures var r := AllEvidence(lib, claim, ids).value;
            |r| == |ids| && forall i :: 0 <= i < |r| ==> EvidenceOf(lib, ids[i], Some(claim)) == Some(r[i])
  {
    hide EvidenceOf;
    if ids != [] {
      EvidenceInOrder(lib, claim, ids[..|ids| - 1]);
    }
  }

  lemma {:induction false} AssessmentsInOrder(lib: Library, claim: Claim, relations: seq<Relation>)
    requires AllAssessments(lib, claim, relations).Some?
    ensures var r := AllAssessments(lib, claim, relations).value;
            |r| == |relations| && forall i :: 0 <= i < |r| ==> AssessmentOf(lib, claim, relations[i]) == Some(r[i])
  {
    hide AssessmentOf;
    if relations != [] {
      AssessmentsInOrder(lib, claim, relations[..|relations| - 1]);
    }
  }
}
