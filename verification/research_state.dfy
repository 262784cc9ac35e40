/**
 Complete, bounded research-state assembly from claim-lineage pages (src/tarkka/application/document_research_state.py).
 */
module ResearchState {
  import opened Wrappers
  import opened ClaimLineages

  const MAX_CLAIMS: nat := 10_000

  /** `DocumentResearchStateLimits`; `Valid` is what its constructor accepts. */
  datatype Limits = Limits(maxClaims: int, maxEvidence: int, maxRelations: int) {
    predicate Valid() {
      && 0 <= maxClaims <= MAX_CLAIMS
      && 0 <= maxEvidence <= MAX_OFFSET + MAX_PAGE_SIZE
      && 0 <= maxRelations <= MAX_OFFSET + MAX_PAGE_SIZE
    }
  }

  datatype Collected = Complete(lineage: Lineage) | OverLimit | Mismatch | LookupFailed

  /** Everything stored about a claim, as if there were no pages. */
  function Whole(lib: Library, claimId: Id): Option<Lineage> {
    if claimId !in lib.extractions || lib.extractions[claimId].OtherRecord? then None
    else
      var claim := lib.extractions[claimId].claim;
      var run := RunOf(lib, claim.runId, claim.documentId);
      var source := SourceOf(lib, claim.documentId);
      var evidence := AllEvidence(lib, claim, claim.evidenceIds);
      var relations := lib.relations(claim.id);
      var assessments := AllAssessments(lib, claim, relations);
      if run.None? || source.None? || evidence.None? || assessments.None? then None
      else Some(Lineage(claim, run.value, source.value, |claim.evidenceIds|, evidence.value, |relations|,
                        assessments.value))
  }

  predicate SameEvidence(evidence: seq<EvidenceLineage>, ids: seq<Id>) {
    |evidence| == |ids| && forall i :: 0 <= i < |ids| ==> evidence[i].evidence.id == ids[i]
  }

  predicate NoRepeats(assessments: seq<Assessment>) {
    forall i, j :: 0 <= i < j < |assessments| ==> assessments[i].relation.id != assessments[j].relation.id
  }

  /** What a complete collection must answer, given everything that is stored. */
  function Verdict(whole: Lineage, claim: Claim, limits: Limits): Collected {
    if whole.claim != claim then Mismatch
    else if whole.totalEvidence > limits.maxEvidence || whole.totalRelations > limits.maxRelations then OverLimit
    else if !SameEvidence(whole.evidence, claim.evidenceIds) || !NoRepeats(whole.assessments) then Mismatch
    else Complete(whole.(assessments := SortBy(ById, whole.assessments)))
  }

  function ById(a: Assessment): nat {
    a.relation.id
  }

  function RelationId(relation: Relation): nat {
    relation.id
  }

  function ClaimId(claim: Claim): nat {
    claim.id
  }

  /** Python's stable `sorted` with a key. */
  function SortBy<T>(key: T -> nat, s: seq<T>): seq<T> {
    if s == [] then [] else Insert(key, SortBy(key, s[..|s| - 1]), s[|s| - 1])
  }

  function Insert<T>(key: T -> nat, s: seq<T>, x: T): seq<T> {
    if s == [] || key(s[|s| - 1]) <= key(x) then s + [x] else Insert(key, s[..|s| - 1], x) + [s[|s| - 1]]
  }

  predicate Ascending<T>(key: T -> nat, s: seq<T>) {
    forall i, j :: 0 <= i < j < |s| ==> key(s[i]) <= key(s[j])
  }

  lemma {:induction false} InsertAdds<T>(key: T -> nat, s: seq<T>, x: T)
    ensures multiset(Insert(key, s, x)) == multiset(s) + multiset{x}
  {
    if s != [] && key(s[|s| - 1]) > key(x) {
      var front, last := s[..|s| - 1], s[|s| - 1];
      assert s == front + [last];
      InsertAdds(key, front, x);
    }
  }

  lemma {:induction false} InsertSorts<T>(key: T -> nat, s: seq<T>, x: T)
    requires Ascending(key, s)
    ensures Ascending(key, Insert(key, s, x))
  {
    if s != [] && key(s[|s| - 1]) > key(x) {
      var front, last := s[..|s| - 1], s[|s| - 1];
      InsertSorts(key, front, x);
      InsertAdds(key, front, x);
      var r := Insert(key, front, x);
      forall i | 0 <= i < |r| ensures key(r[i]) <= key(last) {
        var y := r[i];
        assert y in multiset(r);
        if y != x {
          assert y in multiset(front);
          var k :| 0 <= k < |front| && front[k] == y;
          assert s[k] == y;
        }
      }
    }
  }

  lemma {:induction false} SortBySorts<T>(key: T -> nat, s: seq<T>)
    ensures Ascending(key, SortBy(key, s))
    ensures multiset(SortBy(key, s)) == multiset(s)
  {
    if s != [] {
      assert s == s[..|s| - 1] + [s[|s| - 1]];
      SortBySorts(key, s[..|s| - 1]);
      InsertSorts(key, SortBy(key, s[..|s| - 1]), s[|s| - 1]);
      InsertAdds(key, SortBy(key, s[..|s| - 1]), s[|s| - 1]);
    }
  }

  /** The claim listed is the claim stored, and what does not depend on a page resolves. */
  ghost predicate Listed(lib: Library, claim: Claim) {
    && claim.id in lib.extractions && lib.extractions[claim.id] == ClaimRecord(claim)
    && RunOf(lib, claim.runId, claim.documentId).Some?
    && SourceOf(lib, claim.documentId).Some?
  }

  lemma {:induction false} EvidencePageIs(lib: Library, claim: Claim, offset: nat, limit: nat)
    requires Listed(lib, claim) && PageAllowed(offset, limit)
    requires offset + limit <= |claim.evidenceIds|
    ensures var page := Page(lib, claim.id, 0, 0, offset, limit);
            var resolved := AllEvidence(lib, claim, claim.evidenceIds[offset..offset + limit]);
            page.Some? == resolved.Some? && (page.Some? ==> page.value.evidence == resolved.value)
  {
    hide RunOf, SourceOf, EvidenceOf, AssessmentOf;
    assert Slice(lib.relations(claim.id), 0, 0) == [];
    assert Slice(claim.evidenceIds, offset, limit) == claim.evidenceIds[offset..offset + limit];
  }

  lemma {:induction false} RelationPageIs(lib: Library, claim: Claim, offset: nat, limit: nat)
    requires Listed(lib, claim) && PageAllowed(offset, limit)
    requires offset + limit <= |lib.relations(claim.id)|
    ensures var page := Page(lib, claim.id, offset, limit, 0, 0);
            var resolved := AllAssessments(lib, claim, lib.relations(claim.id)[offset..offset + limit]);
            page.Some? == resolved.Some? && (page.Some? ==> page.value.assessments == resolved.value)
  {
    hide RunOf, SourceOf, EvidenceOf, AssessmentOf;
    assert Slice(claim.evidenceIds, 0, 0) == [];
    assert Slice(lib.relations(claim.id), offset, limit) == lib.relations(claim.id)[offset..offset + limit];
  }

  lemma {:induction false} EvidenceExtends(lib: Library, claim: Claim, done: nat, next: nat)
    requires done <= next <= |claim.evidenceIds|
    requires AllEvidence(lib, claim, claim.evidenceIds[..done]).Some?
    ensures var ids := claim.evidenceIds;
            var page := AllEvidence(lib, claim, ids[done..next]);
            if page.Some?
               then AllEvidence(lib, claim, ids[..next]) ==
                 Some(AllEvidence(lib, claim, ids[..done]).value + page.value)
            else AllEvidence(lib, claim, ids).None?
  {
    hide AllEvidence;
    var ids := claim.evidenceIds;
    assert ids[..done] + ids[done..next] == ids[..next];
    EvidenceJoins(lib, claim, ids[..done], ids[done..next]);
    EvidencePrefix(lib, claim, ids, next);
  }

  lemma {:induction false} RelationsExtend(lib: Library, claim: Claim, relations: seq<Relation>, done: nat, next: nat)
    requires done <= next <= |relations|
    requires AllAssessments(lib, claim, relations[..done]).Some?
    ensures var page := AllAssessments(lib, claim, relations[done..next]);
            if page.Some? then
              AllAssessments(lib, claim, relations[..next]) ==
                Some(AllAssessments(lib, claim, relations[..done]).value + page.value)
            else AllAssessments(lib, claim, relations).None?
  {
    hide AllAssessments;
    assert relations[..done] + relations[done..next] == relations[..next];
    AssessmentsJoin(lib, claim, relations[..done], relations[done..next]);
    AssessmentsPrefix(lib, claim, relations, next);
  }

  /** The evidence pages after the first make up exactly the claim's evidence; no page request is out of bounds. */
  method CollectEvidence(lib: Library, claim: Claim, first: seq<EvidenceLineage>, pageSize: nat)
    returns (evidence: Option<seq<EvidenceLineage>>)
    requires Listed(lib, claim)
    requires pageSize <= MAX_PAGE_SIZE && |claim.evidenceIds| <= MAX_OFFSET + MAX_PAGE_SIZE
    requires pageSize < MAX_PAGE_SIZE ==> |claim.evidenceIds| <= pageSize
    requires AllEvidence(lib, claim, claim.evidenceIds[..Min(pageSize, |claim.evidenceIds|)]) == Some(first)
    ensures evidence == AllEvidence(lib, claim, claim.evidenceIds)
  {
    hide AllEvidence, Listed, Page;
    var total := |claim.evidenceIds|;
    var found := first;
    var offset := pageSize;
    while offset < total
      invariant pageSize <= offset && (offset - pageSize) % MAX_PAGE_SIZE == 0
      invariant AllEvidence(lib, claim, claim.evidenceIds[..Min(offset, total)]) == Some(found)
    {
      var limit := Min(MAX_PAGE_SIZE, total - offset);
      var page := Inspect(lib, claim.id, 0, 0, offset, limit);
      EvidencePageIs(lib, claim, offset, limit);
      EvidenceExtends(lib, claim, offset, offset + limit);
      if page.None? {
        return None;
      }
      found := found + page.value.evidence;
      offset := offset + MAX_PAGE_SIZE;
    }
    assert claim.evidenceIds[..total] == claim.evidenceIds;
    evidence := Some(found);
  }

  method CollectAssessments(lib: Library, claim: Claim, first: seq<Assessment>, pageSize: nat)
    returns (assessments: Option<seq<Assessment>>)
    requires Listed(lib, claim)
    requires pageSize <= MAX_PAGE_SIZE && |lib.relations(claim.id)| <= MAX_OFFSET + MAX_PAGE_SIZE
    requires pageSize < MAX_PAGE_SIZE ==> |lib.relations(claim.id)| <= pageSize
    requires var relations := lib.relations(claim.id);
             AllAssessments(lib, claim, relations[..Min(pageSize, |relations|)]) == Some(first)
    ensures assessments == AllAssessments(lib, claim, lib.relations(claim.id))
  {
    hide AllAssessments, Listed, Page;
    ghost var relations := lib.relations(claim.id);
    var total := |lib.relations(claim.id)|;
    var found := first;
    var offset := pageSize;
    while offset < total
      invariant pageSize <= offset && (offset - pageSize) % MAX_PAGE_SIZE == 0
      invariant AllAssessments(lib, claim, relations[..Min(offset, total)]) == Some(found)
    {
      var limit := Min(MAX_PAGE_SIZE, total - offset);
      var page := Inspect(lib, claim.id, offset, limit, 0, 0);
      RelationPageIs(lib, claim, offset, limit);
      RelationsExtend(lib, claim, relations, offset, offset + limit);
      if page.None? {
        return None;
      }
      found := found + page.value.assessments;
      offset := offset + MAX_PAGE_SIZE;
    }
    assert relations[..total] == relations;
    assessments := Some(found);
  }

  /** What the first page says about the whole. */
  lemma {:induction false} FirstPage(lib: Library, claimId: Id, limit: nat, evidenceLimit: nat)
    requires PageAllowed(0, limit) && PageAllowed(0, evidenceLimit)
    ensures var page, whole := Page(lib, claimId, 0, limit, 0, evidenceLimit), Whole(lib, claimId);
            && (page.None? ==> whole.None?)
            && (page.Some? ==>
                  && claimId in lib.extractions && lib.extractions[claimId] == ClaimRecord(page.value.claim)
                  && page.value.totalEvidence == |page.value.claim.evidenceIds|
                  && page.value.totalRelations == |lib.relations(page.value.claim.id)|
                  && AllEvidence(lib, page.value.claim,
                                 page.value.claim.evidenceIds[..Min(evidenceLimit, page.value.totalEvidence)])
                     == Some(page.value.evidence)
                  && AllAssessments(lib, page.value.claim,
                                    lib.relations(page.value.claim.id)[..Min(limit, page.value.totalRelations)])
                     == Some(page.value.assessments)
                  && (whole.Some? ==>
                        whole.value.claim == page.value.claim && whole.value.totalEvidence == page.value.totalEvidence
                                      && whole.value.totalRelations == page.value.totalRelations))
  {
    hide RunOf, SourceOf, AllEvidence, AllAssessments;
    if claimId in lib.extractions && lib.extractions[claimId].ClaimRecord? {
      var claim := lib.extractions[claimId].claim;
      var relations := lib.relations(claim.id);
      assert Slice(claim.evidenceIds, 0, evidenceLimit) == claim.evidenceIds[..Min(evidenceLimit, |claim.evidenceIds|)];
      assert Slice(relations, 0, limit) == relations[..Min(limit, |relations|)];
      EvidencePrefix(lib, claim, claim.evidenceIds, Min(evidenceLimit, |claim.evidenceIds|));
      AssessmentsPrefix(lib, claim, relations, Min(limit, |relations|));
    }
  }

  lemma {:induction false} FirstPageLists(lib: Library, claim: Claim, limit: nat, evidenceLimit: nat)
    requires Page(lib, claim.id, 0, limit, 0, evidenceLimit).Some?
    requires Page(lib, claim.id, 0, limit, 0, evidenceLimit).value.claim == claim
    ensures Listed(lib, claim)
    ensures var page := Page(lib, claim.id, 0, limit, 0, evidenceLimit).value;
            var evidence := AllEvidence(lib, claim, claim.evidenceIds);
            var assessments := AllAssessments(lib, claim, lib.relations(claim.id));
            Whole(lib, claim.id) == if evidence.None? || assessments.None? then None
                                    else Some(page.(evidence := evidence.value, assessments := assessments.value))
  {
    hide RunOf, SourceOf, AllEvidence, AllAssessments, Slice;
  }

  /**
   `_collect_complete_claim_lineage`. When everything stored about the claim resolves, the pages give
   exactly the unpaged answer, whatever the limits; when something does not, nothing is exported.
   */
  method CollectCompleteClaimLineage(lib: Library, claim: Claim, limits: Limits) returns (o: Collected)
    requires limits.Valid()
    ensures Whole(lib, claim.id).Some? ==> o == Verdict(Whole(lib, claim.id).value, claim, limits)
    ensures Whole(lib, claim.id).None? ==> !o.Complete?
  {
    hide Page, Whole, Listed, AllEvidence, AllAssessments;
    var relationPageSize := Min(MAX_PAGE_SIZE, limits.maxRelations);
    var evidencePageSize := Min(MAX_PAGE_SIZE, limits.maxEvidence);
    var page := Inspect(lib, claim.id, 0, relationPageSize, 0, evidencePageSize);
    FirstPage(lib, claim.id, relationPageSize, evidencePageSize);
    if page.None? {
      return LookupFailed;
    }
    var first := page.value;
    if first.claim != claim {
      return Mismatch;
    }
    if first.totalEvidence > limits.maxEvidence || first.totalRelations > limits.maxRelations {
      return OverLimit;
    }
    FirstPageLists(lib, claim, relationPageSize, evidencePageSize);
    var evidence := CollectEvidence(lib, claim, first.evidence, evidencePageSize);
    if evidence.None? {
      return LookupFailed;
    }
    var assessments := CollectAssessments(lib, claim, first.assessments, relationPageSize);
    if assessments.None? {
      return LookupFailed;
    }
    AllResolved(lib, claim);
    if !SameEvidence(evidence.value, claim.evidenceIds) || !NoRepeats(assessments.value) {
      return Mismatch;
    }
    if |assessments.value| != first.totalRelations {
      return Mismatch;
    }
    o := Complete(first.(evidence := evidence.value,
                         assessments := SortBy(ById, assessments.value)));
  }

  lemma {:induction false} AllResolved(lib: Library, claim: Claim)
    requires AllAssessments(lib, claim, lib.relations(claim.id)).Some?
    ensures |AllAssessments(lib, claim, lib.relations(claim.id)).value| == |lib.relations(claim.id)|
  {
    AssessmentsInOrder(lib, claim, lib.relations(claim.id));
  }

  /** The claim's complete lineage, where there is one within the limits. */
  function CompleteLineage(lib: Library, claim: Claim, limits: Limits): Option<Lineage> {
    var whole := Whole(lib, claim.id);
    if whole.Some? &&
       Verdict(whole.value, claim, limits).Complete? then Some(Verdict(whole.value, claim, limits).lineage)
    else None
  }

  ghost predicate StrictlyAscending(assessments: seq<Assessment>) {
    forall i, j :: 0 <= i < j < |assessments| ==> assessments[i].relation.id < assessments[j].relation.id
  }

  function RelationsOf(assessments: seq<Assessment>): seq<Relation> {
    seq(|assessments|, i requires 0 <= i < |assessments| => assessments[i].relation)
  }

  /**
   Main result. A complete lineage lists every evidence of the claim in the claim's order, and every
   stored relation exactly once, ordered by identity; each assessment is the stored one.
   */
  lemma CompleteMeansEverything(lib: Library, claim: Claim, limits: Limits)
    requires CompleteLineage(lib, claim, limits).Some?
    ensures var r := CompleteLineage(lib, claim, limits).value;
            && r.claim == claim
            && |r.evidence| == r.totalEvidence == |claim.evidenceIds| <= limits.maxEvidence
            && (forall i :: 0 <= i < |r.evidence| ==>
                              && r.evidence[i].evidence.id == claim.evidenceIds[i]
                              && EvidenceOf(lib, claim.evidenceIds[i], Some(claim)) == Some(r.evidence[i]))
            && |r.assessments| == r.totalRelations <= limits.maxRelations
            && StrictlyAscending(r.assessments)
            && multiset(RelationsOf(r.assessments)) == multiset(lib.relations(claim.id))
            && (forall a :: a in r.assessments ==> AssessmentOf(lib, claim, a.relation) == Some(a))
  {
    hide RunOf, SourceOf, EvidenceOf, AssessmentOf, AllEvidence, AllAssessments, SortBy;
    var whole := Whole(lib, claim.id).value;
    EvidenceInOrder(lib, claim, claim.evidenceIds);
    AssessmentsInOrder(lib, claim, lib.relations(claim.id));
    SortBySorts(ById, whole.assessments);
    SortBySorts(RelationId, lib.relations(claim.id));
    var r := CompleteLineage(lib, claim, limits).value.assessments;
    assert r == SortBy(ById, whole.assessments);
    assert |r| == |multiset(r)| == |multiset(whole.assessments)| == |whole.assessments|;
    SortedIsStrict(whole.assessments);
    AssessmentsKeepRelations(lib, claim, lib.relations(claim.id), whole.assessments);
    SortMapsRelations(whole.assessments);
    forall a | a in r ensures AssessmentOf(lib, claim, a.relation) == Some(a) {
      assert a in multiset(r);
      var i :| 0 <= i < |whole.assessments| && whole.assessments[i] == a;
      AssessmentNames(lib, claim, lib.relations(claim.id)[i]);
    }
  }

  lemma AssessmentNames(lib: Library, claim: Claim, relation: Relation)
    ensures AssessmentOf(lib, claim, relation).Some? ==> AssessmentOf(lib, claim, relation).value.relation == relation
  {
  }

  lemma AssessmentsKeepRelations(lib: Library, claim: Claim, relations: seq<Relation>, assessments: seq<Assessment>)
    requires |assessments| == |relations|
    requires forall i :: 0 <= i < |relations| ==> AssessmentOf(lib, claim, relations[i]) == Some(assessments[i])
    ensures RelationsOf(assessments) == relations
  {
    hide AssessmentOf;
    forall i | 0 <= i < |relations| ensures assessments[i].relation == relations[i] {
      AssessmentNames(lib, claim, relations[i]);
    }
  }

  /** Sorting assessments that repeat no relation puts them in strict order. */
  lemma {:induction false} SortedIsStrict(s: seq<Assessment>)
    requires NoRepeats(s)
    ensures StrictlyAscending(SortBy(ById, s))
  {
    hide SortBy;
    SortBySorts(ById, s);
    SortKeepsNoRepeats(s);
    var r := SortBy(ById, s);
    forall i, j | 0 <= i < j < |r| ensures r[i].relation.id < r[j].relation.id {
      assert ById(r[i]) <= ById(r[j]);
    }
  }

  lemma {:induction false} SortKeepsNoRepeats(s: seq<Assessment>)
    requires NoRepeats(s)
    ensures NoRepeats(SortBy(ById, s))
  {
    hide Insert;
    if s != [] {
      var front, last := s[..|s| - 1], s[|s| - 1];
      SortKeepsNoRepeats(front);
      SortBySorts(ById, front);
      forall a | a in SortBy(ById, front) ensures a.relation.id != last.relation.id {
        assert a in multiset(SortBy(ById, front));
        assert a in front;
      }
      InsertKeepsNoRepeats(SortBy(ById, front), last);
    }
  }

  lemma {:induction false} InsertKeepsNoRepeats(s: seq<Assessment>, x: Assessment)
    requires NoRepeats(s) && forall a :: a in s ==> a.relation.id != x.relation.id
    ensures NoRepeats(Insert(ById, s, x))
  {
    if s != [] && ById(s[|s| - 1]) > ById(x) {
      var front, last := s[..|s| - 1], s[|s| - 1];
      InsertKeepsNoRepeats(front, x);
      InsertAdds(ById, front, x);
      var r := Insert(ById, front, x);
      forall i | 0 <= i < |r| ensures r[i].relation.id != last.relation.id {
        assert r[i] in multiset(r);
        assert last in s && (r[i] == x || r[i] in multiset(front));
      }
    }
  }

  /** Sorting assessments sorts their relations. */
  lemma {:induction false} SortMapsRelations(s: seq<Assessment>)
    ensures RelationsOf(SortBy(ById, s)) == SortBy(RelationId, RelationsOf(s))
  {
    hide Insert;
    if s != [] {
      SortMapsRelations(s[..|s| - 1]);
      InsertMapsRelations(SortBy(ById, s[..|s| - 1]), s[|s| - 1]);
      assert RelationsOf(s)[..|s| - 1] == RelationsOf(s[..|s| - 1]);
    }
  }

  lemma {:induction false} InsertMapsRelations(s: seq<Assessment>, x: Assessment)
    ensures RelationsOf(Insert(ById, s, x)) == Insert(RelationId, RelationsOf(s), x.relation)
  {
    if s == [] || ById(s[|s| - 1]) <= ById(x) {
      assert RelationsOf(s + [x]) == RelationsOf(s) + [x.relation];
    } else {
      var front, last := s[..|s| - 1], s[|s| - 1];
      InsertMapsRelations(front, x);
      assert RelationsOf(s)[..|s| - 1] == RelationsOf(front);
      assert RelationsOf(Insert(ById, front, x) + [last]) == RelationsOf(Insert(ById, front, x)) + [last.relation];
    }
  }

  datatype Assembled = State(documentId: Id, lineages: seq<Lineage>) | Refused(reason: Collected)

  /** `assemble_document_research_state`: all claims completely, in identity order, or nothing. */
  method AssembleDocumentResearchState(lib: Library, documentId: Id, claims: seq<Claim>, limits: Limits)
    returns (r: Assembled)
    requires limits.Valid()
    ensures r.State? <==>
              && |claims| <= limits.maxClaims
              && forall c :: c in claims ==> c.documentId == documentId && CompleteLineage(lib, c, limits).Some?
    ensures r.State? ==>
              var ordered := SortBy(ClaimId, claims);
              && r.documentId == documentId && |r.lineages| == |ordered| == |claims|
              && forall i :: 0 <= i < |ordered| ==> CompleteLineage(lib, ordered[i], limits) == Some(r.lineages[i])
    ensures |claims| > limits.maxClaims ==> r == Refused(OverLimit)
  {
    hide CompleteLineage, SortBy;
    var ordered := SortBy(ClaimId, claims);
    SortKeepsItems(claims);
    if |ordered| > limits.maxClaims {
      return Refused(OverLimit);
    }
    for i := 0 to |ordered|
      invariant forall j :: 0 <= j < i ==> ordered[j].documentId == documentId
    {
      if ordered[i].documentId != documentId {
        assert ordered[i] in ordered;
        return Refused(Mismatch);
      }
    }
    var lineages := [];
    for i := 0 to |ordered|
      invariant |lineages| == i
      invariant forall j :: 0 <= j < i ==> CompleteLineage(lib, ordered[j], limits) == Some(lineages[j])
    {
      var one := CollectCompleteClaimLineage(lib, ordered[i], limits);
      CompleteIs(lib, ordered[i], limits);
      if !one.Complete? {
        assert ordered[i] in ordered;
        return Refused(one);
      }
      lineages := lineages + [one.lineage];
    }
    forall c | c in claims ensures c.documentId == documentId && CompleteLineage(lib, c, limits).Some? {
      assert c in ordered;
    }
    r := State(documentId, lineages);
  }

  lemma {:induction false} SortKeepsItems(claims: seq<Claim>)
    ensures var ordered := SortBy(ClaimId, claims);
            |ordered| == |claims| && forall c :: c in claims <==> c in ordered
  {
    hide SortBy;
    var ordered := SortBy(ClaimId, claims);
    SortBySorts(ClaimId, claims);
    assert |ordered| == |multiset(ordered)| == |multiset(claims)| == |claims|;
    assert forall c :: c in claims <==> c in multiset(claims);
    assert forall c :: c in ordered <==> c in multiset(ordered);
  }

  lemma CompleteIs(lib: Library, claim: Claim, limits: Limits)
    ensures var whole := Whole(lib, claim.id);
            if whole.Some? then
              var verdict := Verdict(whole.value, claim, limits);
              CompleteLineage(lib, claim, limits) == if verdict.Complete? then Some(verdict.lineage) else None
            else CompleteLineage(lib, claim, limits).None?
  {
  }
}
