/**
 * The course page: the students list and the document sections built from
 * the curriculum nuclei. The nuclei are split into two semesters at the
 * rounded-up midpoint; each nucleus becomes a topic whose status comes from
 * the first coordination document of the user's area that covers it.
 */
module Course {
  import opened Wrappers
  import opened Sequences

  datatype Nucleus = Nucleus(id: nat, name: string)

  datatype KnowledgeArea = KnowledgeArea(id: nat, nucleusId: nat)

  datatype CategoryRef = CategoryRef(id: nat, knowledgeAreaId: nat)

  datatype Area = Area(id: nat)

  datatype Student = Student(id: nat, name: string)

  /** A document's status; any status but `published` behaves as a draft here. */
  datatype DocStatus = Draft | Published

  /** A coordination document as listed by the remote store; absent `nucleus_ids` are the empty list. */
  datatype AreaDocument = AreaDocument(id: nat, areaId: nat, nucleusIds: seq<nat>, status: DocStatus)

  datatype TopicStatus = Pending | InProgress | Completed

  datatype Topic = Topic(id: nat, name: string, status: TopicStatus, categoriesCount: nat, documentId: Option<nat>)

  datatype Section = Section(id: nat, name: string, topics: seq<Topic>)

  const FirstSemesterName: string := "Primer cuatrimestre"
  const SecondSemesterName: string := "Segundo cuatrimestre"

  // ----------------------------------------------------------------------
  // The semester split

  /** `Math.ceil(n / 2)`. */
  function Midpoint(n: nat): (m: nat)
    ensures n <= 2 * m <= n + 1
  {
    (n + 1) / 2
  }

  /** `nuclei.slice(0, midpoint)` and `nuclei.slice(midpoint)`. */
  function SplitNuclei(nuclei: seq<Nucleus>): (halves: (seq<Nucleus>, seq<Nucleus>))
    ensures |halves.0| == Midpoint(|nuclei|) && |halves.1| == |nuclei| - Midpoint(|nuclei|)
    ensures halves.0 + halves.1 == nuclei
    ensures |halves.1| <= |halves.0| <= |halves.1| + 1
  {
    var mid := Midpoint(|nuclei|);
    assert nuclei[..mid] + nuclei[mid..] == nuclei;
    (nuclei[..mid], nuclei[mid..])
  }

  // ----------------------------------------------------------------------
  // Topics

  /** `areaDocs`: the documents of the user's area; none without a user area. */
  function AreaDocs(allDocs: seq<AreaDocument>, userArea: Option<Area>): (r: seq<AreaDocument>)
    ensures userArea.None? ==> r == []
    ensures forall i :: 0 <= i < |r| ==> userArea.Some? && r[i] in allDocs && r[i].areaId == userArea.value.id
  {
    if userArea.Some? then Filter(allDocs, (d: AreaDocument) => d.areaId == userArea.value.id) else []
  }

  /** Exactly the documents of the user's area are kept, in order and with their multiplicity. */
  lemma AreaDocsMeaning(allDocs: seq<AreaDocument>, userArea: Option<Area>, d: AreaDocument)
    ensures userArea.None? ==> AreaDocs(allDocs, userArea) == []
    ensures multiset(AreaDocs(allDocs, userArea))[d]
         == if userArea.Some? && d.areaId == userArea.value.id then multiset(allDocs)[d] else 0
  {
    if userArea.Some? {
      FilterMultiplicity(allDocs, (e: AreaDocument) => e.areaId == userArea.value.id, d);
    }
  }

  /** `areaDocs.find(doc => doc.nucleus_ids && doc.nucleus_ids.includes(nucleus.id))`. */
  function NucleusDocument(areaDocs: seq<AreaDocument>, nucleusId: nat): (r: Option<AreaDocument>)
    ensures r.None? <==> forall i :: 0 <= i < |areaDocs| ==> nucleusId !in areaDocs[i].nucleusIds
    ensures r.Some? ==> r.value in areaDocs && nucleusId in r.value.nucleusIds
  {
    Find(areaDocs, (d: AreaDocument) => nucleusId in d.nucleusIds)
  }

  /** The number of categories whose knowledge area belongs to the nucleus. */
  function CategoriesCount(nucleusId: nat, knowledgeAreas: seq<KnowledgeArea>, categories: seq<CategoryRef>): (r: nat)
    ensures r <= |categories|
  {
    var areas := Filter(knowledgeAreas, (ka: KnowledgeArea) => ka.nucleusId == nucleusId);
    |Filter(categories, (c: CategoryRef) => Any(areas, (ka: KnowledgeArea) => ka.id == c.knowledgeAreaId))|
  }

  /** A category counts for a nucleus when some knowledge area of that nucleus is the category's area. */
  predicate BelongsTo(c: CategoryRef, nucleusId: nat, knowledgeAreas: seq<KnowledgeArea>) {
    exists i :: 0 <= i < |knowledgeAreas| && knowledgeAreas[i].nucleusId == nucleusId && knowledgeAreas[i].id == c.knowledgeAreaId
  }

  /** The test `categoriesCount` applies to one category is `BelongsTo`. */
  lemma CountedIffBelongs(c: CategoryRef, nucleusId: nat, knowledgeAreas: seq<KnowledgeArea>)
    ensures Any(Filter(knowledgeAreas, (ka: KnowledgeArea) => ka.nucleusId == nucleusId),
                (ka: KnowledgeArea) => ka.id == c.knowledgeAreaId)
         == BelongsTo(c, nucleusId, knowledgeAreas)
  {
    var areas := Filter(knowledgeAreas, (ka: KnowledgeArea) => ka.nucleusId == nucleusId);
    AnyIff(areas, (ka: KnowledgeArea) => ka.id == c.knowledgeAreaId);
    if BelongsTo(c, nucleusId, knowledgeAreas) {
      var i :| 0 <= i < |knowledgeAreas| && knowledgeAreas[i].nucleusId == nucleusId && knowledgeAreas[i].id == c.knowledgeAreaId;
      var j :| 0 <= j < |areas| && areas[j] == knowledgeAreas[i];
    }
    if Any(areas, (ka: KnowledgeArea) => ka.id == c.knowledgeAreaId) {
      var j :| 0 <= j < |areas| && areas[j].id == c.knowledgeAreaId;
      var i :| 0 <= i < |knowledgeAreas| && knowledgeAreas[i] == areas[j];
    }
  }

  /**
   * The count is the number of entries of `categories` (with repetitions)
   * that belong to the nucleus; it is 0 when none does and all of them when
   * all do.
   */
  lemma CategoriesCountMeaning(nucleusId: nat, knowledgeAreas: seq<KnowledgeArea>, categories: seq<CategoryRef>)
    ensures CategoriesCount(nucleusId, knowledgeAreas, categories)
         == |Filter(categories, (c: CategoryRef) => BelongsTo(c, nucleusId, knowledgeAreas))|
    ensures (forall i :: 0 <= i < |categories| ==> !BelongsTo(categories[i], nucleusId, knowledgeAreas)) ==>
              CategoriesCount(nucleusId, knowledgeAreas, categories) == 0
    ensures (forall i :: 0 <= i < |categories| ==> BelongsTo(categories[i], nucleusId, knowledgeAreas)) ==>
              CategoriesCount(nucleusId, knowledgeAreas, categories) == |categories|
  {
    var areas := Filter(knowledgeAreas, (ka: KnowledgeArea) => ka.nucleusId == nucleusId);
    var counted := (c: CategoryRef) => Any(areas, (ka: KnowledgeArea) => ka.id == c.knowledgeAreaId);
    var belongs := (c: CategoryRef) => BelongsTo(c, nucleusId, knowledgeAreas);
    forall c: CategoryRef ensures counted(c) == belongs(c) {
      CountedIffBelongs(c, nucleusId, knowledgeAreas);
    }
    FilterSamePredicate(categories, counted, belongs);
    if forall i :: 0 <= i < |categories| ==> !belongs(categories[i]) {
      FilterDropsAll(categories, belongs);
    }
    if forall i :: 0 <= i < |categories| ==> belongs(categories[i]) {
      FilterKeepsAll(categories, belongs);
    }
  }

  /** The status a covering document gives a topic. */
  function StatusOf(doc: Option<AreaDocument>): TopicStatus {
    match doc
    case None => Pending
    case Some(d) => if d.status == Published then Completed else InProgress
  }

  /** The topic `buildTopics` makes for one nucleus. */
  function BuildTopic(nucleus: Nucleus, knowledgeAreas: seq<KnowledgeArea>, categories: seq<CategoryRef>,
                      areaDocs: seq<AreaDocument>): (r: Topic)
    ensures r.id == nucleus.id && r.name == nucleus.name
    ensures r.status == Pending <==> r.documentId.None?
    ensures r.categoriesCount <= |categories|
  {
    var doc := NucleusDocument(areaDocs, nucleus.id);
    Topic(nucleus.id, nucleus.name, StatusOf(doc), CategoriesCount(nucleus.id, knowledgeAreas, categories),
          if doc.Some? then Some(doc.value.id) else None)
  }

  /**
   * A topic is pending when no area document covers its nucleus; otherwise
   * the first covering document decides: completed when it is published, in
   * progress when not, and the topic links to it.
   */
  lemma TopicStatusMeaning(nucleus: Nucleus, knowledgeAreas: seq<KnowledgeArea>, categories: seq<CategoryRef>,
                           areaDocs: seq<AreaDocument>)
    ensures var t := BuildTopic(nucleus, knowledgeAreas, categories, areaDocs);
            && t.id == nucleus.id && t.name == nucleus.name
            && (t.status == Pending <==> forall i :: 0 <= i < |areaDocs| ==> nucleus.id !in areaDocs[i].nucleusIds)
            && (t.status == Pending <==> t.documentId.None?)
            && forall i :: 0 <= i < |areaDocs| && nucleus.id in areaDocs[i].nucleusIds
                           && (forall j :: 0 <= j < i ==> nucleus.id !in areaDocs[j].nucleusIds) ==>
                 && t.documentId == Some(areaDocs[i].id)
                 && (t.status == Completed <==> areaDocs[i].status == Published)
                 && (t.status == InProgress <==> areaDocs[i].status != Published)
  {
    forall i | 0 <= i < |areaDocs| && nucleus.id in areaDocs[i].nucleusIds
                && (forall j :: 0 <= j < i ==> nucleus.id !in areaDocs[j].nucleusIds)
      ensures NucleusDocument(areaDocs, nucleus.id) == Some(areaDocs[i])
    {
      FindFirst(areaDocs, (d: AreaDocument) => nucleus.id in d.nucleusIds, i);
    }
  }

  /** `buildTopics(nucleiList)`: one topic per nucleus, in order. */
  function BuildTopics(nuclei: seq<Nucleus>, knowledgeAreas: seq<KnowledgeArea>, categories: seq<CategoryRef>,
                       areaDocs: seq<AreaDocument>): (r: seq<Topic>)
    ensures |r| == |nuclei|
    ensures forall k :: 0 <= k < |r| ==> r[k].id == nuclei[k].id && r[k].name == nuclei[k].name
  {
    seq(|nuclei|, k requires 0 <= k < |nuclei| => BuildTopic(nuclei[k], knowledgeAreas, categories, areaDocs))
  }

  /** Building topics for two lists is building them for their concatenation. */
  lemma BuildTopicsAppend(a: seq<Nucleus>, b: seq<Nucleus>, knowledgeAreas: seq<KnowledgeArea>,
                          categories: seq<CategoryRef>, areaDocs: seq<AreaDocument>)
    ensures BuildTopics(a + b, knowledgeAreas, categories, areaDocs)
         == BuildTopics(a, knowledgeAreas, categories, areaDocs) + BuildTopics(b, knowledgeAreas, categories, areaDocs)
  {
  }

  // ----------------------------------------------------------------------
  // Sections

  /** The sections `loadCourseData` assembles: one per non-empty semester, ids 1 then 2. */
  function Sections(nuclei: seq<Nucleus>, knowledgeAreas: seq<KnowledgeArea>, categories: seq<CategoryRef>,
                    areaDocs: seq<AreaDocument>): (r: seq<Section>)
    ensures |r| <= 2
    ensures forall i :: 0 <= i < |r| ==> r[i].topics != []
  {
    var (first, second) := SplitNuclei(nuclei);
    (if |first| > 0 then [Section(1, FirstSemesterName, BuildTopics(first, knowledgeAreas, categories, areaDocs))] else [])
    + (if |second| > 0 then [Section(2, SecondSemesterName, BuildTopics(second, knowledgeAreas, categories, areaDocs))] else [])
  }

  function AllTopics(sections: seq<Section>): seq<Topic> {
    if sections == [] then [] else sections[0].topics + AllTopics(sections[1..])
  }

  /**
   * No nuclei give no section, one nucleus gives exactly one section (id 1),
   * more give two (ids 1 and 2); across the sections every nucleus appears
   * exactly once, in order, as its topic.
   */
  lemma SectionsShape(nuclei: seq<Nucleus>, knowledgeAreas: seq<KnowledgeArea>, categories: seq<CategoryRef>,
                      areaDocs: seq<AreaDocument>)
    ensures var s := Sections(nuclei, knowledgeAreas, categories, areaDocs);
            && |s| == (if |nuclei| == 0 then 0 else if |nuclei| == 1 then 1 else 2)
            && (|s| >= 1 ==> s[0].id == 1 && s[0].name == FirstSemesterName)
            && (|s| == 2 ==> s[1].id == 2 && s[1].name == SecondSemesterName)
            && (|s| >= 1 ==> s[0].topics == BuildTopics(nuclei[..Midpoint(|nuclei|)], knowledgeAreas, categories, areaDocs))
            && (|s| == 2 ==> s[1].topics == BuildTopics(nuclei[Midpoint(|nuclei|)..], knowledgeAreas, categories, areaDocs))
            && AllTopics(s) == BuildTopics(nuclei, knowledgeAreas, categories, areaDocs)
  {
    var (first, second) := SplitNuclei(nuclei);
    var s := Sections(nuclei, knowledgeAreas, categories, areaDocs);
    BuildTopicsAppend(first, second, knowledgeAreas, categories, areaDocs);
    if |s| == 2 {
      assert s[1..][1..] == [];
      assert AllTopics(s[1..]) == s[1].topics + AllTopics(s[1..][1..]);
    } else if |s| == 1 {
      assert second == [];
      assert first == nuclei;
      assert AllTopics(s) == s[0].topics + [];
    }
  }

  // ----------------------------------------------------------------------
  // The page

  class CoursePage {
    var students: seq<Student>
    var documentSections: seq<Section>
    var isLoading: bool

    constructor ()
      ensures students == [] && documentSections == [] && isLoading
    {
      students := [];
      documentSections := [];
      isLoading := true;
    }

    /**
     * `loadCourseData`, run to completion: the students call yields
     * `studentsFetched` and the documents call `docsFetched` (`None` for a
     * failed call, which ends the run). The sections are replaced only when
     * both calls succeed, a user area exists and there are nuclei.
     */
    method LoadCourseData(studentsFetched: Option<seq<Student>>, docsFetched: Option<seq<AreaDocument>>,
                          userArea: Option<Area>, nuclei: seq<Nucleus>,
                          knowledgeAreas: seq<KnowledgeArea>, categories: seq<CategoryRef>)
      modifies this
      ensures !isLoading
      ensures students == if studentsFetched.Some? then studentsFetched.value else old(students)
      ensures documentSections ==
                if studentsFetched.Some? && docsFetched.Some? && userArea.Some? && |nuclei| > 0
                then Sections(nuclei, knowledgeAreas, categories, AreaDocs(docsFetched.value, userArea))
                else old(documentSections)
    {
      isLoading := true;
      if studentsFetched.Some? {
        students := studentsFetched.value;
        if docsFetched.Some? {
          var areaDocs := AreaDocs(docsFetched.value, userArea);
          if userArea.Some? && |nuclei| > 0 {
            var midpoint := Midpoint(|nuclei|);
            var firstSemester := nuclei[..midpoint];
            var secondSemester := nuclei[midpoint..];
            var sections: seq<Section> := [];
            if |firstSemester| > 0 {
              sections := sections + [Section(1, FirstSemesterName, BuildTopics(firstSemester, knowledgeAreas, categories, areaDocs))];
            }
            if |secondSemester| > 0 {
              sections := sections + [Section(2, SecondSemesterName, BuildTopics(secondSemester, knowledgeAreas, categories, areaDocs))];
            }
            documentSections := sections;
          }
        }
      }
      isLoading := false;
    }
  }
}
