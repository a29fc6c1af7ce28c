/**
 * The coordination-document page: the open document, the projections the
 * page derives from it (category names, unassigned categories, whether the
 * strategy text is present, class-card labels) and the three handlers that
 * change the session state (send a chat message, generate content, save the
 * title).
 *
 * Optional fields the page reads with `?.` and `|| []` are modelled as
 * always present, an absent list or text being the empty one: every
 * modelled expression treats the two alike.
 */
module CoordinationDocument {
  import opened Wrappers
  import opened Strings
  import opened Catalog
  import opened Chat
  import opened Sequences

  datatype Status = Draft | Published

  datatype ClassEntry = ClassEntry(classNumber: nat, title: string, date: string, categoryIds: seq<nat>)

  datatype SubjectData = SubjectData(classPlan: seq<ClassEntry>)

  datatype Subject = Subject(id: nat, name: string)

  datatype Content = Content(
    methodologicalStrategies: string,
    categoryIds: seq<nat>,
    categories: seq<Named>,
    subjects: seq<Subject>,
    subjectsData: map<nat, SubjectData>)

  datatype Document = Document(
    id: nat,
    name: string,
    status: Status,
    startDate: string,
    endDate: string,
    content: Content)

  // ----------------------------------------------------------------------
  // Category names

  /** The record `categoryMap` after the `forEach` over the embedded categories. */
  function CategoryMap(categories: seq<Named>): map<nat, string> {
    if categories == [] then map[]
    else
      var last := categories[|categories| - 1];
      CategoryMap(categories[..|categories| - 1])[last.id := last.name]
  }

  /** Every embedded category id, and nothing else, is a key of the map. */
  lemma {:induction false} CategoryMapKeys(categories: seq<Named>, id: nat)
    ensures id in CategoryMap(categories) <==> exists i :: 0 <= i < |categories| && categories[i].id == id
  {
    if categories != [] {
      var init := categories[..|categories| - 1];
      CategoryMapKeys(init, id);
      if exists i :: 0 <= i < |init| && init[i].id == id {
        var i :| 0 <= i < |init| && init[i].id == id;
        assert categories[i].id == id;
      }
      if exists i :: 0 <= i < |categories| && categories[i].id == id {
        var i :| 0 <= i < |categories| && categories[i].id == id;
        if i < |init| {
          assert init[i].id == id;
        }
      }
    }
  }

  /** When an id repeats, the name of its last occurrence wins. */
  lemma {:induction false} CategoryMapLastWins(categories: seq<Named>, i: nat)
    requires i < |categories|
    requires forall j :: i < j < |categories| ==> categories[j].id != categories[i].id
    ensures categories[i].id in CategoryMap(categories)
    ensures CategoryMap(categories)[categories[i].id] == categories[i].name
  {
    var n := |categories|;
    if i < n - 1 {
      var init := categories[..n - 1];
      CategoryMapLastWins(init, i);
    }
  }

  /** The `forEach` loop that fills `categoryMap`. */
  method BuildCategoryMap(categories: seq<Named>) returns (m: map<nat, string>)
    ensures m == CategoryMap(categories)
  {
    m := map[];
    for i := 0 to |categories|
      invariant m == CategoryMap(categories[..i])
    {
      assert categories[..i + 1][..i] == categories[..i];
      m := m[categories[i].id := categories[i].name];
    }
    assert categories[..|categories|] == categories;
  }

  // ----------------------------------------------------------------------
  // Assigned and unassigned categories

  /** The category ids of the class entries of one class plan. */
  function PlanCategoryIds(plan: seq<ClassEntry>): set<nat> {
    set c, id | c in plan && id in c.categoryIds :: id
  }

  /** The category ids of every class entry of the subjects whose key is in `keys`. */
  function CategoryIdsOf(subjectsData: map<nat, SubjectData>, keys: set<nat>): set<nat> {
    set k, c, id | k in subjectsData && k in keys && c in subjectsData[k].classPlan && id in c.categoryIds :: id
  }

  /** The set `assignedCategoryIds`: ids that some class entry of some subject carries. */
  function AssignedCategoryIds(subjectsData: map<nat, SubjectData>): set<nat> {
    CategoryIdsOf(subjectsData, subjectsData.Keys)
  }

  /** Some class entry of some subject carries `id`. */
  predicate IsAssigned(subjectsData: map<nat, SubjectData>, id: nat) {
    exists k, c :: k in subjectsData && c in subjectsData[k].classPlan && id in c.categoryIds
  }

  lemma AssignedCategoryIdsMeaning(subjectsData: map<nat, SubjectData>, id: nat)
    ensures id in AssignedCategoryIds(subjectsData) <==> IsAssigned(subjectsData, id)
  {
  }

  lemma PlanCategoryIdsSnoc(plan: seq<ClassEntry>, i: nat)
    requires i < |plan|
    ensures PlanCategoryIds(plan[..i + 1]) == PlanCategoryIds(plan[..i]) + set id | id in plan[i].categoryIds
  {
    assert plan[..i + 1] == plan[..i] + [plan[i]];
  }

  lemma CategoryIdsOfAddKey(subjectsData: map<nat, SubjectData>, keys: set<nat>, k: nat)
    requires k in subjectsData
    ensures CategoryIdsOf(subjectsData, keys + {k})
         == CategoryIdsOf(subjectsData, keys) + PlanCategoryIds(subjectsData[k].classPlan)
  {
  }

  /** The nested `forEach` loops over `Object.values(subjectsData)` that fill `assignedCategoryIds`. */
  method CollectAssignedCategoryIds(subjectsData: map<nat, SubjectData>) returns (assignedIds: set<nat>)
    ensures assignedIds == AssignedCategoryIds(subjectsData)
  {
    assignedIds := {};
    var pending := subjectsData.Keys;
    while pending != {}
      invariant pending <= subjectsData.Keys
      invariant assignedIds == CategoryIdsOf(subjectsData, subjectsData.Keys - pending)
      decreases pending
    {
      var k :| k in pending;
      var plan := subjectsData[k].classPlan;
      ghost var before := assignedIds;
      for i := 0 to |plan|
        invariant assignedIds == before + PlanCategoryIds(plan[..i])
      {
        var ids := plan[i].categoryIds;
        ghost var atEntry := assignedIds;
        for j := 0 to |ids|
          invariant assignedIds == atEntry + set id | id in ids[..j]
        {
          assert ids[..j + 1] == ids[..j] + [ids[j]];
          assignedIds := assignedIds + {ids[j]};
        }
        assert ids[..|ids|] == ids;
        PlanCategoryIdsSnoc(plan, i);
      }
      assert plan[..|plan|] == plan;
      CategoryIdsOfAddKey(subjectsData, subjectsData.Keys - pending, k);
      assert subjectsData.Keys - (pending - {k}) == (subjectsData.Keys - pending) + {k};
      pending := pending - {k};
    }
  }

  /** `documentCategoryIds.filter(id => !assignedCategoryIds.has(id))`. */
  function UnassignedIds(ids: seq<nat>, assignedIds: set<nat>): (r: seq<nat>)
    ensures forall i :: 0 <= i < |r| ==> r[i] in ids && r[i] !in assignedIds
    ensures forall i :: 0 <= i < |ids| && ids[i] !in assignedIds ==> ids[i] in r
  {
    Filter(ids, id => id !in assignedIds)
  }

  datatype CategoryWarning = CategoryWarning(id: nat, name: string)

  const UnassignedPrefix: string := "Categoría "

  /**
   * `unassignedCategories`: the document's category ids that no class entry
   * carries, each with its name from `categoryMap` or `Categoría {id}`.
   */
  function UnassignedCategories(doc: Document): (r: seq<CategoryWarning>)
    ensures |r| <= |doc.content.categoryIds|
    ensures forall k :: 0 <= k < |r| ==>
              && r[k].id in doc.content.categoryIds
              && !IsAssigned(doc.content.subjectsData, r[k].id)
              && r[k].name == LabelOr(CategoryMap(doc.content.categories), r[k].id, UnassignedPrefix)
  {
    var ids := UnassignedIds(doc.content.categoryIds, AssignedCategoryIds(doc.content.subjectsData));
    var names := CategoryMap(doc.content.categories);
    seq(|ids|, k requires 0 <= k < |ids| => CategoryWarning(ids[k], LabelOr(names, ids[k], UnassignedPrefix)))
  }

  function WarningIds(warnings: seq<CategoryWarning>): seq<nat> {
    seq(|warnings|, k requires 0 <= k < |warnings| => warnings[k].id)
  }

  lemma WarningIdsOfUnassigned(doc: Document)
    ensures WarningIds(UnassignedCategories(doc))
         == UnassignedIds(doc.content.categoryIds, AssignedCategoryIds(doc.content.subjectsData))
  {
  }

  /** An id is reported exactly as often as the document lists it, unless some class entry carries it. */
  lemma UnassignedCategoriesExactly(doc: Document, x: nat)
    ensures multiset(WarningIds(UnassignedCategories(doc)))[x]
         == if IsAssigned(doc.content.subjectsData, x) then 0 else multiset(doc.content.categoryIds)[x]
  {
    WarningIdsOfUnassigned(doc);
    FilterMultiplicity(doc.content.categoryIds, id => id !in AssignedCategoryIds(doc.content.subjectsData), x);
  }

  /** A document whose subjects have no class entries reports all of its category ids. */
  lemma UnassignedWithoutClasses(doc: Document)
    requires forall k :: k in doc.content.subjectsData ==> doc.content.subjectsData[k].classPlan == []
    ensures WarningIds(UnassignedCategories(doc)) == doc.content.categoryIds
  {
    WarningIdsOfUnassigned(doc);
    FilterKeepsAll(doc.content.categoryIds, id => id !in AssignedCategoryIds(doc.content.subjectsData));
  }

  /** A document whose class entries cover all of its category ids reports none. */
  lemma UnassignedWhenCovered(doc: Document)
    requires forall k :: 0 <= k < |doc.content.categoryIds| ==> IsAssigned(doc.content.subjectsData, doc.content.categoryIds[k])
    ensures UnassignedCategories(doc) == []
  {
    FilterDropsAll(doc.content.categoryIds, id => id !in AssignedCategoryIds(doc.content.subjectsData));
  }

  // ----------------------------------------------------------------------
  // Content present, class cards

  /** `hasContent`: the methodological strategies are non-empty after trimming. */
  predicate HasContent(doc: Document) {
    !IsBlank(doc.content.methodologicalStrategies)
  }

  lemma HasContentIff(doc: Document)
    ensures HasContent(doc) <==> exists i :: 0 <= i < |doc.content.methodologicalStrategies|
                                            && !IsWhitespace(doc.content.methodologicalStrategies[i])
  {
    BlankIffAllWhitespace(doc.content.methodologicalStrategies);
  }

  const UntitledText: string := "Sin título"
  const CardPrefix: string := "Cat "

  /** The title on a class card: `c.title || 'Sin título'`. */
  function ClassTitle(c: ClassEntry): (r: string)
    ensures r != []
    ensures r == c.title || (c.title == [] && r == UntitledText)
  {
    if c.title != [] then c.title else UntitledText
  }

  /** The category chips on a class card: one per id, in order, named or `Cat {id}`. */
  function ClassCategoryLabels(names: map<nat, string>, c: ClassEntry): (r: seq<string>)
    ensures |r| == |c.categoryIds|
    ensures forall k :: 0 <= k < |r| ==> r[k] == LabelOr(names, c.categoryIds[k], CardPrefix)
  {
    seq(|c.categoryIds|, k requires 0 <= k < |c.categoryIds| => LabelOr(names, c.categoryIds[k], CardPrefix))
  }

  // ----------------------------------------------------------------------
  // The page session

  /** The remote calls the page's handlers issue. */
  datatype Request =
    | ChatCall(endpoint: string, body: ChatRequest)
    | GenerateCall(endpoint: string)
    | UpdateName(documentId: nat, name: string)

  function Endpoint(docId: nat, action: string): string {
    "/coordination-documents/" + NatToString(docId) + "/" + action
  }

  /**
   * The state the page works on: the route's document id, the store's
   * current document, chat history and busy flag, and the page's chat input.
   */
  class DocumentPage {
    var docId: nat
    var currentDocument: Option<Document>
    var chatHistory: seq<ChatMessage>
    var isGenerating: bool
    var chatInput: string

    constructor (docId: nat)
      ensures this.docId == docId && currentDocument == None
      ensures chatHistory == [] && !isGenerating && chatInput == []
    {
      this.docId := docId;
      currentDocument := None;
      chatHistory := [];
      isGenerating := false;
      chatInput := [];
    }

    /**
     * The route changes to `newDocId`: the effect's cleanup clears the chat
     * history, then `loadDocument` stores the fetched document; a failed
     * fetch leaves the previous document in place. The effect runs only
     * when the id changes, so a call with the current id stands for the
     * first mount's load, not for a re-render on the same route.
     */
    method Navigate(newDocId: nat, fetched: Option<Document>)
      modifies this
      ensures docId == newDocId && chatHistory == []
      ensures currentDocument == if fetched.Some? then fetched else old(currentDocument)
      ensures isGenerating == old(isGenerating) && chatInput == old(chatInput)
    {
      chatHistory := [];
      docId := newDocId;
      if fetched.Some? {
        currentDocument := fetched;
      }
    }

    /** The chat input's `onChange`. */
    method SetChatInput(text: string)
      modifies this`chatInput
      ensures chatInput == text
    {
      chatInput := text;
    }

    /** `handleSendMessage`, run to completion with the chat call settling to `reply`. */
    method SendMessage(reply: Reply<Document>) returns (calls: seq<Call<Request>>)
      modifies this
      ensures !CanSend(old(chatInput), old(currentDocument).Some?) ==>
                calls == [] && unchanged(this)
      ensures CanSend(old(chatInput), old(currentDocument).Some?) ==>
                && calls == [Call(ChatCall(Endpoint(docId, "chat"), ChatRequest(old(chatInput), old(chatHistory))), true)]
                && chatHistory == old(chatHistory) + [ChatMessage(User, old(chatInput)), AssistantMessage(reply)]
                && chatInput == [] && !isGenerating
                && currentDocument == (if reply.Replied? && reply.updated.Some? then reply.updated else old(currentDocument))
      ensures docId == old(docId)
      ensures Alternating(old(chatHistory)) ==> Alternating(chatHistory)
    {
      if !CanSend(chatInput, currentDocument.Some?) {
        return [];
      }
      var message := chatInput;
      var history := chatHistory;
      chatHistory := chatHistory + [ChatMessage(User, message)];
      chatInput := [];
      isGenerating := true;
      calls := [Call(ChatCall(Endpoint(docId, "chat"), ChatRequest(message, history)), isGenerating)];
      chatHistory := chatHistory + [AssistantMessage(reply)];
      if reply.Replied? && reply.updated.Some? {
        currentDocument := reply.updated;
      }
      isGenerating := false;
      assert chatHistory == history + [ChatMessage(User, message), AssistantMessage(reply)];
      if Alternating(history) {
        AlternatingAppendPair(history, ChatMessage(User, message), AssistantMessage(reply));
      }
    }

    /** `handleGenerateContent`, run to completion with the generate call settling to `reply`. */
    method GenerateContent(reply: Reply<Document>) returns (calls: seq<Call<Request>>)
      modifies this
      ensures old(currentDocument).None? ==> calls == [] && unchanged(this)
      ensures old(currentDocument).Some? ==>
                && calls == [Call(GenerateCall(Endpoint(docId, "generate")), true)]
                && !isGenerating
                && currentDocument == (if reply.Replied? && reply.updated.Some? then reply.updated else old(currentDocument))
      ensures docId == old(docId) && chatHistory == old(chatHistory) && chatInput == old(chatInput)
    {
      if currentDocument.None? {
        return [];
      }
      isGenerating := true;
      calls := [Call(GenerateCall(Endpoint(docId, "generate")), isGenerating)];
      if reply.Replied? && reply.updated.Some? {
        currentDocument := reply.updated;
      }
      isGenerating := false;
    }

    /**
     * `handleSaveTitle`, with the update call succeeding when `saved`: only
     * the open document's name changes, and only locally after a success.
     */
    method SaveTitle(newTitle: string, saved: bool) returns (calls: seq<Call<Request>>)
      modifies this`currentDocument
      ensures old(currentDocument).None? || newTitle == old(currentDocument).value.name ==>
                calls == [] && currentDocument == old(currentDocument)
      ensures old(currentDocument).Some? && newTitle != old(currentDocument).value.name ==>
                && calls == [Call(UpdateName(docId, newTitle), isGenerating)]
                && currentDocument.Some?
                && currentDocument.value == (if saved then old(currentDocument).value.(name := newTitle)
                                             else old(currentDocument).value)
    {
      if currentDocument.None? || newTitle == currentDocument.value.name {
        return [];
      }
      calls := [Call(UpdateName(docId, newTitle), isGenerating)];
      if saved {
        currentDocument := Some(currentDocument.value.(name := newTitle));
      }
    }
  }

}
