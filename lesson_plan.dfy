/**
 * The teacher lesson-plan page: a plan with three fixed moments, the
 * predicate that decides whether their content must still be generated, the
 * orchestrator that generates the three moments one after the other and
 * reloads the plan, the chat handler, and the name lookups the page shows.
 */
module LessonPlan {
  import opened Wrappers
  import opened Strings
  import opened Catalog
  import opened Chat
  import opened Sequences

  datatype Moment = Apertura | Desarrollo | Cierre

  /** The order in which the moments are generated (and listed). */
  const MomentOrder: seq<Moment> := [Apertura, Desarrollo, Cierre]

  /** The `moment_type` sent for a moment and its key in `moments`. */
  function MomentKey(m: Moment): string {
    match m
    case Apertura => "apertura"
    case Desarrollo => "desarrollo"
    case Cierre => "cierre"
  }

  datatype MomentData = MomentData(activities: seq<nat>, generatedContent: string)

  /**
   * A lesson plan; a moment absent from `moments` is one the plan does not
   * have yet, and absent activities or text are the empty ones.
   */
  datatype Plan = Plan(id: nat, courseSubjectId: nat, categoryIds: seq<nat>, moments: map<Moment, MomentData>)

  // ----------------------------------------------------------------------
  // Whether generation is needed

  /** A moment without content: missing, or its generated text blank. */
  predicate MomentEmpty(plan: Plan, m: Moment) {
    m !in plan.moments || IsBlank(plan.moments[m].generatedContent)
  }

  /** `needsGeneration`: `.some` over the three moments. */
  predicate NeedsGeneration(plan: Plan) {
    Any(MomentOrder, m => MomentEmpty(plan, m))
  }

  /** A moment is empty exactly when it is missing or its text is nothing but white space. */
  lemma MomentEmptyIff(plan: Plan, m: Moment)
    ensures MomentEmpty(plan, m) <==>
              m !in plan.moments
              || forall i :: 0 <= i < |plan.moments[m].generatedContent| ==> IsWhitespace(plan.moments[m].generatedContent[i])
  {
    if m in plan.moments {
      BlankIffAllWhitespace(plan.moments[m].generatedContent);
    }
  }

  /** Generation is needed exactly when at least one of the three moments is empty. */
  lemma NeedsGenerationIff(plan: Plan)
    ensures NeedsGeneration(plan) <==>
              MomentEmpty(plan, Apertura) || MomentEmpty(plan, Desarrollo) || MomentEmpty(plan, Cierre)
  {
    AnyIff(MomentOrder, m => MomentEmpty(plan, m));
    assert MomentOrder[0] == Apertura && MomentOrder[1] == Desarrollo && MomentOrder[2] == Cierre;
  }

  // ----------------------------------------------------------------------
  // The generation run

  /** The remote calls the page's handlers issue. */
  datatype Request =
    /** `POST generate-moment`, the body carrying `moment_type`. */
    | GenerateMoment(endpoint: string, momentType: string)
    | ReloadPlan(planId: nat)
    | ChatCall(endpoint: string, body: ChatRequest)

  function Endpoint(planId: nat, action: string): string {
    "/teacher-lesson-plans/" + NatToString(planId) + "/" + action
  }

  const AlertText: string := "Error al generar contenido con IA"

  /**
   * The position of the first moment whose request fails when each moment's
   * request succeeds as `succeeds` says; `|ms|` when none fails.
   */
  function FirstFailure(ms: seq<Moment>, succeeds: Moment -> bool): (f: nat)
    ensures f <= |ms|
    ensures forall j :: 0 <= j < f ==> succeeds(ms[j])
    ensures f < |ms| ==> !succeeds(ms[f])
  {
    if ms == [] || !succeeds(ms[0]) then 0 else 1 + FirstFailure(ms[1..], succeeds)
  }

  predicate AllMomentsSucceed(succeeds: Moment -> bool) {
    FirstFailure(MomentOrder, succeeds) == |MomentOrder|
  }

  function MomentCalls(planId: nat, n: nat): (r: seq<Request>)
    requires n <= |MomentOrder|
  {
    seq(n, j requires 0 <= j < n => GenerateMoment(Endpoint(planId, "generate-moment"), MomentKey(MomentOrder[j])))
  }

  /**
   * The requests one run of the orchestrator issues: the moments in order up
   * to and including the first that fails, then the reload if none failed.
   */
  function GenerationCalls(planId: nat, succeeds: Moment -> bool): seq<Request> {
    var f := FirstFailure(MomentOrder, succeeds);
    if f == |MomentOrder| then MomentCalls(planId, 3) + [ReloadPlan(planId)]
    else MomentCalls(planId, f + 1)
  }

  /**
   * The run issues at most three moment requests, in the fixed order, each
   * one only after the previous one succeeded, and the reload exactly when
   * all three succeeded, as the last request.
   */
  lemma GenerationCallsOrder(planId: nat, succeeds: Moment -> bool)
    ensures var calls := GenerationCalls(planId, succeeds);
            && 1 <= |calls| <= 4
            && (forall i :: 0 <= i < |calls| && i < 3 ==> calls[i].GenerateMoment? && calls[i].momentType == MomentKey(MomentOrder[i]))
            && (forall i :: 0 <= i < |calls| - 1 && i < 3 ==> succeeds(MomentOrder[i]))
            && (ReloadPlan(planId) in calls <==> AllMomentsSucceed(succeeds))
            && (AllMomentsSucceed(succeeds) ==> |calls| == 4 && calls[3] == ReloadPlan(planId))
  {
    var calls := GenerationCalls(planId, succeeds);
    var f := FirstFailure(MomentOrder, succeeds);
    if f < |MomentOrder| {
      assert forall i :: 0 <= i < |calls| ==> calls[i].GenerateMoment?;
    }
  }

  /** A failing moment is the last request: the moments after it and the reload are skipped. */
  lemma FailureAborts(planId: nat, succeeds: Moment -> bool, k: nat)
    requires k < 3 && !succeeds(MomentOrder[k])
    requires forall j :: 0 <= j < k ==> succeeds(MomentOrder[j])
    ensures GenerationCalls(planId, succeeds) == MomentCalls(planId, k + 1)
    ensures !AllMomentsSucceed(succeeds)
  {
  }

  function Requests(calls: seq<Call<Request>>): seq<Request> {
    seq(|calls|, i requires 0 <= i < |calls| => calls[i].request)
  }

  // ----------------------------------------------------------------------
  // Name lookups

  /** `cat ? cat.name : `${prefix}${id}``: a found row's name is used as it is, even empty. */
  function NameOr(found: Option<Named>, id: nat, prefix: string): string {
    if found.Some? then found.value.name else Fallback(prefix, id)
  }

  /** `categoryNames`: one name per category id of the plan, in order, or `Cat {id}`. */
  function CategoryNames(plan: Plan, categories: seq<Named>): (r: seq<string>)
    ensures |r| == |plan.categoryIds|
    ensures forall k :: 0 <= k < |r| ==> r[k] == NameOr(Find(categories, (c: Named) => c.id == plan.categoryIds[k]), plan.categoryIds[k], "Cat ")
  {
    seq(|plan.categoryIds|, k requires 0 <= k < |plan.categoryIds| =>
      NameOr(Find(categories, (c: Named) => c.id == plan.categoryIds[k]), plan.categoryIds[k], "Cat "))
  }

  /** `getActivityNames(m)`: the moment's activity names, `Act {id}` when unknown, none for a missing moment. */
  function ActivityNames(plan: Plan, activities: seq<Named>, m: Moment): (r: seq<string>)
    ensures m !in plan.moments ==> r == []
    ensures m in plan.moments ==>
              && |r| == |plan.moments[m].activities|
              && forall k :: 0 <= k < |r| ==>
                   var id := plan.moments[m].activities[k];
                   r[k] == NameOr(Find(activities, (a: Named) => a.id == id), id, "Act ")
  {
    var ids := if m in plan.moments then plan.moments[m].activities else [];
    seq(|ids|, k requires 0 <= k < |ids| => NameOr(Find(activities, (a: Named) => a.id == ids[k]), ids[k], "Act "))
  }

  /** A known id shows its first matching row's name; an unknown id shows the fallback. */
  lemma NameOrMeaning(rows: seq<Named>, id: nat, prefix: string)
    ensures (forall i :: 0 <= i < |rows| ==> rows[i].id != id) ==>
              NameOr(Find(rows, (r: Named) => r.id == id), id, prefix) == prefix + NatToString(id)
    ensures forall i :: 0 <= i < |rows| && rows[i].id == id && (forall j :: 0 <= j < i ==> rows[j].id != id) ==>
              NameOr(Find(rows, (r: Named) => r.id == id), id, prefix) == rows[i].name
  {
    forall i | 0 <= i < |rows| && rows[i].id == id && (forall j :: 0 <= j < i ==> rows[j].id != id)
      ensures NameOr(Find(rows, (r: Named) => r.id == id), id, prefix) == rows[i].name
    {
      FindFirst(rows, (r: Named) => r.id == id, i);
    }
  }

  // ----------------------------------------------------------------------
  // The page session

  /**
   * The state the page works on: the route's plan id, the store's current
   * plan, teacher chat history and busy flag, and the page's chat input.
   */
  class LessonPlanPage {
    var planId: nat
    var currentPlan: Option<Plan>
    var chatHistory: seq<ChatMessage>
    var isGenerating: bool
    var chatInput: string

    constructor (planId: nat)
      ensures this.planId == planId && currentPlan == None
      ensures chatHistory == [] && !isGenerating && chatInput == []
    {
      this.planId := planId;
      currentPlan := None;
      chatHistory := [];
      isGenerating := false;
      chatInput := [];
    }

    /**
     * The route changes to `newPlanId`: the cleanup clears the teacher chat
     * history, then `loadPlan` stores the fetched plan; a failed fetch leaves
     * the previous plan in place. The effect runs only when the id
     * changes, so a call with the current id stands for the first mount's
     * load, not for a re-render on the same route.
     */
    method Navigate(newPlanId: nat, fetched: Option<Plan>)
      modifies this
      ensures planId == newPlanId && chatHistory == []
      ensures currentPlan == if fetched.Some? then fetched else old(currentPlan)
      ensures isGenerating == old(isGenerating) && chatInput == old(chatInput)
    {
      chatHistory := [];
      planId := newPlanId;
      if fetched.Some? {
        currentPlan := fetched;
      }
    }

    /** The chat input's `onChange`. */
    method SetChatInput(text: string)
      modifies this`chatInput
      ensures chatInput == text
    {
      chatInput := text;
    }

    /**
     * `handleGenerateAllMoments`, run to completion: the request for moment
     * `m` succeeds when `succeeds(m)`, and the final reload yields
     * `reloaded` (`None` when it fails). Returns the requests issued and the
     * alert raised, if any.
     */
    method GenerateAllMoments(succeeds: Moment -> bool, reloaded: Option<Plan>)
      returns (calls: seq<Call<Request>>, alert: Option<string>)
      modifies this`currentPlan, this`isGenerating
      ensures old(currentPlan).None? || old(isGenerating) ==>
                calls == [] && alert == None && currentPlan == old(currentPlan) && isGenerating == old(isGenerating)
      ensures old(currentPlan).Some? && !old(isGenerating) ==>
                && Requests(calls) == GenerationCalls(planId, succeeds)
                && (forall i :: 0 <= i < |calls| ==> calls[i].busy)
                && !isGenerating
                && currentPlan == (if AllMomentsSucceed(succeeds) && reloaded.Some? then reloaded else old(currentPlan))
                && alert == (if AllMomentsSucceed(succeeds) && reloaded.Some? then None else Some(AlertText))
    {
      if currentPlan.None? || isGenerating {
        return [], None;
      }
      isGenerating := true;
      calls := [];
      alert := None;
      var i := 0;
      var failed := false;
      while i < |MomentOrder| && !failed
        invariant 0 <= i <= |MomentOrder| && isGenerating && currentPlan == old(currentPlan)
        invariant !failed ==> forall j :: 0 <= j < i ==> succeeds(MomentOrder[j])
        invariant failed ==> 1 <= i && FirstFailure(MomentOrder, succeeds) == i - 1
        invariant |calls| == i
        invariant forall j :: 0 <= j < i ==> calls[j] == Call(GenerateMoment(Endpoint(planId, "generate-moment"), MomentKey(MomentOrder[j])), true)
      {
        var m := MomentOrder[i];
        calls := calls + [Call(GenerateMoment(Endpoint(planId, "generate-moment"), MomentKey(m)), isGenerating)];
        if !succeeds(m) {
          failed := true;
          FirstFailureAt(succeeds, i);
        }
        i := i + 1;
      }
      assert Requests(calls) == MomentCalls(planId, i);
      if !failed {
        FirstFailureAt(succeeds, 3);
        calls := calls + [Call(ReloadPlan(planId), isGenerating)];
        if reloaded.Some? {
          currentPlan := reloaded;
        } else {
          alert := Some(AlertText);
        }
      } else {
        alert := Some(AlertText);
      }
      isGenerating := false;
    }

    /**
     * The auto-generation effect, run when the current plan changes: it
     * starts a generation run only when a plan is loaded, no run is in
     * progress and some moment still needs content.
     */
    method OnPlanChanged(succeeds: Moment -> bool, reloaded: Option<Plan>)
      returns (calls: seq<Call<Request>>, alert: Option<string>)
      modifies this`currentPlan, this`isGenerating
      ensures calls != [] <==> old(currentPlan).Some? && !old(isGenerating) && NeedsGeneration(old(currentPlan).value)
      ensures calls == [] ==> alert == None && currentPlan == old(currentPlan) && isGenerating == old(isGenerating)
      ensures calls != [] ==>
                && Requests(calls) == GenerationCalls(planId, succeeds)
                && (forall i :: 0 <= i < |calls| ==> calls[i].busy)
                && !isGenerating
                && currentPlan == (if AllMomentsSucceed(succeeds) && reloaded.Some? then reloaded else old(currentPlan))
                && alert == (if AllMomentsSucceed(succeeds) && reloaded.Some? then None else Some(AlertText))
    {
      if currentPlan.Some? && !isGenerating && NeedsGeneration(currentPlan.value) {
        calls, alert := GenerateAllMoments(succeeds, reloaded);
        GenerationCallsOrder(planId, succeeds);
        assert |Requests(calls)| == |calls|;
      } else {
        calls, alert := [], None;
      }
    }

    /** `handleSendMessage`, run to completion with the chat call settling to `reply`. */
    method SendMessage(reply: Reply<Plan>) returns (calls: seq<Call<Request>>)
      modifies this
      ensures !CanSend(old(chatInput), old(currentPlan).Some?) ==>
                calls == [] && unchanged(this)
      ensures CanSend(old(chatInput), old(currentPlan).Some?) ==>
                && calls == [Call(ChatCall(Endpoint(planId, "chat"), ChatRequest(old(chatInput), old(chatHistory))), true)]
                && chatHistory == old(chatHistory) + [ChatMessage(User, old(chatInput)), AssistantMessage(reply)]
                && chatInput == [] && !isGenerating
                && currentPlan == (if reply.Replied? && reply.updated.Some? then reply.updated else old(currentPlan))
      ensures planId == old(planId)
      ensures Alternating(old(chatHistory)) ==> Alternating(chatHistory)
    {
      if !CanSend(chatInput, currentPlan.Some?) {
        return [];
      }
      var message := chatInput;
      var history := chatHistory;
      chatHistory := chatHistory + [ChatMessage(User, message)];
      chatInput := [];
      isGenerating := true;
      calls := [Call(ChatCall(Endpoint(planId, "chat"), ChatRequest(message, history)), isGenerating)];
      chatHistory := chatHistory + [AssistantMessage(reply)];
      if reply.Replied? && reply.updated.Some? {
        currentPlan := reply.updated;
      }
      isGenerating := false;
      assert chatHistory == history + [ChatMessage(User, message), AssistantMessage(reply)];
      if Alternating(history) {
        AlternatingAppendPair(history, ChatMessage(User, message), AssistantMessage(reply));
      }
    }
  }

  /** The first failure is at `i` when the moments before it succeeded and it did not (or `i` is the end). */
  lemma FirstFailureAt(succeeds: Moment -> bool, i: nat)
    requires i <= |MomentOrder|
    requires forall j :: 0 <= j < i ==> succeeds(MomentOrder[j])
    requires i < |MomentOrder| ==> !succeeds(MomentOrder[i])
    ensures FirstFailure(MomentOrder, succeeds) == i
  {
  }
}
