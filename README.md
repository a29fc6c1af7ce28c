# Alizia pages: a verified model of their logic

This project models the logic inside four components of the Alizia teacher
and coordinator front end, and proves what those components promise.

- **Coordination document page** (`CoordinationDocument`, in `document.dfy`):
  - the category id→name map and the "unassigned categories" warning list;
  - the `hasContent` test and the class-card labels;
  - the session the page works on, as a class: the route's document id, the
    open document, the chat history, the busy flag and the chat input;
  - its handlers: send a chat message, generate content, save the title.
- **Teacher lesson-plan page** (`LessonPlan`, in `lesson_plan.dfy`):
  - the three fixed moments and the `needsGeneration` test;
  - the auto-generation trigger;
  - the orchestrator that asks for `apertura`, `desarrollo` and `cierre` in
    turn, stops at the first failure and reloads the plan after three
    successes;
  - the chat handler and the category and activity name lookups.
- **Course page** (`Course`, in `course.dfy`):
  - the split of the curriculum nuclei into two semesters at `ceil(n/2)`;
  - one topic per nucleus, with its status, document and category count;
  - the assembly of the sections in `loadCourseData`.
- **Date input** (`DateInput`, in `date_input.dfy`):
  - the conversion of `YYYY-MM-DD` strings into a calendar day and back;
  - the value-prop sync and the `onChange` emission.

Support modules:

- `Strings` models the JavaScript string operations the pages rely on:
  - `trim` with the full JavaScript white-space set;
  - decimal rendering of non-negative integers and `Number` on digit strings;
  - `padStart(2, '0')`;
  - `split` on one character.
- `Sequences` models `filter`, `find` and `some`.
- `Catalog` holds the `{id, name}` reference rows and the fallback labels.
- `Chat` holds the message log and reply shape that both chat panels share.
- `Wrappers` holds `Option`.

Each remote call is a parameter giving its outcome:

- a chat or generate call settles to a `Reply` (a response text and an
  updated document or plan, each possibly absent) or to `Failed`;
- a fetch yields `Some(data)` or `None`;
- each moment request of the orchestrator succeeds or fails as the function
  `succeeds` says.

A handler runs to completion in one method call. The chat, generate,
save-title and moment-generation handlers return the log of the requests
they issued, each tagged with the busy flag as it stood when the request
went out. So "the flag is set during the call and cleared afterwards" is a
statement about the returned log and the final state. The route-change and
course-loading handlers take the outcomes of their fetches (`getById`,
`getStudents`, `getAll`) as parameters and return no log.

The pages read optional fields with `?.` and `|| []`. The model treats an
absent list or text as the empty one, because every modelled expression
treats the two alike. Ids are natural numbers.

## Model

| member | source | states |
|---|---|---|
| CoordinationDocument.CategoryMap | src/pages/Document.tsx:134-137 | the id→name record the `forEach` fills, each category in turn overwriting its id's entry; its keys and last-wins rule are stated by `CategoryMapKeys` and `CategoryMapLastWins` |
| CoordinationDocument.CategoryMapKeys | src/pages/Document.tsx:134-137 | every embedded category id, and no other id, is a key of `categoryMap` |
| CoordinationDocument.CategoryMapLastWins | src/pages/Document.tsx:134-137 | when an id repeats, `categoryMap` holds the name of its last occurrence |
| CoordinationDocument.BuildCategoryMap | src/pages/Document.tsx:134-137 | the `forEach` loop builds exactly the map `CategoryMap` specifies |
| CoordinationDocument.AssignedCategoryIds | src/pages/Document.tsx:143-148 | the union of the category ids of every class entry of every subject; `AssignedCategoryIdsMeaning` states the membership test |
| CoordinationDocument.AssignedCategoryIdsMeaning | src/pages/Document.tsx:143-148 | an id is in `assignedCategoryIds` iff some class entry of some subject carries it |
| CoordinationDocument.CollectAssignedCategoryIds | src/pages/Document.tsx:143-148 | the nested `forEach` loops collect exactly the assigned ids |
| CoordinationDocument.UnassignedIds | src/pages/Document.tsx:150-151 | the filtered ids are document ids not in the assigned set, and every document id not in it is kept |
| CoordinationDocument.UnassignedCategories | src/pages/Document.tsx:150-152 | each warning is a document category id that no class entry carries, named from `categoryMap` or `Categoría {id}`; there are never more warnings than document ids |
| CoordinationDocument.WarningIdsOfUnassigned | src/pages/Document.tsx:150-152 | the warning ids are the document ids filtered by "not assigned", in document order |
| CoordinationDocument.UnassignedCategoriesExactly | src/pages/Document.tsx:142-152 | an id is warned about exactly as often as the document lists it when no class entry carries it, and never otherwise |
| CoordinationDocument.UnassignedWithoutClasses | src/pages/Document.tsx:143-152 | with no class entries in any subject, every document category id is reported, in order |
| CoordinationDocument.UnassignedWhenCovered | src/pages/Document.tsx:143-152 | when class entries carry every document category id, nothing is reported |
| CoordinationDocument.HasContent | src/pages/Document.tsx:154 | `hasContent`: the trimmed methodological strategies are non-empty; `HasContentIff` states it per character |
| CoordinationDocument.HasContentIff | src/pages/Document.tsx:154 | `hasContent` holds iff the methodological strategies contain a non-white-space character |
| CoordinationDocument.ClassTitle | src/pages/Document.tsx:339 | a class card's title is never empty: the entry's title, or `Sin título` when that is empty |
| CoordinationDocument.ClassCategoryLabels | src/pages/Document.tsx:346-348 | one chip per category id of the entry, in order, labelled from `categoryMap` or `Cat {id}` |
| CoordinationDocument.DocumentPage.constructor | src/pages/Document.tsx:20-37 | a fresh session: no document, empty history and input, not busy |
| CoordinationDocument.DocumentPage.Navigate | src/pages/Document.tsx:42-60 | a route change (or the first mount's load) clears the chat history; the fetched document replaces the open one, and a failed fetch keeps it |
| CoordinationDocument.DocumentPage.SetChatInput | src/pages/Document.tsx:222 | the input holds the typed text |
| CoordinationDocument.DocumentPage.SendMessage | src/pages/Document.tsx:62-100 | a no-op when the trimmed input is empty or no document is open. Otherwise: one busy chat call to `/coordination-documents/{id}/chat` carrying the untrimmed input and the history from before the send; the history grows by the user turn then the assistant turn; the input is cleared and the flag ends false; the document is replaced only by an `updated_document`. The history stays alternating |
| CoordinationDocument.DocumentPage.GenerateContent | src/pages/Document.tsx:102-117 | a no-op without an open document; otherwise one busy call to `/coordination-documents/{id}/generate`, the flag ends false, and the document is replaced only by an `updated_document`; history and input are untouched |
| CoordinationDocument.DocumentPage.SaveTitle | src/pages/Document.tsx:119-128 | a no-op without a document or with an unchanged title; otherwise one update call with the new name, after which the open document gets the new name on success and stays as it was on failure |
| Chat.AssistantMessage | src/pages/Document.tsx:80-96 | the assistant turn is never empty: the response text, `Sin respuesta` when that text is absent or empty, `Error al procesar el mensaje` on failure |
| Chat.AlternatingAppendPair | src/pages/Document.tsx:65-96 | appending one user turn then one assistant turn keeps the log in user/assistant pairs |
| Chat.AssistantFollowsUser | src/pages/TeacherLessonPlan.tsx:91-122 | in such a log every assistant turn directly follows a user turn |
| Catalog.LabelOr | src/pages/Document.tsx:152 | the label is the map's name when it is present and non-empty, `{prefix}{id}` otherwise; never empty |
| LessonPlan.MomentEmpty | src/pages/TeacherLessonPlan.tsx:45 | a moment lacks content when it is missing or its trimmed text is empty; `MomentEmptyIff` states it per character |
| LessonPlan.NeedsGeneration | src/pages/TeacherLessonPlan.tsx:43-46 | `some` over apertura, desarrollo, cierre of "lacks content"; `NeedsGenerationIff` states it moment by moment |
| LessonPlan.MomentEmptyIff | src/pages/TeacherLessonPlan.tsx:45 | a moment lacks content iff it is missing or its generated text is only white space |
| LessonPlan.NeedsGenerationIff | src/pages/TeacherLessonPlan.tsx:43-46 | `needsGeneration` holds iff at least one of apertura, desarrollo, cierre lacks content |
| LessonPlan.FirstFailure | src/pages/TeacherLessonPlan.tsx:71-75 | the position reached is the first failing moment: every moment before it succeeds, it fails, and it is the list length when none fails |
| LessonPlan.GenerationCalls | src/pages/TeacherLessonPlan.tsx:63-86 | the request list of one orchestrator run, the specification `GenerateAllMoments` is proved against; `GenerationCallsOrder` and `FailureAborts` state its order and its stop at a failure |
| LessonPlan.GenerationCallsOrder | src/pages/TeacherLessonPlan.tsx:63-86 | one to four requests: the moment requests in the fixed order, each carrying its `moment_type`, each issued only after the previous one succeeded, and the reload iff all three succeeded, as the last request |
| LessonPlan.FailureAborts | src/pages/TeacherLessonPlan.tsx:71-82 | a failing moment is the last request issued: the later moments and the reload are skipped |
| LessonPlan.LessonPlanPage.GenerateAllMoments | src/pages/TeacherLessonPlan.tsx:63-86 | a no-op without a plan or while busy; otherwise it issues exactly the requests `GenerationCalls` describes, all while busy; the flag ends false; the plan is replaced by the reloaded one only after three successes and a successful reload; every other path leaves the plan as it was and raises `Error al generar contenido con IA` |
| LessonPlan.LessonPlanPage.OnPlanChanged | src/pages/TeacherLessonPlan.tsx:41-86 | the auto-trigger issues requests iff a plan is loaded, no run is in progress and `needsGeneration` holds; when it fires, it issues exactly the orchestrator's requests, each while busy, ends with the flag false, replaces the plan only after three successes and a reload, and raises `Error al generar contenido con IA` on every other path |
| LessonPlan.LessonPlanPage.SendMessage | src/pages/TeacherLessonPlan.tsx:88-126 | the same promises as the document chat, with `/teacher-lesson-plans/{id}/chat` and `updated_plan` |
| LessonPlan.LessonPlanPage.Navigate | src/pages/TeacherLessonPlan.tsx:29-61 | a route change (or the first mount's load) clears the teacher chat history; the fetched plan replaces the current one, and a failed fetch keeps it |
| LessonPlan.LessonPlanPage.SetChatInput | src/pages/TeacherLessonPlan.tsx:216 | the input holds the typed text |
| LessonPlan.LessonPlanPage.constructor | src/pages/TeacherLessonPlan.tsx:26 | a fresh session: no plan, empty history and input, not busy |
| LessonPlan.CategoryNames | src/pages/TeacherLessonPlan.tsx:132-135 | one name per category id of the plan, in order: the first matching category's name, or `Cat {id}` |
| LessonPlan.ActivityNames | src/pages/TeacherLessonPlan.tsx:137-144 | none for a missing moment; otherwise one name per activity id of the moment, in order, the first matching activity's name or `Act {id}` |
| LessonPlan.NameOr | src/pages/TeacherLessonPlan.tsx:133-134 | `cat ? cat.name : {prefix}{id}`; `NameOrMeaning` states both branches in terms of the rows searched |
| LessonPlan.NameOrMeaning | src/pages/TeacherLessonPlan.tsx:133-134 | an unknown id shows `{prefix}{id}`; a known id shows the name of its first matching row, even an empty one |
| Course.Midpoint | src/pages/Course.tsx:47 | the midpoint `m` is `ceil(n/2)`: `n <= 2m <= n + 1` |
| Course.SplitNuclei | src/pages/Course.tsx:47-49 | the first half has `midpoint` nuclei and the second the rest; together they are the nuclei list; the first is never shorter and at most one longer |
| Course.AreaDocs | src/pages/Course.tsx:43 | no documents without a user area; every kept document comes from the full list and belongs to the user's area |
| Course.NucleusDocument | src/pages/Course.tsx:62 | absent iff no area document lists the nucleus; otherwise a listed area document that covers it |
| Course.CategoriesCount | src/pages/Course.tsx:56-59 | the count never exceeds the number of category entries |
| Course.AreaDocsMeaning | src/pages/Course.tsx:43 | the area documents are exactly those of the user's area, each as often as in the full list; with no user area there are none |
| Course.CountedIffBelongs | src/pages/Course.tsx:56-59 | the per-category test (`some` over the nucleus's knowledge areas) holds iff the category belongs to the nucleus |
| Course.CategoriesCountMeaning | src/pages/Course.tsx:56-59 | `categoriesCount` is the number of category entries whose knowledge area belongs to the nucleus: 0 when none does, all of them when all do |
| Course.BuildTopic | src/pages/Course.tsx:55-73 | the topic keeps the nucleus's id and name, is pending exactly when it links no document, and counts at most all categories |
| Course.TopicStatusMeaning | src/pages/Course.tsx:61-73 | a topic keeps its nucleus's id and name; it is pending, with no document, iff no area document covers the nucleus; otherwise the first covering document decides: completed iff it is published, in progress otherwise, and the topic links to it |
| Course.BuildTopics | src/pages/Course.tsx:54-75 | one topic per nucleus, in input order, with its id and name |
| Course.Sections | src/pages/Course.tsx:77-95 | at most two sections, none of them empty |
| Course.SectionsShape | src/pages/Course.tsx:77-95 | no nuclei give no section, one nucleus exactly one (id 1, first semester), more give two (ids 1 and 2); the first section holds the topics of the first `ceil(n/2)` nuclei and the second those of the rest; across the sections each nucleus appears once, in order, as its topic |
| Course.CoursePage.constructor | src/pages/Course.tsx:24-26 | a fresh page: no students, no sections, loading |
| Course.CoursePage.LoadCourseData | src/pages/Course.tsx:35-102 | loading ends false on every path; fetched students replace the list; the sections are rebuilt only when both fetches succeed, a user area exists and there are nuclei, and are kept otherwise |
| DateInput.MakeDate | src/components/ui/date-input.tsx:21 | `new Date(y, m, d)`; its three outcomes are stated by `MakeDateMeaning` |
| DateInput.MakeDateMeaning | src/components/ui/date-input.tsx:21 | `new Date(y, m, d)` is the day itself iff that day exists in a year from 100 to 275759; from the year 275761 on, with a month index of at least -1 (which `month - 1` always is), it is an Invalid Date; otherwise the raw arguments, also when a roll-over would carry them past the end of the range |
| DateInput.DateOfParts | src/components/ui/date-input.tsx:20-21 | fewer than three `-`-separated parts give an Invalid Date, and no parts ever give "no date" |
| DateInput.PartNumber | src/components/ui/date-input.tsx:20 | a part is a number iff it is digits once trimmed; a blank part reads as 0 |
| DateInput.ParseDate | src/components/ui/date-input.tsx:18-22 | an empty string, and only that, gives no date |
| DateInput.ParseJoined | src/components/ui/date-input.tsx:20-21 | `y-m-d` made of digit runs parses to what the three numbers give, the month stored minus one: `new Date(y, m - 1, d)` |
| DateInput.FormatDate | src/components/ui/date-input.tsx:37-40 | `${year}-${MM}-${DD}`; its layout is stated by `FormatDateShape` and its round trips by `ParseFormat` and `FormatParse` |
| DateInput.FormatDateShape | src/components/ui/date-input.tsx:37-40 | the formatted day is the unpadded year, `-`, the month plus one in exactly two digits, `-`, the day in exactly two digits |
| DateInput.ParseFormat | src/components/ui/date-input.tsx:18-45 | parsing the string emitted for a valid day (a year from 100 to 275759) gives back that day |
| DateInput.ParseBeyondRange | src/components/ui/date-input.tsx:18-22 | a digit-run date whose year is past 275760 parses as an Invalid Date |
| DateInput.FormatParse | src/components/ui/date-input.tsx:18-45 | a well-formed `YYYY-MM-DD` string of an existing day parses to a valid day whose formatting is that string again |
| DateInput.SyncFromValue | src/components/ui/date-input.tsx:24-32 | a non-empty value sets the date to its parse; an absent or empty value clears it |
| DateInput.HandleSelect | src/components/ui/date-input.tsx:34-45 | the date becomes the selection; with an `onChange` the formatted day is emitted, or `''` when cleared; nothing is emitted without one |
| DateInput.SelectThenSync | src/components/ui/date-input.tsx:24-45 | feeding the emitted value back as the `value` prop yields the same date state the selection set |
| Strings.Trim | src/pages/Document.tsx:63 | `trim`: white space dropped from both ends; stated by `TrimStartFacts`, `TrimEndFacts` and `TrimIsInfix` |
| Strings.IsBlank | src/pages/Document.tsx:63 | `!s.trim()`: the trimmed text is empty; `BlankIffAllWhitespace` states it per character |
| Strings.TrimStartFacts | src/pages/Document.tsx:63 | trimming the start removes a run of white space and stops at the first other character |
| Strings.TrimEndFacts | src/pages/Document.tsx:63 | trimming the end removes a run of white space and stops at the last other character |
| Strings.BlankIffAllWhitespace | src/pages/Document.tsx:63 | `!s.trim()` holds iff every character of `s` is white space |
| Strings.TrimIsInfix | src/pages/Document.tsx:154 | `trim` removes characters at the two ends only |
| Strings.TrimDigits | src/components/ui/date-input.tsx:20 | trimming leaves a digit string unchanged |
| Strings.NatToString | src/components/ui/date-input.tsx:38-40 | the decimal rendering is non-empty digits with no leading zero, one digit exactly below 10 |
| Strings.DigitsValue | src/components/ui/date-input.tsx:20 | `Number` of a digit string; its round trips with `NatToString` and its bound are stated by the lemmas below |
| Strings.DigitsValueBelow | src/components/ui/date-input.tsx:20 | a run of `k` digits reads as less than `10^k` |
| Strings.DigitsValueOfNatToString | src/components/ui/date-input.tsx:20 | `Number(String(n))` is `n` |
| Strings.NatToStringOfDigitsValue | src/components/ui/date-input.tsx:20 | `String(Number(s))` is `s` for a digit string without a leading zero |
| Strings.PadStart2 | src/components/ui/date-input.tsx:38-39 | `padStart(2, '0')`: a string shorter than two characters is left-padded with `0` to exactly two, and a longer one is unchanged |
| Strings.PadStart2RoundTrip | src/components/ui/date-input.tsx:38-39 | below 100, `padStart(2, '0')` gives two digits that read back as the number |
| Strings.PadStart2OfDigits | src/components/ui/date-input.tsx:38-39 | any two-digit string is the padded rendering of its own value |
| Strings.Split | src/components/ui/date-input.tsx:20 | `split` gives at least one piece and no piece contains the separator |
| Strings.JoinSplit | src/components/ui/date-input.tsx:20 | joining the pieces with the separator gives the string back |
| Strings.SplitFirstPiece | src/components/ui/date-input.tsx:20 | a separator-free prefix followed by the separator is the first piece |
| Sequences.Filter | src/pages/Document.tsx:151 | the result is no longer than the input, keeps only passing elements and keeps every passing element |
| Sequences.FilterMultiplicity | src/pages/Course.tsx:43 | `filter` keeps every passing element as often as it occurs and no other |
| Sequences.FilterAppend | src/pages/Course.tsx:43 | `filter` keeps order: it distributes over concatenation |
| Sequences.Find | src/pages/Course.tsx:62 | `find` is absent iff nothing passes; otherwise it is a passing element with no passing element before it |
| Sequences.FindFirst | src/pages/TeacherLessonPlan.tsx:133 | `find` returns the element at the first passing position |
| Sequences.Any | src/pages/TeacherLessonPlan.tsx:44-46 | `some`: whether some element passes; `AnyIff` states it by position |
| Sequences.AnyIff | src/pages/TeacherLessonPlan.tsx:44-46 | `some` holds iff some element passes |
| Chat.CanSend | src/pages/Document.tsx:63 | the send guard: the trimmed input is non-empty and a document (or plan) is open; `SendMessage` is a no-op exactly when it fails |

## Left out

- Rendering, styling, icons and scroll-into-view effects are presentational and not modelled.
- The `api` client and the network are not part of this model. Each call's outcome is a parameter.
- `alert` is modelled only as the alert text returned by `GenerateAllMoments`. `console.error` and `navigate` are not modelled.
- The `date-fns` display format and the `Calendar`/`Popover` widgets are library code and are not modelled.
- The load effects depend on the route id, so they do not run again for the same id. `Navigate` has no same-id no-op case: a call with the current id stands for the first mount's load.
- React effect scheduling is not modelled. This covers the run-on-mount effects, the cleanup order, and the race between an in-flight chat and a generation writing the same store slot. Each handler is one sequential run.
- The send buttons are also disabled while busy. That guard lives in the markup, not in the handlers, so it is not part of `SendMessage`.
- LessonPlan.LessonPlanPage.OnPlanChanged: it fires once per call. Whether the plan reloaded by the run fires the effect again depends on effect scheduling, which is not modelled.
- DateInput.ParseDate: the `Date` constructor's roll-over of out-of-range months and days, and its mapping of years 0 to 99 to 1900 to 1999, are not modelled. Such arguments give `Unnormalised` with the raw numbers, even when the roll-over would carry the date past the end of the range, where the constructor gives an Invalid Date.
- DateInput.MakeDate: the local time zone is not modelled. The model assumes every day from the year 100 to 275759 exists at local midnight. In a zone that skipped a calendar day (Pacific/Apia skipped 30 December 2011), `new Date(y, m, d)` for that day lands on the next one, and `ParseFormat` and `FormatParse` do not hold for it.
- DateInput.MakeDate: in the year 275760 the range of a `Date` ends on 13 September, at a point that depends on the local time zone. Every date in that year gives `Unnormalised`, so the model does not say which of them are Invalid Dates.
- DateInput.PartNumber: `Number`'s other accepted forms are read as `NaN` (`Invalid`). These include signs, decimals, exponents and hexadecimal.
- DateInput.FormatParse: it is stated for four-digit years without a leading zero, because `String(year)` never pads.
- Absent optional fields are identified with empty ones (`|| []`, `|| {}`, `?.`). The model does not distinguish a missing list from an empty one, because no modelled expression does.
- The remote store's ids are natural numbers. `parseInt` of the route parameter is not modelled; the id is given as a number.
- The page constructors model the first mount on a fresh store. In the application the open document or plan, the chat histories and the busy flag live in a global store that outlives the page, and both pages share one busy flag; only the chat history is cleared on a route change. The model gives each page its own copy of these.
- Anything outside these four files is not part of this model. That includes the store (`useStore`), the types module, week grouping and per-subject colours.
