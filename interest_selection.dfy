/** The interest-selection wizard (pages/InterestSelectionPage.tsx): the rules
    by which each handler rebuilds one category's preferences, the check that
    decides whether the wizard may advance, and the page state the handlers
    update. */
module InterestSelection {
  import opened Util
  import opened Types
  import opened Taxonomy
  import opened GeminiService
  import opened PreferenceStore

  // ----- selected tags -----

  /** A toggle of `tagId` in category `k` falls in the YouTube duration group,
      where only one tag may stay selected. */
  predicate IsDurationToggle(h: Hierarchy, k: CategoryKey, tagId: string)
  {
    k == YouTube && DurationTagIds(h).Some? && tagId in DurationTagIds(h).value
  }

  /** The new tag list: the tag flipped, and for a duration tag every other
      duration tag dropped. */
  function ToggledTags(h: Hierarchy, k: CategoryKey, tags: seq<string>, tagId: string): (r: seq<string>)
    ensures tagId in r <==> tagId !in tags
    ensures forall y :: y != tagId && !(IsDurationToggle(h, k, tagId) && y in DurationTagIds(h).value) ==>
      (y in r <==> y in tags)
    ensures NoDup(tags) ==> NoDup(r)
  {
    var t := Toggle(tags, tagId);
    if IsDurationToggle(h, k, tagId) then
      RemoveAllKeepsNoDup(t, Remove(DurationTagIds(h).value, tagId));
      RemoveAll(t, Remove(DurationTagIds(h).value, tagId))
    else t
  }

  /** The record `handleTagToggle` writes for the category: the new tags, and
      an emptied AI question list when tags remain and the list had questions. */
  function WithTagToggled(h: Hierarchy, k: CategoryKey, c: CategoryPrefs, tagId: string): (r: CategoryPrefs)
    ensures tagId in r.selectedTags <==> tagId !in c.selectedTags
    ensures forall y :: y != tagId && !(IsDurationToggle(h, k, tagId) && y in DurationTagIds(h).value) ==>
      (y in r.selectedTags <==> y in c.selectedTags)
    ensures CategoryDistinct(c) ==> CategoryDistinct(r)
    ensures r.aiFollowUpQuestions == c.aiFollowUpQuestions || r.aiFollowUpQuestions == Some([])
    ensures r.aiFollowUpQuestions != c.aiFollowUpQuestions <==>
      r.selectedTags != [] && c.aiFollowUpQuestions.Some? && c.aiFollowUpQuestions.value != []
    ensures r.(selectedTags := c.selectedTags, aiFollowUpQuestions := c.aiFollowUpQuestions) == c
  {
    var tags := ToggledTags(h, k, c.selectedTags, tagId);
    var ai := c.aiFollowUpQuestions;
    c.(selectedTags := tags,
       aiFollowUpQuestions := if |tags| > 0 && ai.Some? && |ai.value| > 0 then Some([]) else ai)
  }

  /** Toggling a tag outside the duration group twice gives back the same
      tags, and the very same sequence when the tag was not selected. */
  lemma {:induction false} TagToggleTwice(h: Hierarchy, k: CategoryKey, c: CategoryPrefs, tagId: string)
    requires !IsDurationToggle(h, k, tagId)
    ensures var twice := WithTagToggled(h, k, WithTagToggled(h, k, c, tagId), tagId);
      (forall y :: y in twice.selectedTags <==> y in c.selectedTags)
      && (tagId !in c.selectedTags ==> twice.selectedTags == c.selectedTags)
  {
    ToggleTwice(c.selectedTags, tagId);
  }

  /** After a duration tag is toggled, the only duration tag left selected is
      that tag when it was off before, and none when it was on; the tags
      outside the group keep their order. */
  lemma {:induction false} DurationToggleIsExclusive(h: Hierarchy, c: CategoryPrefs, tagId: string)
    requires IsDurationToggle(h, YouTube, tagId)
    ensures var r := WithTagToggled(h, YouTube, c, tagId).selectedTags;
      var ids := DurationTagIds(h).value;
      KeepOnly(r, ids) == (if tagId in c.selectedTags then [] else [tagId])
      && RemoveAll(r, ids) == RemoveAll(c.selectedTags, ids)
  {
    var s, ids := c.selectedTags, DurationTagIds(h).value;
    assert WithTagToggled(h, YouTube, c, tagId).selectedTags == RemoveAll(Toggle(s, tagId), Remove(ids, tagId));
    ExclusiveToggleKeepsOutsiders(s, ids, tagId);
    ExclusiveToggleLeavesOne(s, ids, tagId);
  }

  lemma ExclusiveToggleKeepsOutsiders(s: seq<string>, ids: seq<string>, x: string)
    requires x in ids
    ensures RemoveAll(RemoveAll(Toggle(s, x), Remove(ids, x)), ids) == RemoveAll(s, ids)
  {
    var t := Toggle(s, x);
    RemoveAllTwice(t, Remove(ids, x), ids);
    if x in s {
      RemoveAllIgnoresOutsiders(s, ids, x);
    } else {
      RemoveAllConcat(s, [x], ids);
      assert RemoveAll([x], ids) == [];
    }
  }

  lemma ExclusiveToggleLeavesOne(s: seq<string>, ids: seq<string>, x: string)
    requires x in ids
    ensures KeepOnly(RemoveAll(Toggle(s, x), Remove(ids, x)), ids) == (if x in s then [] else [x])
  {
    var others := Remove(ids, x);
    if x in s {
      KeepOnlyNone(RemoveAll(Remove(s, x), others), ids);
    } else {
      RemoveAllConcat(s, [x], others);
      assert RemoveAll([x], others) == [x];
      var rest := RemoveAll(s, others);
      KeepOnlyNone(rest, ids);
      KeepOnlyConcat(rest, [x], ids);
      assert KeepOnly([x], ids) == [x];
    }
  }

  // ----- fixed follow-up answers -----

  /** The answer `handleFollowUpPredefinedTagToggle` starts from when the
      question has none yet. */
  const NewAnswer: FollowUpAnswer := FollowUpAnswer([], Some(""))

  /** The record `handleFollowUpPredefinedTagToggle` writes for the category. */
  function WithPredefinedToggled(c: CategoryPrefs, questionId: string, tagLabel: string): (r: CategoryPrefs)
    ensures r.followUpAnswers.Some?
    ensures var before := Lookup(c.followUpAnswers.GetOr([]), questionId).GetOr(NewAnswer);
      var after := Lookup(r.followUpAnswers.value, questionId);
      after.Some? && after.value.customAnswerViaOther == before.customAnswerViaOther
      && (tagLabel in after.value.selectedPredefinedTags <==> tagLabel !in before.selectedPredefinedTags)
      && forall y :: y != tagLabel ==>
           (y in after.value.selectedPredefinedTags <==> y in before.selectedPredefinedTags)
    ensures forall q :: q != questionId ==>
      Lookup(r.followUpAnswers.value, q) == Lookup(c.followUpAnswers.GetOr([]), q)
    ensures r.(followUpAnswers := c.followUpAnswers) == c
  {
    var answers := c.followUpAnswers.GetOr([]);
    var current := Lookup(answers, questionId).GetOr(NewAnswer);
    var updated := current.(selectedPredefinedTags := Toggle(current.selectedPredefinedTags, tagLabel));
    c.(followUpAnswers := Some(Put(answers, questionId, updated)))
  }

  /** The record written when a question's "Other" text is set, both by the
      input and by closing the input (with `""`): the chosen labels stay. */
  function WithOtherText(c: CategoryPrefs, questionId: string, text: string): (r: CategoryPrefs)
    ensures r.followUpAnswers.Some?
    ensures var after := Lookup(r.followUpAnswers.value, questionId);
      after.Some? && after.value.customAnswerViaOther == Some(text)
      && after.value.selectedPredefinedTags
         == Lookup(c.followUpAnswers.GetOr([]), questionId).GetOr(FollowUpAnswer([], None)).selectedPredefinedTags
    ensures forall q :: q != questionId ==>
      Lookup(r.followUpAnswers.value, q) == Lookup(c.followUpAnswers.GetOr([]), q)
    ensures r.(followUpAnswers := c.followUpAnswers) == c
  {
    var answers := c.followUpAnswers.GetOr([]);
    var current := Lookup(answers, questionId).GetOr(FollowUpAnswer([], None));
    c.(followUpAnswers := Some(Put(answers, questionId, current.(customAnswerViaOther := Some(text)))))
  }

  /** The id of the one "Other" input that may be open: `<category>-<question>-other`. */
  function OtherInputId(k: CategoryKey, questionId: string): string
  {
    k.Id() + "-" + questionId + "-other"
  }

  // ----- custom-interest and instruction tag lists -----

  /** The rule both tag lists follow when a drafted tag is added: the trimmed
      draft is appended when it is not blank and not yet in the list. */
  function AddTrimmed(list: seq<string>, draft: string): (r: seq<string>)
    ensures r == list <==> Trim(draft) == "" || Trim(draft) in list
    ensures r == list || r == list + [Trim(draft)]
    ensures forall y :: y in r <==> y in list || (y == Trim(draft) && y != "")
    ensures NoDup(list) ==> NoDup(r)
  {
    var t := Trim(draft);
    if t != "" && t !in list then list + [t] else list
  }

  /** The record `handleAddInstructionTag` writes: the category is returned
      unchanged when nothing is added. */
  function WithInstructionAdded(c: CategoryPrefs, draft: string): (r: CategoryPrefs)
    ensures r.instructionTags.GetOr([]) == AddTrimmed(c.instructionTags.GetOr([]), draft)
    ensures r == c <==> AddTrimmed(c.instructionTags.GetOr([]), draft) == c.instructionTags.GetOr([])
    ensures r.(instructionTags := c.instructionTags) == c
  {
    var current := c.instructionTags.GetOr([]);
    var t := Trim(draft);
    if t != "" && t !in current then c.(instructionTags := Some(current + [t])) else c
  }

  /** The record `handleRemoveInstructionTag` writes. */
  function WithInstructionRemoved(c: CategoryPrefs, tag: string): (r: CategoryPrefs)
    ensures r.instructionTags.Some?
    ensures forall y :: y in r.instructionTags.value <==> y in c.instructionTags.GetOr([]) && y != tag
    ensures tag !in c.instructionTags.GetOr([]) ==> r.instructionTags.value == c.instructionTags.GetOr([])
    ensures CategoryDistinct(c) ==> CategoryDistinct(r)
    ensures r.(instructionTags := c.instructionTags) == c
  {
    RemoveKeepsNoDup(c.instructionTags.GetOr([]), tag);
    c.(instructionTags := Some(Remove(c.instructionTags.GetOr([]), tag)))
  }

  /** The record `handlePopularInstructionTagClick` writes: membership flips. */
  function WithInstructionToggled(c: CategoryPrefs, tag: string): (r: CategoryPrefs)
    ensures r.instructionTags.Some?
    ensures tag in r.instructionTags.value <==> tag !in c.instructionTags.GetOr([])
    ensures forall y :: y != tag ==> (y in r.instructionTags.value <==> y in c.instructionTags.GetOr([]))
    ensures CategoryDistinct(c) ==> CategoryDistinct(r)
    ensures r.(instructionTags := c.instructionTags) == c
  {
    c.(instructionTags := Some(Toggle(c.instructionTags.GetOr([]), tag)))
  }

  // ----- AI follow-up questions -----

  /** The questions as stored after a fetch: each with an empty answer, so
      none of them counts as answered yet. */
  function Unanswered(qs: seq<GeneratedQuestion>): (r: seq<AiFollowUpQuestion>)
    ensures |r| == |qs|
    ensures forall i :: 0 <= i < |qs| ==> r[i].id == qs[i].id && r[i].question == qs[i].question
    ensures forall i :: 0 <= i < |r| ==> !AiAnswered(r[i])
  {
    seq(|qs|, i requires 0 <= i < |qs| => AiFollowUpQuestion(qs[i].id, qs[i].question, ""))
  }

  /** The record `handleAiAnswerChange` writes: the same questions in the same
      order, only those with the id getting the new answer. */
  function WithAiAnswer(c: CategoryPrefs, questionId: string, answer: string): (r: CategoryPrefs)
    ensures r.aiFollowUpQuestions.Some?
    ensures var before, after := c.aiFollowUpQuestions.GetOr([]), r.aiFollowUpQuestions.value;
      |after| == |before|
      && forall i :: 0 <= i < |before| ==>
           after[i].id == before[i].id && after[i].question == before[i].question
           && after[i].answer == (if before[i].id == questionId then answer else before[i].answer)
    ensures r.(aiFollowUpQuestions := c.aiFollowUpQuestions) == c
  {
    var qs := c.aiFollowUpQuestions.GetOr([]);
    c.(aiFollowUpQuestions := Some(seq(|qs|, i requires 0 <= i < |qs| =>
         if qs[i].id == questionId then qs[i].(answer := answer) else qs[i])))
  }

  /** Only the last answer typed for a question is kept. */
  lemma AiAnswerOverrides(c: CategoryPrefs, questionId: string, first: string, second: string)
    ensures WithAiAnswer(WithAiAnswer(c, questionId, first), questionId, second)
         == WithAiAnswer(c, questionId, second)
  {
    var a := WithAiAnswer(WithAiAnswer(c, questionId, first), questionId, second);
    var b := WithAiAnswer(c, questionId, second);
    assert a.aiFollowUpQuestions.value == b.aiFollowUpQuestions.value;
  }

  const SelectTagsFirst: string := "Please select some specific interests/tags for this category first."
  const FetchFailed: string := "Sorry, couldn't fetch clarifying questions. Please try again."

  /** What the question provider is asked: the category label and the labels
      of the selected tags. */
  datatype AiRequest = AiRequest(categoryLabel: string, tagLabels: seq<string>)

  /** How the awaited call ended: with questions, or by throwing. */
  datatype FetchResult = Fetched(questions: seq<GeneratedQuestion>) | Rejected

  // ----- validation -----

  datatype ValidationError =
    | NoCategory
    | NoSubCategory(categoryLabel: string)
    | EngageWithAi(categoryLabel: string)
    | NoInterests(categoryLabel: string)
  {
    /** The text shown for the error. */
    function Message(): string
    {
      match this
      case NoCategory => "Please select at least one broad category to continue."
      case NoSubCategory(l) => "Please select a sub-category for " + l + "."
      case EngageWithAi(l) =>
        "For " + l + ", please engage with the \"AI-Generated Rapid Fire\" questions to help us "
        + "understand your preferences better. Click \"Get Deeper Questions from AI\"."
      case NoInterests(l) => "Please select some specific interests or tags for " + l + "."
    }
  }

  /** The errors `validateSelections` collects for the active category. */
  function SelectionErrors(h: Hierarchy, active: Option<string>, activeSub: Option<string>,
                           aiError: Option<string>, p: UserPreferences): seq<ValidationError>
  {
    if !IsTruthy(active) then [NoCategory]
    else
      match FindCategory(h, active.value)
      case None => []
      case Some(cat) =>
        if cat.id == CustomCategoryId then []
        else SubCategoryErrors(cat, activeSub) + InterestErrors(cat, aiError, p)
  }

  function SubCategoryErrors(cat: MainCategory, activeSub: Option<string>): seq<ValidationError>
  {
    if cat.subCategories.Some? && |cat.subCategories.value| > 0 && !IsTruthy(activeSub)
    then [NoSubCategory(cat.caption)]
    else []
  }

  function InterestErrors(cat: MainCategory, aiError: Option<string>, p: UserPreferences): seq<ValidationError>
  {
    match KeyOfId(cat.id)
    case Some(k) =>
      if |p.Category(k).selectedTags| > 0 then
        if p.Category(k).aiFollowUpQuestions.None? && !IsTruthy(aiError) then [EngageWithAi(cat.caption)] else []
      else if k != Sports || !IsTruthy(p.sports.otherSportName) then [NoInterests(cat.caption)]
      else []
    case None => [NoInterests(cat.caption)]
  }

  /** With no active category the one error asks for a category. */
  lemma ValidationWithoutCategory(h: Hierarchy, activeSub: Option<string>, aiError: Option<string>, p: UserPreferences)
    ensures SelectionErrors(h, None, activeSub, aiError, p) == [NoCategory]
  {
  }

  /** A category with sub-categories and none chosen is reported first. */
  lemma ValidationNeedsSubCategory(h: Hierarchy, active: string, activeSub: Option<string>,
                                   aiError: Option<string>, p: UserPreferences, cat: MainCategory)
    requires active != "" && FindCategory(h, active) == Some(cat) && cat.id != CustomCategoryId
    requires cat.subCategories.Some? && cat.subCategories.value != [] && !IsTruthy(activeSub)
    ensures var errs := SelectionErrors(h, Some(active), activeSub, aiError, p);
      errs != [] && errs[0] == NoSubCategory(cat.caption)
  {
  }

  /** The interests error names the active category exactly when it has no
      tags and is not the sports category with a typed sport name. */
  lemma ValidationNeedsInterests(h: Hierarchy, active: string, activeSub: Option<string>,
                                 aiError: Option<string>, p: UserPreferences, cat: MainCategory, k: CategoryKey)
    requires active != "" && FindCategory(h, active) == Some(cat) && cat.id != CustomCategoryId
    requires k.Id() == active
    ensures NoInterests(cat.caption) in SelectionErrors(h, Some(active), activeSub, aiError, p)
      <==> p.Category(k).selectedTags == [] && (k != Sports || !IsTruthy(p.sports.otherSportName))
  {
    var sub := SubCategoryErrors(cat, activeSub);
    var interests := InterestErrors(cat, aiError, p);
    assert KeyOfId(cat.id) == Some(k);
    assert NoInterests(cat.caption) !in sub;
    assert NoInterests(cat.caption) in sub + interests <==> NoInterests(cat.caption) in interests;
  }

  /** The engagement error fires only while the category's AI question list is
      undefined, its tags are non-empty and no fetch error is shown. */
  lemma EngagementNeedsUndefinedList(h: Hierarchy, active: Option<string>, activeSub: Option<string>,
                                     aiError: Option<string>, p: UserPreferences, l: string)
    requires EngageWithAi(l) in SelectionErrors(h, active, activeSub, aiError, p)
    ensures exists k: CategoryKey :: (active == Some(k.Id())
      && p.Category(k).aiFollowUpQuestions.None? && p.Category(k).selectedTags != [])
    ensures !IsTruthy(aiError)
  {
    var cat := FindCategory(h, active.value).value;
    assert EngageWithAi(l) in InterestErrors(cat, aiError, p);
    var k := KeyOfId(cat.id).value;
    assert active == Some(k.Id());
  }

  /** Only the active category, and the sports sport name, are consulted. */
  lemma ValidationSeesOnlyActiveCategory(h: Hierarchy, active: Option<string>, activeSub: Option<string>,
                                         aiError: Option<string>, p: UserPreferences, q: UserPreferences)
    requires forall k: CategoryKey :: active == Some(k.Id()) ==> p.Category(k) == q.Category(k)
    requires p.sports.otherSportName == q.sports.otherSportName
    ensures SelectionErrors(h, active, activeSub, aiError, p) == SelectionErrors(h, active, activeSub, aiError, q)
  {
    if IsTruthy(active) && FindCategory(h, active.value).Some? {
      var cat := FindCategory(h, active.value).value;
      if KeyOfId(cat.id).Some? {
        var k := KeyOfId(cat.id).value;
        assert active == Some(k.Id());
      }
    }
  }

  /** When every AI question list is defined, as in the defaults, the
      engagement error never fires. */
  lemma DefinedListsNeverAskToEngage(h: Hierarchy, active: Option<string>, activeSub: Option<string>,
                                     aiError: Option<string>, p: UserPreferences)
    requires AiListsDefined(p)
    ensures forall l :: EngageWithAi(l) !in SelectionErrors(h, active, activeSub, aiError, p)
  {
    forall l ensures EngageWithAi(l) !in SelectionErrors(h, active, activeSub, aiError, p) {
      if EngageWithAi(l) in SelectionErrors(h, active, activeSub, aiError, p) {
        EngagementNeedsUndefinedList(h, active, activeSub, aiError, p, l);
        assert false;
      }
    }
  }

  // ----- invariants of the edited record -----

  predicate CategoryDistinct(c: CategoryPrefs)
  {
    NoDup(c.selectedTags) && NoDup(c.instructionTags.GetOr([]))
  }

  /** No list the wizard edits holds a tag twice. */
  predicate ListsDistinct(p: UserPreferences)
  {
    NoDup(p.customInterestTags) && forall k: CategoryKey :: CategoryDistinct(p.Category(k))
  }

  /** The two invariants the handlers keep: defined AI lists stay defined and
      duplicate-free lists stay duplicate-free. */
  predicate KeepsInvariants(p: UserPreferences, q: UserPreferences)
  {
    (AiListsDefined(p) ==> AiListsDefined(q)) && (ListsDistinct(p) ==> ListsDistinct(q))
  }

  lemma InitialListsDistinct()
    ensures ListsDistinct(InitialPreferences())
  {
  }

  lemma CategoryUpdateKeepsInvariants(p: UserPreferences, k: CategoryKey, c: CategoryPrefs)
    requires p.Category(k).aiFollowUpQuestions.Some? ==> c.aiFollowUpQuestions.Some?
    requires CategoryDistinct(p.Category(k)) ==> CategoryDistinct(c)
    ensures KeepsInvariants(p, p.WithCategory(k, c))
  {
  }

  lemma CustomTagsUpdateKeepsInvariants(p: UserPreferences, tags: seq<string>)
    requires NoDup(p.customInterestTags) ==> NoDup(tags)
    ensures KeepsInvariants(p, p.(customInterestTags := tags))
  {
    var q := p.(customInterestTags := tags);
    assert forall k: CategoryKey :: q.Category(k) == p.Category(k);
  }

  /** The record with the sports sport name removed. */
  function WithoutOtherSportName(p: UserPreferences): UserPreferences
  {
    p.WithCategory(Sports, p.sports.(otherSportName := None))
  }

  /** The page: its navigation state, the drafts of its text inputs, the shown
      errors, and the preference store it edits. */
  class InterestSelectionPage {
    const h: Hierarchy
    const store: Store
    var activeMainCategory: Option<string>
    var activeSubCategory: Option<string>
    var newCustomInterestTag: string
    var newInstructionTag: string
    var activeOtherInput: Option<string>
    var otherSportNameInput: string
    var aiQuestionsError: Option<string>
    var validationErrors: seq<ValidationError>

    /** The store is consistent and the active category is one of the
        taxonomy's, so it is the custom one or names a key of the record. */
    ghost predicate Valid()
      reads this, store
    {
      store.Valid() && WellFormed(h)
      && (activeMainCategory.Some? ==>
            FindCategory(h, activeMainCategory.value).Some?
            && (activeMainCategory.value == CustomCategoryId || KeyOfId(activeMainCategory.value).Some?))
    }

    constructor (h: Hierarchy, store: Store)
      requires WellFormed(h) && store.Valid()
      ensures Valid() && this.h == h && this.store == store
      ensures activeMainCategory == None && activeSubCategory == None && activeOtherInput == None
      ensures newCustomInterestTag == "" && newInstructionTag == ""
      ensures otherSportNameInput == store.preferences.sports.otherSportName.GetOr("")
      ensures aiQuestionsError == None && validationErrors == []
    {
      this.h := h;
      this.store := store;
      activeMainCategory := None;
      activeSubCategory := None;
      newCustomInterestTag := "";
      newInstructionTag := "";
      activeOtherInput := None;
      otherSportNameInput := store.preferences.sports.otherSportName.GetOr("");
      aiQuestionsError := None;
      validationErrors := [];
    }

    /** `handleMainCategorySelect`: a click on the active category closes it,
        any other opens it; leaving sports drops the typed sport name. */
    method HandleMainCategorySelect(category: MainCategory)
      requires Valid() && category in h
      modifies this, store
      ensures Valid()
      ensures activeMainCategory == if old(activeMainCategory) == Some(category.id) then None else Some(category.id)
      ensures activeSubCategory == None && activeOtherInput == None
      ensures newInstructionTag == "" && aiQuestionsError == None && validationErrors == []
      ensures category.id != Sports.Id() ==>
        otherSportNameInput == "" && store.preferences == WithoutOtherSportName(old(store.preferences))
      ensures category.id == Sports.Id() ==>
        otherSportNameInput == old(store.preferences).sports.otherSportName.GetOr("")
        && store.preferences == old(store.preferences)
      ensures newCustomInterestTag == old(newCustomInterestTag)
      ensures KeepsInvariants(old(store.preferences), store.preferences)
    {
      validationErrors := [];
      if activeMainCategory == Some(category.id) {
        activeMainCategory := None;
        activeSubCategory := None;
      } else {
        activeMainCategory := Some(category.id);
        activeSubCategory := None;
      }
      newInstructionTag := "";
      aiQuestionsError := None;
      activeOtherInput := None;
      if category.id != Sports.Id() {
        otherSportNameInput := "";
        var p := store.preferences;
        CategoryUpdateKeepsInvariants(p, Sports, p.sports.(otherSportName := None));
        store.UpdatePreference(CategoryField(Sports, p.sports.(otherSportName := None)));
      } else {
        otherSportNameInput := store.preferences.sports.otherSportName.GetOr("");
      }
    }

    /** `handleSubCategorySelect`: a click on the active sub-category closes
        it, any other opens it; the typed sport name is dropped when "Other"
        closes or another sub-category opens. */
    method HandleSubCategorySelect(sub: SubCategory)
      requires Valid()
      modifies this, store
      ensures Valid()
      ensures activeSubCategory == if old(activeSubCategory) == Some(sub.id) then None else Some(sub.id)
      ensures validationErrors == []
      ensures var clears := if old(activeSubCategory) == Some(sub.id) then sub.id == SportsOtherId else sub.id != SportsOtherId;
        (clears ==> otherSportNameInput == "" && store.preferences == WithoutOtherSportName(old(store.preferences)))
        && (!clears ==> otherSportNameInput == old(otherSportNameInput) && store.preferences == old(store.preferences))
      ensures activeMainCategory == old(activeMainCategory) && activeOtherInput == old(activeOtherInput)
      ensures newCustomInterestTag == old(newCustomInterestTag) && newInstructionTag == old(newInstructionTag)
      ensures aiQuestionsError == old(aiQuestionsError)
      ensures KeepsInvariants(old(store.preferences), store.preferences)
    {
      validationErrors := [];
      var p := store.preferences;
      CategoryUpdateKeepsInvariants(p, Sports, p.sports.(otherSportName := None));
      if activeSubCategory == Some(sub.id) {
        activeSubCategory := None;
        if sub.id == SportsOtherId {
          otherSportNameInput := "";
          store.UpdatePreference(CategoryField(Sports, p.sports.(otherSportName := None)));
        }
      } else {
        activeSubCategory := Some(sub.id);
        if sub.id != SportsOtherId {
          otherSportNameInput := "";
          store.UpdatePreference(CategoryField(Sports, p.sports.(otherSportName := None)));
        }
      }
    }

    /** `handleOtherSportNameChange`: the input always follows the typing; the
        record only while sports and its "Other" sub-category are open. */
    method HandleOtherSportNameChange(newName: string)
      requires Valid()
      modifies this, store
      ensures Valid()
      ensures otherSportNameInput == newName && validationErrors == []
      ensures store.preferences ==
        if old(activeMainCategory) == Some(Sports.Id()) && old(activeSubCategory) == Some(SportsOtherId)
        then old(store.preferences).WithCategory(Sports, old(store.preferences).sports.(otherSportName := Some(newName)))
        else old(store.preferences)
      ensures activeMainCategory == old(activeMainCategory) && activeSubCategory == old(activeSubCategory)
      ensures activeOtherInput == old(activeOtherInput) && aiQuestionsError == old(aiQuestionsError)
      ensures newCustomInterestTag == old(newCustomInterestTag) && newInstructionTag == old(newInstructionTag)
      ensures KeepsInvariants(old(store.preferences), store.preferences)
    {
      validationErrors := [];
      otherSportNameInput := newName;
      if activeMainCategory == Some(Sports.Id()) && activeSubCategory == Some(SportsOtherId) {
        var p := store.preferences;
        CategoryUpdateKeepsInvariants(p, Sports, p.sports.(otherSportName := Some(newName)));
        store.UpdatePreference(CategoryField(Sports, p.sports.(otherSportName := Some(newName))));
      }
    }

    /** `handleTagToggle`. */
    method HandleTagToggle(k: CategoryKey, tagId: string)
      requires Valid()
      modifies this, store
      ensures Valid()
      ensures store.preferences == old(store.preferences).WithCategory(k, WithTagToggled(h, k, old(store.preferences).Category(k), tagId))
      ensures validationErrors == [] && aiQuestionsError == None
      ensures activeMainCategory == old(activeMainCategory) && activeSubCategory == old(activeSubCategory)
      ensures activeOtherInput == old(activeOtherInput) && otherSportNameInput == old(otherSportNameInput)
      ensures newCustomInterestTag == old(newCustomInterestTag) && newInstructionTag == old(newInstructionTag)
      ensures KeepsInvariants(old(store.preferences), store.preferences)
    {
      validationErrors := [];
      var p := store.preferences;
      var c := WithTagToggled(h, k, p.Category(k), tagId);
      CategoryUpdateKeepsInvariants(p, k, c);
      store.SetPreferences(p.WithCategory(k, c));
      aiQuestionsError := None;
    }

    /** `handleFollowUpPredefinedTagToggle`. */
    method HandleFollowUpPredefinedTagToggle(k: CategoryKey, questionId: string, tagLabel: string)
      requires Valid()
      modifies this, store
      ensures Valid()
      ensures store.preferences == old(store.preferences).WithCategory(k, WithPredefinedToggled(old(store.preferences).Category(k), questionId, tagLabel))
      ensures validationErrors == []
      ensures activeMainCategory == old(activeMainCategory) && activeSubCategory == old(activeSubCategory)
      ensures activeOtherInput == old(activeOtherInput) && otherSportNameInput == old(otherSportNameInput)
      ensures newCustomInterestTag == old(newCustomInterestTag) && newInstructionTag == old(newInstructionTag)
      ensures aiQuestionsError == old(aiQuestionsError)
      ensures KeepsInvariants(old(store.preferences), store.preferences)
    {
      validationErrors := [];
      var p := store.preferences;
      var c := WithPredefinedToggled(p.Category(k), questionId, tagLabel);
      CategoryUpdateKeepsInvariants(p, k, c);
      store.SetPreferences(p.WithCategory(k, c));
    }

    /** `handleFollowUpOtherTagToggle`: a click on the open "Other" input
        closes it and clears its text; any other click moves the single open
        slot there and leaves all stored text alone. */
    method HandleFollowUpOtherTagToggle(k: CategoryKey, questionId: string)
      requires Valid()
      modifies this, store
      ensures Valid()
      ensures var wasOpen := old(activeOtherInput) == Some(OtherInputId(k, questionId));
        activeOtherInput == (if wasOpen then None else Some(OtherInputId(k, questionId)))
        && store.preferences == if wasOpen
           then old(store.preferences).WithCategory(k, WithOtherText(old(store.preferences).Category(k), questionId, ""))
           else old(store.preferences)
      ensures validationErrors == []
      ensures activeMainCategory == old(activeMainCategory) && activeSubCategory == old(activeSubCategory)
      ensures otherSportNameInput == old(otherSportNameInput) && aiQuestionsError == old(aiQuestionsError)
      ensures newCustomInterestTag == old(newCustomInterestTag) && newInstructionTag == old(newInstructionTag)
      ensures KeepsInvariants(old(store.preferences), store.preferences)
    {
      validationErrors := [];
      var uniqueInputId := OtherInputId(k, questionId);
      var isCurrentlyActive := activeOtherInput == Some(uniqueInputId);
      activeOtherInput := if isCurrentlyActive then None else Some(uniqueInputId);
      if isCurrentlyActive {
        var p := store.preferences;
        var c := WithOtherText(p.Category(k), questionId, "");
        CategoryUpdateKeepsInvariants(p, k, c);
        store.SetPreferences(p.WithCategory(k, c));
      }
    }

    /** `handleFollowUpOtherInputChange`. */
    method HandleFollowUpOtherInputChange(k: CategoryKey, questionId: string, value: string)
      requires Valid()
      modifies this, store
      ensures Valid()
      ensures store.preferences == old(store.preferences).WithCategory(k, WithOtherText(old(store.preferences).Category(k), questionId, value))
      ensures validationErrors == []
      ensures activeMainCategory == old(activeMainCategory) && activeSubCategory == old(activeSubCategory)
      ensures activeOtherInput == old(activeOtherInput) && otherSportNameInput == old(otherSportNameInput)
      ensures newCustomInterestTag == old(newCustomInterestTag) && newInstructionTag == old(newInstructionTag)
      ensures aiQuestionsError == old(aiQuestionsError)
      ensures KeepsInvariants(old(store.preferences), store.preferences)
    {
      validationErrors := [];
      var p := store.preferences;
      var c := WithOtherText(p.Category(k), questionId, value);
      CategoryUpdateKeepsInvariants(p, k, c);
      store.SetPreferences(p.WithCategory(k, c));
    }

    /** The custom-interest text input. */
    method EditCustomInterestDraft(text: string)
      modifies this
      ensures newCustomInterestTag == text
      ensures newInstructionTag == old(newInstructionTag) && validationErrors == old(validationErrors)
      ensures activeMainCategory == old(activeMainCategory) && activeSubCategory == old(activeSubCategory)
      ensures activeOtherInput == old(activeOtherInput) && otherSportNameInput == old(otherSportNameInput)
      ensures aiQuestionsError == old(aiQuestionsError)
    {
      newCustomInterestTag := text;
    }

    /** The instruction text input. */
    method EditInstructionDraft(text: string)
      modifies this
      ensures newInstructionTag == text
      ensures newCustomInterestTag == old(newCustomInterestTag) && validationErrors == old(validationErrors)
      ensures activeMainCategory == old(activeMainCategory) && activeSubCategory == old(activeSubCategory)
      ensures activeOtherInput == old(activeOtherInput) && otherSportNameInput == old(otherSportNameInput)
      ensures aiQuestionsError == old(aiQuestionsError)
    {
      newInstructionTag := text;
    }

    /** `handleAddCustomInterestTag`: the draft is always cleared. */
    method HandleAddCustomInterestTag()
      requires Valid()
      modifies this, store
      ensures Valid()
      ensures store.preferences == old(store.preferences).(customInterestTags :=
        AddTrimmed(old(store.preferences).customInterestTags, old(newCustomInterestTag)))
      ensures newCustomInterestTag == "" && validationErrors == []
      ensures activeMainCategory == old(activeMainCategory) && activeSubCategory == old(activeSubCategory)
      ensures activeOtherInput == old(activeOtherInput) && otherSportNameInput == old(otherSportNameInput)
      ensures newInstructionTag == old(newInstructionTag) && aiQuestionsError == old(aiQuestionsError)
      ensures KeepsInvariants(old(store.preferences), store.preferences)
    {
      validationErrors := [];
      var tags := store.preferences.customInterestTags;
      var t := Trim(newCustomInterestTag);
      CustomTagsUpdateKeepsInvariants(store.preferences, AddTrimmed(tags, newCustomInterestTag));
      if t != "" && t !in tags {
        store.UpdatePreference(CustomInterestTagsField(tags + [t]));
      }
      newCustomInterestTag := "";
    }

    /** `handleRemoveCustomInterestTag`. */
    method HandleRemoveCustomInterestTag(tagToRemove: string)
      requires Valid()
      modifies this, store
      ensures Valid()
      ensures store.preferences == old(store.preferences).(customInterestTags :=
        Remove(old(store.preferences).customInterestTags, tagToRemove))
      ensures validationErrors == []
      ensures activeMainCategory == old(activeMainCategory) && activeSubCategory == old(activeSubCategory)
      ensures activeOtherInput == old(activeOtherInput) && otherSportNameInput == old(otherSportNameInput)
      ensures newCustomInterestTag == old(newCustomInterestTag) && newInstructionTag == old(newInstructionTag)
      ensures aiQuestionsError == old(aiQuestionsError)
      ensures KeepsInvariants(old(store.preferences), store.preferences)
    {
      validationErrors := [];
      RemoveKeepsNoDup(store.preferences.customInterestTags, tagToRemove);
      CustomTagsUpdateKeepsInvariants(store.preferences, Remove(store.preferences.customInterestTags, tagToRemove));
      store.UpdatePreference(CustomInterestTagsField(Remove(store.preferences.customInterestTags, tagToRemove)));
    }

    /** `handlePopularCustomInterestTagClick`: membership flips. */
    method HandlePopularCustomInterestTagClick(tagLabel: string)
      requires Valid()
      modifies this, store
      ensures Valid()
      ensures store.preferences == old(store.preferences).(customInterestTags :=
        Toggle(old(store.preferences).customInterestTags, tagLabel))
      ensures validationErrors == []
      ensures activeMainCategory == old(activeMainCategory) && activeSubCategory == old(activeSubCategory)
      ensures activeOtherInput == old(activeOtherInput) && otherSportNameInput == old(otherSportNameInput)
      ensures newCustomInterestTag == old(newCustomInterestTag) && newInstructionTag == old(newInstructionTag)
      ensures aiQuestionsError == old(aiQuestionsError)
      ensures KeepsInvariants(old(store.preferences), store.preferences)
    {
      validationErrors := [];
      var tags := store.preferences.customInterestTags;
      if tagLabel !in tags {
        CustomTagsUpdateKeepsInvariants(store.preferences, tags + [tagLabel]);
        store.UpdatePreference(CustomInterestTagsField(tags + [tagLabel]));
      } else {
        HandleRemoveCustomInterestTag(tagLabel);
      }
    }

    /** `handleAddInstructionTag`: the draft is always cleared. */
    method HandleAddInstructionTag(k: CategoryKey)
      requires Valid()
      modifies this, store
      ensures Valid()
      ensures store.preferences == old(store.preferences).WithCategory(k, WithInstructionAdded(old(store.preferences).Category(k), old(newInstructionTag)))
      ensures newInstructionTag == "" && validationErrors == []
      ensures activeMainCategory == old(activeMainCategory) && activeSubCategory == old(activeSubCategory)
      ensures activeOtherInput == old(activeOtherInput) && otherSportNameInput == old(otherSportNameInput)
      ensures newCustomInterestTag == old(newCustomInterestTag) && aiQuestionsError == old(aiQuestionsError)
      ensures KeepsInvariants(old(store.preferences), store.preferences)
    {
      validationErrors := [];
      var p := store.preferences;
      var c := WithInstructionAdded(p.Category(k), newInstructionTag);
      CategoryUpdateKeepsInvariants(p, k, c);
      if Trim(newInstructionTag) != "" {
        store.SetPreferences(p.WithCategory(k, c));
      } else {
        WithCategoryOwnValue(p, k);
      }
      newInstructionTag := "";
    }

    /** `handleRemoveInstructionTag`. */
    method HandleRemoveInstructionTag(k: CategoryKey, tagToRemove: string)
      requires Valid()
      modifies this, store
      ensures Valid()
      ensures store.preferences == old(store.preferences).WithCategory(k, WithInstructionRemoved(old(store.preferences).Category(k), tagToRemove))
      ensures validationErrors == []
      ensures activeMainCategory == old(activeMainCategory) && activeSubCategory == old(activeSubCategory)
      ensures activeOtherInput == old(activeOtherInput) && otherSportNameInput == old(otherSportNameInput)
      ensures newCustomInterestTag == old(newCustomInterestTag) && newInstructionTag == old(newInstructionTag)
      ensures aiQuestionsError == old(aiQuestionsError)
      ensures KeepsInvariants(old(store.preferences), store.preferences)
    {
      validationErrors := [];
      var p := store.preferences;
      var c := WithInstructionRemoved(p.Category(k), tagToRemove);
      CategoryUpdateKeepsInvariants(p, k, c);
      store.SetPreferences(p.WithCategory(k, c));
    }

    /** `handlePopularInstructionTagClick`. */
    method HandlePopularInstructionTagClick(k: CategoryKey, tagLabel: string)
      requires Valid()
      modifies this, store
      ensures Valid()
      ensures store.preferences == old(store.preferences).WithCategory(k, WithInstructionToggled(old(store.preferences).Category(k), tagLabel))
      ensures validationErrors == []
      ensures activeMainCategory == old(activeMainCategory) && activeSubCategory == old(activeSubCategory)
      ensures activeOtherInput == old(activeOtherInput) && otherSportNameInput == old(otherSportNameInput)
      ensures newCustomInterestTag == old(newCustomInterestTag) && newInstructionTag == old(newInstructionTag)
      ensures aiQuestionsError == old(aiQuestionsError)
      ensures KeepsInvariants(old(store.preferences), store.preferences)
    {
      validationErrors := [];
      var p := store.preferences;
      var c := WithInstructionToggled(p.Category(k), tagLabel);
      CategoryUpdateKeepsInvariants(p, k, c);
      store.SetPreferences(p.WithCategory(k, c));
    }

    /** `handleFetchAiQuestions`, with the awaited call's outcome as a
        parameter. Returns the request made of the provider, if any. With no
        active category, or the custom one, nothing happens; with no tags an
        error is shown and the list emptied without a request; otherwise the
        fetched questions are stored unanswered, or on failure an error is
        shown and the list emptied. */
    method HandleFetchAiQuestions(response: FetchResult) returns (request: Option<AiRequest>)
      requires Valid()
      modifies this, store
      ensures Valid()
      ensures validationErrors == []
      ensures old(activeMainCategory).None? || old(activeMainCategory) == Some(CustomCategoryId) ==>
        request == None && store.preferences == old(store.preferences) && aiQuestionsError == old(aiQuestionsError)
      ensures old(activeMainCategory).Some? && old(activeMainCategory) != Some(CustomCategoryId) ==>
        var k := KeyOfId(old(activeMainCategory).value).value;
        var c := old(store.preferences).Category(k);
        var cat := FindCategory(h, k.Id()).value;
        if c.selectedTags == [] then
          request == None && aiQuestionsError == Some(SelectTagsFirst)
          && store.preferences == old(store.preferences).WithCategory(k, c.(aiFollowUpQuestions := Some([])))
        else
          request == Some(AiRequest(cat.caption, TagLabels(h, c.selectedTags)))
          && match response
             case Fetched(qs) =>
               aiQuestionsError == None
               && store.preferences == old(store.preferences).WithCategory(k, c.(aiFollowUpQuestions := Some(Unanswered(qs))))
             case Rejected =>
               aiQuestionsError == Some(FetchFailed)
               && store.preferences == old(store.preferences).WithCategory(k, c.(aiFollowUpQuestions := Some([])))
      ensures activeMainCategory == old(activeMainCategory) && activeSubCategory == old(activeSubCategory)
      ensures activeOtherInput == old(activeOtherInput) && otherSportNameInput == old(otherSportNameInput)
      ensures newCustomInterestTag == old(newCustomInterestTag) && newInstructionTag == old(newInstructionTag)
      ensures KeepsInvariants(old(store.preferences), store.preferences)
    {
      validationErrors := [];
      request := None;
      if activeMainCategory.None? || activeMainCategory.value == CustomCategoryId {
        return;
      }
      var catKey := KeyOfId(activeMainCategory.value).value;
      var currentCategoryData := FindCategory(h, activeMainCategory.value).value;
      var p := store.preferences;
      var categoryPrefs := p.Category(catKey);
      if |categoryPrefs.selectedTags| == 0 {
        aiQuestionsError := Some(SelectTagsFirst);
        var c := categoryPrefs.(aiFollowUpQuestions := Some([]));
        CategoryUpdateKeepsInvariants(p, catKey, c);
        store.SetPreferences(p.WithCategory(catKey, c));
        return;
      }
      aiQuestionsError := None;
      var selectedTagLabels := TagLabels(h, categoryPrefs.selectedTags);
      request := Some(AiRequest(currentCategoryData.caption, selectedTagLabels));
      match response {
        case Fetched(qs) =>
          var c := categoryPrefs.(aiFollowUpQuestions := Some(Unanswered(qs)));
          CategoryUpdateKeepsInvariants(p, catKey, c);
          store.SetPreferences(p.WithCategory(catKey, c));
        case Rejected =>
          aiQuestionsError := Some(FetchFailed);
          var c := categoryPrefs.(aiFollowUpQuestions := Some([]));
          CategoryUpdateKeepsInvariants(p, catKey, c);
          store.SetPreferences(p.WithCategory(catKey, c));
      }
    }

    /** `handleAiAnswerChange`. */
    method HandleAiAnswerChange(k: CategoryKey, questionId: string, answer: string)
      requires Valid()
      modifies this, store
      ensures Valid()
      ensures store.preferences == old(store.preferences).WithCategory(k, WithAiAnswer(old(store.preferences).Category(k), questionId, answer))
      ensures validationErrors == []
      ensures activeMainCategory == old(activeMainCategory) && activeSubCategory == old(activeSubCategory)
      ensures activeOtherInput == old(activeOtherInput) && otherSportNameInput == old(otherSportNameInput)
      ensures newCustomInterestTag == old(newCustomInterestTag) && newInstructionTag == old(newInstructionTag)
      ensures aiQuestionsError == old(aiQuestionsError)
      ensures KeepsInvariants(old(store.preferences), store.preferences)
    {
      validationErrors := [];
      var p := store.preferences;
      var c := WithAiAnswer(p.Category(k), questionId, answer);
      CategoryUpdateKeepsInvariants(p, k, c);
      store.SetPreferences(p.WithCategory(k, c));
    }

    /** `validateSelections`: the errors are collected one check at a time,
        shown, and the wizard may advance exactly when there are none. */
    method ValidateSelections() returns (ok: bool)
      requires Valid()
      modifies this
      ensures Valid()
      ensures validationErrors == SelectionErrors(h, activeMainCategory, activeSubCategory, aiQuestionsError, store.preferences)
      ensures ok <==> validationErrors == []
      ensures activeMainCategory == old(activeMainCategory) && activeSubCategory == old(activeSubCategory)
      ensures activeOtherInput == old(activeOtherInput) && otherSportNameInput == old(otherSportNameInput)
      ensures newCustomInterestTag == old(newCustomInterestTag) && newInstructionTag == old(newInstructionTag)
      ensures aiQuestionsError == old(aiQuestionsError)
    {
      var errors: seq<ValidationError> := [];
      var p := store.preferences;
      if !IsTruthy(activeMainCategory) {
        errors := errors + [NoCategory];
      } else {
        var mainCatData := FindCategory(h, activeMainCategory.value);
        if mainCatData.Some? && mainCatData.value.id != CustomCategoryId
           && mainCatData.value.subCategories.Some? && |mainCatData.value.subCategories.value| > 0 {
          if !IsTruthy(activeSubCategory) {
            errors := errors + [NoSubCategory(mainCatData.value.caption)];
          }
        }
        if mainCatData.Some? && mainCatData.value.id != CustomCategoryId {
          var cat := mainCatData.value;
          var catKey := KeyOfId(cat.id);
          if catKey.Some? && |p.Category(catKey.value).selectedTags| > 0 {
            var ai := p.Category(catKey.value).aiFollowUpQuestions;
            if ai.None? || |ai.value| == 0 {
              if !IsTruthy(aiQuestionsError) && !(ai.Some? && |ai.value| > 0) {
                if ai.None? {
                  errors := errors + [EngageWithAi(cat.caption)];
                }
              }
            }
          } else if cat.id != Sports.Id()
                    || (cat.id == Sports.Id() && (catKey.None? || |p.Category(catKey.value).selectedTags| == 0)
                        && !IsTruthy(p.sports.otherSportName)) {
            errors := errors + [NoInterests(cat.caption)];
          }
        }
      }
      validationErrors := errors;
      ok := |errors| == 0;
    }
  }
}
