/** The dashboard (pages/DashboardPage.tsx): how a selected tag is shown, the
    text colour of a tag chip, which category blocks and rows appear in the
    summary, and the pause and sign-out buttons. */
module Dashboard {
  import opened Util
  import opened Types
  import opened Taxonomy
  import opened GeminiService
  import opened PreferenceStore

  // ----- tag details -----

  /** What a tag chip shows: the label and the optional icon. */
  datatype TagDetails = TagDetails(caption: string, icon: Option<string>)

  /** `getTagDisplayDetails`: the first tag with the id, or the bare id. */
  function TagDisplayDetails(h: Hierarchy, tagId: string): (d: TagDetails)
    ensures d.caption == TagLabel(h, tagId)
    ensures FindTagIn(h, tagId).None? ==> d == TagDetails(tagId, None)
  {
    match FindTagIn(h, tagId)
    case Some(t) => TagDetails(t.caption, t.icon)
    case None => TagDetails(tagId, None)
  }

  /** The details come from the first tag with the id in scan order
      (categories in key order, direct tags before sub-category tags). */
  lemma TagDisplayIsFirstInScanOrder(h: Hierarchy, tagId: string)
    ensures (forall i :: 0 <= i < |ScanOrder(h)| ==> ScanOrder(h)[i].id != tagId)
            ==> TagDisplayDetails(h, tagId) == TagDetails(tagId, None)
    ensures forall i :: FirstWithId(ScanOrder(h), tagId, i) ==>
      TagDisplayDetails(h, tagId) == TagDetails(ScanOrder(h)[i].caption, ScanOrder(h)[i].icon)
  {
    FindTagInIsFirstInScanOrder(h, tagId);
    var scan := ScanOrder(h);
    forall i | FirstWithId(scan, tagId, i)
      ensures TagDisplayDetails(h, tagId) == TagDetails(scan[i].caption, scan[i].icon)
    {
      var j :| FirstWithId(scan, tagId, j) && scan[j] == FindTag(scan, tagId).value;
      assert i == j;
    }
  }

  /** The nested loops of `getTagDisplayDetails`, returning at the first hit. */
  method GetTagDisplayDetails(h: Hierarchy, tagId: string) returns (d: TagDetails)
    ensures d == TagDisplayDetails(h, tagId)
  {
    var i := 0;
    while i < |h|
      invariant 0 <= i <= |h|
      invariant FindTagIn(h, tagId) == FindTagIn(h[i..], tagId)
    {
      var mainCat := h[i];
      assert h[i..][0] == mainCat && h[i..][1..] == h[i + 1..];
      if mainCat.tags.Some? {
        var found := FindTag(mainCat.tags.value, tagId);
        if found.Some? {
          return TagDetails(found.value.caption, found.value.icon);
        }
      }
      if mainCat.subCategories.Some? {
        var subs := mainCat.subCategories.value;
        var j := 0;
        while j < |subs|
          invariant 0 <= j <= |subs|
          invariant FindTagInSubs(subs, tagId) == FindTagInSubs(subs[j..], tagId)
        {
          assert subs[j..][0] == subs[j] && subs[j..][1..] == subs[j + 1..];
          var found := FindTag(subs[j].tags, tagId);
          if found.Some? {
            return TagDetails(found.value.caption, found.value.icon);
          }
          j := j + 1;
        }
      }
      i := i + 1;
    }
    return TagDetails(tagId, None);
  }

  // ----- chip colours -----

  const DefaultTextColor: string := "text-primary-darker"

  /** `getTagTextColor`: the tests in the order the function makes them. */
  function TagTextColor(background: string): string
  {
    if Contains(background, "orange") then "text-orange-700"
    else if Contains(background, "pink") then "text-pink-700"
    else if Contains(background, "purple") then "text-purple-700"
    else if Contains(background, "teal") then "text-teal-700"
    else if Contains(background, "blue") then "text-blue-700"
    else if Contains(background, "primary-lightest") then "text-green-800"
    else DefaultTextColor
  }

  /** The same rules as a table: colour word and text class. */
  const ColorRules: seq<(string, string)> := [
    ("orange", "text-orange-700"), ("pink", "text-pink-700"), ("purple", "text-purple-700"),
    ("teal", "text-teal-700"), ("blue", "text-blue-700"), ("primary-lightest", "text-green-800")]

  /** The class of the first rule whose word occurs in the background, or the
      default when none does. */
  function FirstMatchingRule(rules: seq<(string, string)>, background: string): (cls: string)
    ensures (exists i :: 0 <= i < |rules| && Contains(background, rules[i].0) && cls == rules[i].1
               && forall j :: 0 <= j < i ==> !Contains(background, rules[j].0))
            || ((forall i :: 0 <= i < |rules| ==> !Contains(background, rules[i].0)) && cls == DefaultTextColor)
  {
    if rules == [] then DefaultTextColor
    else if Contains(background, rules[0].0) then
      assert 0 < |rules| && Contains(background, rules[0].0);
      rules[0].1
    else
      var cls := FirstMatchingRule(rules[1..], background);
      if forall i :: 0 <= i < |rules[1..]| ==> !Contains(background, rules[1..][i].0) then
        assert forall i :: 0 <= i < |rules| ==> !Contains(background, rules[i].0) by {
          forall i | 0 < i < |rules| ensures !Contains(background, rules[i].0) {
            assert rules[i] == rules[1..][i - 1];
          }
        }
        cls
      else
        var i :| 0 <= i < |rules[1..]| && Contains(background, rules[1..][i].0) && cls == rules[1..][i].1
                 && forall j :: 0 <= j < i ==> !Contains(background, rules[1..][j].0);
        assert forall j :: 0 <= j < i + 1 ==> !Contains(background, rules[j].0) by {
          forall j | 0 < j < i + 1 ensures !Contains(background, rules[j].0) {
            assert rules[j] == rules[1..][j - 1];
          }
        }
        cls
  }

  /** The chain of tests picks the first matching colour word. */
  lemma TagTextColorIsFirstMatch(background: string)
    ensures TagTextColor(background) == FirstMatchingRule(ColorRules, background)
  {
    var r := ColorRules;
    FirstMatchingRuleStep(r, background);
    FirstMatchingRuleStep(r[1..], background);
    FirstMatchingRuleStep(r[2..], background);
    FirstMatchingRuleStep(r[3..], background);
    FirstMatchingRuleStep(r[4..], background);
    FirstMatchingRuleStep(r[5..], background);
    assert r[1..][1..] == r[2..] && r[2..][1..] == r[3..] && r[3..][1..] == r[4..];
    assert r[4..][1..] == r[5..] && r[5..][1..] == [];
  }

  lemma FirstMatchingRuleStep(rules: seq<(string, string)>, background: string)
    requires rules != []
    ensures FirstMatchingRule(rules, background)
         == if Contains(background, rules[0].0) then rules[0].1 else FirstMatchingRule(rules[1..], background)
  {
  }

  // ----- the category blocks of the summary -----

  /** One fixed follow-up row: the question text and the answer chips. */
  datatype FollowUpRow = FollowUpRow(questionText: string, parts: seq<string>)

  /** The entries whose answer has content, in key order. */
  function AnsweredEntries(answers: FollowUpAnswers): (r: FollowUpAnswers)
    ensures forall e :: e in r <==> e in answers && AnswerHasContent(e.1)
    ensures |r| <= |answers|
  {
    if answers == [] then []
    else (if AnswerHasContent(answers[0].1) then [answers[0]] else []) + AnsweredEntries(answers[1..])
  }

  /** Keeping the answered entries distributes over concatenation, so their
      order and multiplicity are those of the object. */
  lemma {:induction false} AnsweredEntriesConcat(a: FollowUpAnswers, b: FollowUpAnswers)
    ensures AnsweredEntries(a + b) == AnsweredEntries(a) + AnsweredEntries(b)
  {
    if a == [] {
      assert a + b == b;
    } else {
      assert (a + b)[0] == a[0];
      assert (a + b)[1..] == a[1..] + b;
      AnsweredEntriesConcat(a[1..], b);
    }
  }

  /** The fixed follow-up rows in key order; an answer with no chips gives
      no row. */
  function FollowUpRows(h: Hierarchy, k: CategoryKey, answers: FollowUpAnswers): (rows: seq<FollowUpRow>)
    ensures forall r :: r in rows ==> r.parts != []
    ensures rows == [] <==> !SomeAnswerHasContent(answers)
    ensures |rows| <= |answers|
  {
    if answers == [] then []
    else
      var parts := AnswerParts(answers[0].1);
      var rest := FollowUpRows(h, k, answers[1..]);
      assert SomeAnswerHasContent(answers) <==> AnswerHasContent(answers[0].1) || SomeAnswerHasContent(answers[1..]) by {
        if SomeAnswerHasContent(answers[1..]) {
          var i :| 0 <= i < |answers[1..]| && AnswerHasContent(answers[1..][i].1);
          assert answers[i + 1] == answers[1..][i];
        }
        if SomeAnswerHasContent(answers) && !AnswerHasContent(answers[0].1) {
          var i :| 0 <= i < |answers| && AnswerHasContent(answers[i].1);
          assert answers[1..][i - 1] == answers[i];
        }
      }
      (if |parts| == 0 then [] else [FollowUpRow(FollowUpQuestionText(h, k, answers[0].0), parts)]) + rest
  }

  /** The row of one answer entry: the question's text and the answer's chips. */
  function RowOf(h: Hierarchy, k: CategoryKey, e: (string, FollowUpAnswer)): FollowUpRow
  {
    FollowUpRow(FollowUpQuestionText(h, k, e.0), AnswerParts(e.1))
  }

  lemma FollowUpRowsCons(h: Hierarchy, k: CategoryKey, answers: FollowUpAnswers)
    requires answers != []
    ensures FollowUpRows(h, k, answers)
         == (if AnswerHasContent(answers[0].1) then [RowOf(h, k, answers[0])] else []) + FollowUpRows(h, k, answers[1..])
  {
  }

  /** Row `i` is the question text and the chips of the `i`-th answered
      entry, in key order. */
  lemma {:induction false} FollowUpRowsAreAnsweredEntries(h: Hierarchy, k: CategoryKey, answers: FollowUpAnswers)
    ensures |FollowUpRows(h, k, answers)| == |AnsweredEntries(answers)|
    ensures forall i :: 0 <= i < |AnsweredEntries(answers)| ==>
      FollowUpRows(h, k, answers)[i] == RowOf(h, k, AnsweredEntries(answers)[i])
  {
    if answers != [] {
      FollowUpRowsAreAnsweredEntries(h, k, answers[1..]);
      FollowUpRowsCons(h, k, answers);
      var rows := FollowUpRows(h, k, answers);
      var rest := FollowUpRows(h, k, answers[1..]);
      var entries := AnsweredEntries(answers);
      var restEntries := AnsweredEntries(answers[1..]);
      if AnswerHasContent(answers[0].1) {
        assert rows == [RowOf(h, k, answers[0])] + rest;
        assert entries == [answers[0]] + restEntries;
        forall i | 0 < i < |entries|
          ensures rows[i] == RowOf(h, k, entries[i])
        {
          assert rows[i] == rest[i - 1] && entries[i] == restEntries[i - 1];
        }
      } else {
        assert rows == rest;
        assert entries == restEntries;
      }
    }
  }

  /** The content of a shown category block. */
  datatype CategoryBlock = CategoryBlock(
    tags: seq<TagDetails>,
    otherSport: Option<string>,
    followUps: seq<FollowUpRow>,
    instructions: seq<string>,
    aiAnswers: seq<AiFollowUpQuestion>)

  /** What a shown block holds: the chips of every selected tag, the typed
      sport name when not blank, the follow-up rows, the instruction tags and
      the answered AI questions. */
  function BlockOf(h: Hierarchy, k: CategoryKey, c: CategoryPrefs): (b: CategoryBlock)
    ensures |b.tags| == |c.selectedTags|
    ensures forall i :: 0 <= i < |c.selectedTags| ==> b.tags[i] == TagDisplayDetails(h, c.selectedTags[i])
    ensures b.otherSport.Some? <==> OtherSportGiven(k, c)
    ensures OtherSportGiven(k, c) ==> b.otherSport == c.otherSportName
    ensures b.followUps == FollowUpRows(h, k, c.followUpAnswers.GetOr([]))
    ensures b.instructions == c.instructionTags.GetOr([])
    ensures b.aiAnswers == AnsweredOnly(c.aiFollowUpQuestions.GetOr([]))
    ensures forall q :: q in b.aiAnswers <==> q in c.aiFollowUpQuestions.GetOr([]) && AiAnswered(q)
  {
    CategoryBlock(
      seq(|c.selectedTags|, i requires 0 <= i < |c.selectedTags| => TagDisplayDetails(h, c.selectedTags[i])),
      if OtherSportGiven(k, c) then c.otherSportName else None,
      FollowUpRows(h, k, c.followUpAnswers.GetOr([])),
      c.instructionTags.GetOr([]),
      AnsweredOnly(c.aiFollowUpQuestions.GetOr([])))
  }

  /** `renderCategoryPreferences`: the five flags, the fixed answers walked
      until one counts, and no block at all when every flag is off. */
  method RenderCategoryPreferences(h: Hierarchy, k: CategoryKey, c: CategoryPrefs) returns (block: Option<CategoryBlock>)
    ensures block.None? <==> !HasContent(k, c)
    ensures block.Some? ==> block.value == BlockOf(h, k, c)
  {
    var selectedTags := c.selectedTags;
    var followUpAnswers := c.followUpAnswers.GetOr([]);
    var instructionTags := c.instructionTags.GetOr([]);
    var aiFollowUpQuestions := c.aiFollowUpQuestions.GetOr([]);
    var hasSelectedTags := |selectedTags| > 0;
    var hasOtherSportName := OtherSportGiven(k, c);
    var hasFollowUpAnswers := false;
    var i := 0;
    while i < |followUpAnswers|
      invariant 0 <= i <= |followUpAnswers|
      invariant hasFollowUpAnswers == exists j :: 0 <= j < i && AnswerHasContent(followUpAnswers[j].1)
    {
      if AnswerHasContent(followUpAnswers[i].1) {
        hasFollowUpAnswers := true;
        break;
      }
      i := i + 1;
    }
    var hasInstructionTags := |instructionTags| > 0;
    var hasAiFollowUpAnswers := SomeAiAnswered(aiFollowUpQuestions);
    if !hasSelectedTags && !hasFollowUpAnswers && !hasInstructionTags && !hasAiFollowUpAnswers && !hasOtherSportName {
      return None;
    }
    return Some(BlockOf(h, k, c));
  }

  // ----- the page -----

  /** The page's own copy of the pause flag and the store it writes. */
  class DashboardPage {
    const store: Store
    var alertsPausedState: bool

    ghost predicate Valid()
      reads this, store
    {
      store.Valid()
    }

    /** The page's flag shows the stored value. */
    predicate Synced()
      reads this, store
    {
      alertsPausedState == store.preferences.alertsPaused
    }

    constructor (store: Store)
      requires store.Valid()
      ensures Valid() && Synced() && this.store == store
      ensures store.preferences == old(store.preferences)
    {
      this.store := store;
      alertsPausedState := store.preferences.alertsPaused;
    }

    /** `handleToggleAlerts`: the flag is negated and written to the store. */
    method HandleToggleAlerts()
      requires Valid()
      modifies this, store
      ensures Valid()
      ensures alertsPausedState == !old(alertsPausedState)
      ensures store.preferences == Patch(old(store.preferences), AlertsPausedField(!old(alertsPausedState)))
      ensures Synced()
    {
      var newPausedState := !alertsPausedState;
      alertsPausedState := newPausedState;
      store.UpdatePreference(AlertsPausedField(newPausedState));
    }

    /** `handleLogout`: the record goes back to the defaults. */
    method HandleLogout()
      requires Valid()
      modifies store
      ensures Valid()
      ensures store.preferences == InitialPreferences()
      ensures !IsAuthenticated(store.preferences)
    {
      store.ResetPreferences();
      InitialIsSignedOut();
    }
  }

  /** Pausing and then resuming (or the reverse) restores the record. */
  lemma {:induction false} ToggleAlertsTwice(p: UserPreferences)
    ensures Patch(Patch(p, AlertsPausedField(!p.alertsPaused)), AlertsPausedField(p.alertsPaused)) == p
  {
    PatchOverrides(p, AlertsPausedField(!p.alertsPaused), AlertsPausedField(p.alertsPaused));
    PatchWithOwnValue(p, AlertsPausedName);
  }
}
