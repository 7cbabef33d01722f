# Interest preferences onboarding: a Dafny model

This project models the logic behind an onboarding flow for personalised
WhatsApp updates:

- the user signs in with an e-mail address and a WhatsApp number;
- the user picks interest categories (sports, movies & TV, news, YouTube)
  with tags, fixed follow-up answers, instruction tags and AI-generated
  follow-up questions;
- the user chooses a delivery cadence;
- the user then reviews everything on a dashboard.

All of it is held in one preferences record. A context provider keeps that
record and writes it to durable storage after every change.

Modules, one per source file:

- `Util`: sequences and strings as the JavaScript code uses them.
  - `Option`.
  - `filter`/`includes`-based removal and toggling.
  - `String.prototype.trim` over the ECMAScript white-space set.
  - `includes` on strings.
  - Decimal rendering of clock readings.
- `Types` (`types.ts`): the preferences record and its defaults, the
  frequency enum and the four category keys.
  - Optional fields are `Option`s.
  - The `followUpAnswers` object is an association list in insertion order.
- `Taxonomy`: the interest taxonomy.
  - It lives in a constants module that is not part of this model, so it is
    a parameter `h`: a sequence of categories.
  - Each category has optional tags, sub-categories and fixed questions.
- `PreferenceStore` (`contexts/PreferencesContext.tsx`): single-key patch,
  reset, and the `Store` class whose stored copy always equals the
  in-memory record.
- `GeminiService` (`services/geminiService.ts`):
  - tag labels (nested loops with early return);
  - the has-content check;
  - the prompt builder, as an accumulating method proved equal to a
    specification function;
  - code-fence stripping;
  - the mock and fallback results of the follow-up question generator.
- `InterestSelection` (`pages/InterestSelectionPage.tsx`): the page as a
  class whose handlers update its fields and the store. Each record rebuild
  is a pure function with its own contract. Validation is a method that
  pushes errors, proved equal to a function.
- `Dashboard` (`pages/DashboardPage.tsx`):
  - tag display details;
  - chip text colours;
  - which category blocks and follow-up rows render;
  - pausing alerts;
  - logging out.
- `Login` (`pages/LoginPage.tsx`): the e-mail and WhatsApp number rules
  (the two regular expressions written out), the error texts, the sign-in
  gate and the social sign-in.
- `FrequencySettings` (`pages/FrequencySettingsPage.tsx`): choosing a
  cadence, editing the custom time, and the submit check.

Inputs from the world become parameters:

- the answer of the sign-in server (`serverAccepts`);
- the outcome of the question generator (`FetchResult`, `QuestionsOutcome`);
- the millisecond clock (`clock: nat -> nat`).

## Model

| member | source | states |
|---|---|---|
| Util.Remove | pages/InterestSelectionPage.tsx:194 | `filter(t => t !== x)`: exactly the other members survive, and removing an absent element changes nothing |
| Util.RemoveAll | pages/InterestSelectionPage.tsx:96-97 | dropping every member of a list keeps exactly the elements outside it |
| Util.KeepOnly | pages/InterestSelectionPage.tsx:93-98 | the elements kept are exactly those in the list |
| Util.RemoveCounts | pages/InterestSelectionPage.tsx:194 | `filter` keeps every other element exactly as often as it occurs and drops every copy of the removed one |
| Util.RemoveAllCounts | pages/InterestSelectionPage.tsx:96-97 | every element outside the list keeps its number of occurrences; every element inside it has none |
| Util.KeepOnlyCounts | pages/InterestSelectionPage.tsx:93-98 | every element inside the list keeps its number of occurrences; every element outside it has none |
| Util.Toggle | pages/InterestSelectionPage.tsx:89-91 | includes-then-filter-else-append flips membership of the toggled element only, and keeps a duplicate-free list duplicate-free |
| Util.ToggleTwice | pages/InterestSelectionPage.tsx:89-91 | toggling twice restores membership, and the exact sequence when the element was absent |
| Util.KeepOnlyConcat | pages/InterestSelectionPage.tsx:96-97 | keeping distributes over concatenation |
| Util.KeepOnlyNone | pages/InterestSelectionPage.tsx:96-97 | a list with no member in the kept set keeps nothing |
| Util.RemoveKeepsNoDup | pages/InterestSelectionPage.tsx:90 | filtering keeps a list duplicate-free |
| Util.RemoveAllKeepsNoDup | pages/InterestSelectionPage.tsx:97 | filtering out a set keeps a list duplicate-free |
| Util.AppendFreshKeepsNoDup | pages/InterestSelectionPage.tsx:186-187 | appending an absent element keeps a list duplicate-free |
| Util.RemoveAllAfterRemove | pages/InterestSelectionPage.tsx:96-97 | the two filters commute |
| Util.RemoveConcat | pages/InterestSelectionPage.tsx:90 | filtering distributes over concatenation |
| Util.RemoveAllConcat | pages/InterestSelectionPage.tsx:97 | filtering out a set distributes over concatenation |
| Util.RemoveAllIgnoresOutsiders | pages/InterestSelectionPage.tsx:96-97 | removing one member of a set before removing the whole set changes nothing |
| Util.RemoveAllTwice | pages/InterestSelectionPage.tsx:96-97 | removing a subset and then the superset is removing the superset |
| Util.SpaceRun | services/geminiService.ts:154 | the leading white-space run that `trim` drops: all white space, followed by a non-space or the end |
| Util.SpaceRunBefore | services/geminiService.ts:154 | the trailing white-space run that `trim` drops |
| Util.TrimStart | services/geminiService.ts:154 | a suffix of the input whose dropped prefix is all white space and which starts with a non-space |
| Util.TrimEnd | services/geminiService.ts:154 | a prefix of the input whose dropped suffix is all white space and which ends with a non-space |
| Util.NotBlankIffTrimNonEmpty | services/geminiService.ts:55 | `s.trim() !== ''` holds iff `s` has a non-space character |
| Util.TrimEnds | services/geminiService.ts:158 | a trimmed string neither starts nor ends with white space |
| Util.TrimEndExact | services/geminiService.ts:158 | trimming the end stops exactly at the last non-space character |
| Util.TrimOfTrimmed | services/geminiService.ts:158 | trimming is the identity on a string with no white space at its ends |
| Util.Contains | pages/DashboardPage.tsx:13-18 | `includes` holds iff the needle occurs at some position |
| Util.DigitChar | services/geminiService.ts:185 | a decimal digit renders as a digit character |
| Util.NatToString | services/geminiService.ts:185 | `Date.now().toString()` is a non-empty string of digits |
| Util.DigitCharInjective | services/geminiService.ts:227 | distinct digits render differently |
| Util.NatToStringInjective | services/geminiService.ts:227 | distinct numbers render as distinct strings |
| Types.FrequenciesAreFourDistinct | types.ts:3-8 | exactly four frequencies, every value among them, their texts pairwise distinct |
| Types.Keys | types.ts:15-17 | the question ids of a follow-up answer object, position by position, in insertion order (the enumeration order of an object with no array-index keys) |
| Types.Lookup | types.ts:15-17 | a property read finds a value iff the id is a key |
| Types.Put | pages/InterestSelectionPage.tsx:125-128 | an object spread with one computed key sets that key, leaves the others alone, and keeps or appends the key |
| Types.PutKeepsKeysDistinct | pages/InterestSelectionPage.tsx:125-128 | an object's keys stay distinct after a spread |
| Types.KeyOfId | types.ts:86 | each of the four keys is recovered from its id |
| Types.CategoryKeysAreFourDistinct | types.ts:86 | exactly four category keys, with distinct ids |
| Types.UserPreferences.WithCategory | pages/InterestSelectionPage.tsx:102-105 | `{...prev, [key]: c}` replaces that category and nothing else |
| Types.WithCategoryOwnValue | pages/InterestSelectionPage.tsx:102-105 | writing back a category's own value changes nothing |
| Types.RecordsEqualByParts | types.ts:34-47 | a record is determined by its profile fields and its four categories |
| Types.InitialPreferences | types.ts:49-61 | every category empty with defined empty lists and `{}` answers, only sports has an undefined other-sport slot, Morning Digest, WhatsApp, alerts on, no custom time, empty e-mail and number |
| Types.InitialIsSignedOut | App.tsx:13 | the default record is not authenticated |
| Types.InitialAiListsDefined | types.ts:53-56 | every category of the defaults has a defined AI question list |
| Taxonomy.FindCategory | services/geminiService.ts:33 | the category with that id, and none exactly when no category has it |
| Taxonomy.FindSubCategory | pages/InterestSelectionPage.tsx:94 | `find` returns the first sub-category with that id, and nothing exactly when no sub-category has it |
| Taxonomy.TagIds | pages/InterestSelectionPage.tsx:96 | the ids of the tags, in order |
| Taxonomy.FindTag | services/geminiService.ts:19 | `find` returns the first tag with that id, and nothing exactly when none has it |
| Taxonomy.FindTagConcat | services/geminiService.ts:16-28 | searching two lists is searching the first, then the second |
| Taxonomy.FindTagInSubsIsScan | services/geminiService.ts:22-27 | the sub-category loop finds the first match in the sub-categories' tags |
| Taxonomy.FindTagInIsFirstInScanOrder | services/geminiService.ts:15-30 | the nested search finds the first match in the scan order: each category's direct tags, then its sub-categories' tags |
| Taxonomy.FollowUpQuestionText | services/geminiService.ts:32-36 | the id itself when the category has no question with that id, otherwise the text of the first question with that id |
| Taxonomy.FindQuestion | services/geminiService.ts:34 | `find` returns the first question with that id, and nothing exactly when no question has it |
| PreferenceStore.Get | contexts/PreferencesContext.tsx:22 | reading a key yields a field of that key |
| PreferenceStore.Patch | contexts/PreferencesContext.tsx:22-24 | `updatePreference(k, v)` sets key k to v and leaves every other key unchanged |
| PreferenceStore.RecordDeterminedByKeys | types.ts:34-47 | two records agreeing on every key are equal |
| PreferenceStore.PatchIdempotent | contexts/PreferencesContext.tsx:22-24 | applying the same update twice is applying it once |
| PreferenceStore.PatchOverrides | contexts/PreferencesContext.tsx:22-24 | a later update of the same key overrides an earlier one |
| PreferenceStore.PatchWithOwnValue | contexts/PreferencesContext.tsx:22-24 | writing a key's own value changes nothing |
| PreferenceStore.Store.constructor | contexts/PreferencesContext.tsx:15-16 | the record starts as the stored document, or the defaults when there is none, and the stored copy equals it |
| PreferenceStore.Store.Persist | contexts/PreferencesContext.tsx:18-20 | the effect replaces the stored document with the whole record |
| PreferenceStore.Store.SetPreferences | contexts/PreferencesContext.tsx:16-20 | the record becomes the given one and is stored |
| PreferenceStore.Store.UpdatePreference | contexts/PreferencesContext.tsx:22-24 | the record becomes the single-key patch of the old one and is stored |
| PreferenceStore.Store.ResetPreferences | contexts/PreferencesContext.tsx:26-28 | the record becomes exactly the defaults and is stored |
| GeminiService.TagLabelIsFirstMatch | services/geminiService.ts:15-30 | the label of the first tag with that id in scan order, or the id itself when no tag has it |
| GeminiService.GetTagLabel | services/geminiService.ts:15-30 | the nested loops with early return compute that label |
| GeminiService.TagLabels | pages/InterestSelectionPage.tsx:279 | `map(getTagLabel)`: same length, each element the label of its id |
| GeminiService.CategoryHasContent | services/geminiService.ts:44-62 | the flag-setting loop with `break` computes the has-content predicate: tags, a non-blank sports other name, an answer with content, instruction tags, or a non-blank AI answer |
| GeminiService.AnswerParts | services/geminiService.ts:77-83 | the predefined labels in order, then the "Other" part; non-empty iff the answer has a label or non-blank "Other" text |
| GeminiService.FixedQaLinesEmptyIff | services/geminiService.ts:85-93 | the fixed Q&A lines are empty iff no answer has content, so the header shows only when some answer does |
| GeminiService.AiQaLinesEmptyIff | services/geminiService.ts:98-105 | the AI Q&A lines are empty iff no AI answer is non-blank |
| GeminiService.AnsweredOnly | services/geminiService.ts:101 | the questions kept are exactly those with a non-blank answer |
| GeminiService.AllQaLinesConcat | services/geminiService.ts:100-104 | the Q&A lines of two lists are the lines of the first, then of the second |
| GeminiService.AnsweredOnlySnoc | services/geminiService.ts:100-104 | filtering a list extended by one question keeps that question iff it is answered |
| GeminiService.AiQaLinesAreAnsweredOnes | services/geminiService.ts:100-104 | the AI lines are exactly the Q&A lines of the answered questions, in order |
| GeminiService.SectionHasBody | services/geminiService.ts:64-106 | a category with content gets a heading and at least one line under it |
| GeminiService.FixedQaOutput | services/geminiService.ts:72-90 | the loop builds the heading plus the lines, and its flag is set iff some answer has content |
| GeminiService.FixedQaLinesSnoc | services/geminiService.ts:75-90 | one more answer adds exactly its own line |
| GeminiService.SomeAnswerHasContentSnoc | services/geminiService.ts:52-60 | one more answer has content iff the earlier ones or the new one do |
| GeminiService.AppendAiQa | services/geminiService.ts:100-104 | the `forEach` appends exactly the AI Q&A lines |
| GeminiService.AppendTagsLine | services/geminiService.ts:66-68 | appends the interests line iff there are tags |
| GeminiService.AppendOtherSportLine | services/geminiService.ts:69-71 | appends the trimmed other-sport line for sports with a non-blank name |
| GeminiService.AppendFixedQa | services/geminiService.ts:72-94 | appends the fixed Q&A block only when some answer has content |
| GeminiService.AppendInstructionsLine | services/geminiService.ts:95-97 | appends the instructions line iff there are instruction tags |
| GeminiService.AppendAiBlock | services/geminiService.ts:98-105 | appends the AI block only when some AI answer is non-blank |
| GeminiService.ProcessCategory | services/geminiService.ts:44-107 | appends the category section, which is empty exactly when the category has no content |
| GeminiService.FormatPreferencesForPrompt | services/geminiService.ts:38-119 | the header lines, the four sections in the order sports, movies & TV, news, YouTube, then the custom-interests line iff that list is non-empty |
| GeminiService.FrequencyLineNamesTime | services/geminiService.ts:42 | `" at <time>"` is appended iff the frequency is Custom and a non-empty time is set |
| GeminiService.WordRun | services/geminiService.ts:155 | the `\w*` run after the opening fence: word characters, followed by a non-word character or the end |
| GeminiService.FenceBody | services/geminiService.ts:155-157 | the fence pattern matches iff the trimmed text starts and ends with three backticks (and is at least six long); the captured body has no white space at its ends |
| GeminiService.StripCodeFenceIsTrimmed | services/geminiService.ts:154-159 | the cleaned reply is always trimmed |
| GeminiService.StripCodeFenceLeavesPlainText | services/geminiService.ts:154-159 | a reply not starting with a fence is only trimmed |
| GeminiService.WordRunExact | services/geminiService.ts:155 | the word run stops exactly at the first non-word character |
| GeminiService.StripCodeFenceOfBody | services/geminiService.ts:157-158 | with a non-empty captured body the result is that body trimmed |
| GeminiService.StripCodeFenceUnwrapped | services/geminiService.ts:157 | without a match or with an empty body the text is only trimmed |
| GeminiService.StripCodeFenceRoundTrip | services/geminiService.ts:154-159 | a trimmed non-empty body wrapped in a fence with a word-character language tag comes back unchanged |
| GeminiService.StripCodeFenceOfTrimmedBody | services/geminiService.ts:154-159 | a trimmed text with a trimmed non-empty body yields that body |
| GeminiService.FencedIsTrimmed | services/geminiService.ts:154 | a fenced reply is already trimmed |
| GeminiService.FenceBodyOfFenced | services/geminiService.ts:155-156 | the pattern captures exactly the body of a fenced reply |
| GeminiService.FencedLayout | services/geminiService.ts:155 | where the fence, language tag, newline and body sit in a fenced reply |
| GeminiService.FenceBodyAfterWord | services/geminiService.ts:155 | after the tag and a newline, the capture is the rest up to the closing fence, trimmed at its end |
| GeminiService.GenerateAiFollowUpQuestions | services/geminiService.ts:181-239 | a parsed array gives one question per item with that text; without a key, or on any failure, exactly two questions; on failure exactly the fallback pair |
| GeminiService.FallbackQuestionsNameCategory | services/geminiService.ts:234-237 | both fallback questions mention the category |
| GeminiService.DigitsThenUnderscore | services/geminiService.ts:185-186 | an id made of a clock reading, `_` and a suffix determines both parts |
| GeminiService.GeneratedIdsDistinct | services/geminiService.ts:184-237 | the questions of one result have pairwise distinct ids, however the clock moves |
| InterestSelection.ToggledTags | pages/InterestSelectionPage.tsx:89-98 | the toggled tag flips, other tags keep membership except the other duration tags of a YouTube duration toggle, and no duplicates appear |
| InterestSelection.WithTagToggled | pages/InterestSelectionPage.tsx:86-106 | the tag flips; the AI list becomes `[]` exactly when the new tags and the old AI list are both non-empty, and is otherwise unchanged; nothing else changes |
| InterestSelection.TagToggleTwice | pages/InterestSelectionPage.tsx:89-91 | outside the duration group, toggling twice restores tag membership, and the exact list when the tag was absent |
| InterestSelection.DurationToggleIsExclusive | pages/InterestSelectionPage.tsx:93-98 | after a YouTube duration toggle the only duration tag left is the toggled one when it was off (none when it was on), and non-duration tags are untouched |
| InterestSelection.ExclusiveToggleKeepsOutsiders | pages/InterestSelectionPage.tsx:89-98 | toggle then filter leaves the non-duration tags as they were |
| InterestSelection.ExclusiveToggleLeavesOne | pages/InterestSelectionPage.tsx:89-98 | toggle then filter leaves at most the toggled duration tag |
| InterestSelection.WithPredefinedToggled | pages/InterestSelectionPage.tsx:110-131 | flips exactly one label in one question's answer, starting from `{[], ''}` when absent; other questions and fields unchanged |
| InterestSelection.WithOtherText | pages/InterestSelectionPage.tsx:159-176 | sets that question's "Other" text, starting from `{[]}` when absent; other questions and fields unchanged |
| InterestSelection.AddTrimmed | pages/InterestSelectionPage.tsx:186-188 | the list changes iff the trimmed draft is non-empty and absent, and then gains exactly it at the end; stays duplicate-free |
| InterestSelection.WithInstructionAdded | pages/InterestSelectionPage.tsx:206-225 | the instruction list becomes the trimmed-add of the draft, and the record is unchanged iff the list is |
| InterestSelection.WithInstructionRemoved | pages/InterestSelectionPage.tsx:227-239 | exactly the other tags remain; removing an absent tag keeps the list |
| InterestSelection.WithInstructionToggled | pages/InterestSelectionPage.tsx:241-258 | the popular tag's membership flips, others keep theirs, no duplicates appear |
| InterestSelection.Unanswered | pages/InterestSelectionPage.tsx:286 | every fetched question keeps its id and text and gets an empty answer |
| InterestSelection.WithAiAnswer | pages/InterestSelectionPage.tsx:298-313 | same length and ids; only questions with that id take the new answer |
| InterestSelection.AiAnswerOverrides | pages/InterestSelectionPage.tsx:298-313 | a second answer to the same question replaces the first |
| InterestSelection.ValidationWithoutCategory | pages/InterestSelectionPage.tsx:317-318 | with no active category the result is exactly the one category error |
| InterestSelection.ValidationNeedsSubCategory | pages/InterestSelectionPage.tsx:321-324 | a category with sub-categories and none active yields the sub-category error |
| InterestSelection.ValidationNeedsInterests | pages/InterestSelectionPage.tsx:343-345 | "select some interests" appears iff the category has no tags and is not sports with a non-empty other-sport name |
| InterestSelection.EngagementNeedsUndefinedList | pages/InterestSelectionPage.tsx:329-340 | the engagement error needs tags, an undefined AI list and no fetch error |
| InterestSelection.ValidationSeesOnlyActiveCategory | pages/InterestSelectionPage.tsx:315-347 | the errors depend only on the active category's record (and the sports other name) |
| InterestSelection.DefinedListsNeverAskToEngage | pages/InterestSelectionPage.tsx:337-339 | when every AI list is defined the engagement error never appears |
| InterestSelection.InitialListsDistinct | types.ts:49-61 | the defaults have duplicate-free lists |
| InterestSelection.CategoryUpdateKeepsInvariants | pages/InterestSelectionPage.tsx:102-105 | a category update that keeps its lists distinct and its AI list defined keeps both invariants |
| InterestSelection.CustomTagsUpdateKeepsInvariants | pages/InterestSelectionPage.tsx:187 | a custom-interest update that keeps the list distinct keeps both invariants |
| InterestSelection.InterestSelectionPage.constructor | pages/InterestSelectionPage.tsx:19-32 | nothing active, empty drafts, the other-sport input restored from the record, no errors |
| InterestSelection.InterestSelectionPage.HandleMainCategorySelect | pages/InterestSelectionPage.tsx:36-56 | selecting the active category deselects it; sub-category, "Other" slot, instruction draft and AI error reset; leaving sports clears the other-sport name |
| InterestSelection.InterestSelectionPage.HandleSubCategorySelect | pages/InterestSelectionPage.tsx:58-73 | toggles the active sub-category and clears the other-sport name on deselecting "Other sport" or choosing a different one |
| InterestSelection.InterestSelectionPage.HandleOtherSportNameChange | pages/InterestSelectionPage.tsx:75-82 | the input follows; the record only while sports and "Other sport" are active |
| InterestSelection.InterestSelectionPage.HandleTagToggle | pages/InterestSelectionPage.tsx:84-108 | replaces the category by its tag-toggled version and clears the AI error |
| InterestSelection.InterestSelectionPage.HandleFollowUpPredefinedTagToggle | pages/InterestSelectionPage.tsx:110-132 | replaces the category by its label-toggled version |
| InterestSelection.InterestSelectionPage.HandleFollowUpOtherTagToggle | pages/InterestSelectionPage.tsx:134-157 | toggling the open "Other" id closes it and blanks that answer's text; another id just moves the slot |
| InterestSelection.InterestSelectionPage.HandleFollowUpOtherInputChange | pages/InterestSelectionPage.tsx:159-176 | replaces the category by its version with the new "Other" text |
| InterestSelection.InterestSelectionPage.EditCustomInterestDraft | pages/InterestSelectionPage.tsx:714 | the custom-interest draft follows the input |
| InterestSelection.InterestSelectionPage.EditInstructionDraft | pages/InterestSelectionPage.tsx:614 | the instruction draft follows the input |
| InterestSelection.InterestSelectionPage.HandleAddCustomInterestTag | pages/InterestSelectionPage.tsx:184-190 | appends the trimmed draft when non-empty and absent, and always clears the draft |
| InterestSelection.InterestSelectionPage.HandleRemoveCustomInterestTag | pages/InterestSelectionPage.tsx:192-195 | removes the tag; an absent tag is a no-op |
| InterestSelection.InterestSelectionPage.HandlePopularCustomInterestTagClick | pages/InterestSelectionPage.tsx:197-204 | toggles the tag's membership |
| InterestSelection.InterestSelectionPage.HandleAddInstructionTag | pages/InterestSelectionPage.tsx:206-225 | adds the trimmed draft to the category's instructions and clears the draft |
| InterestSelection.InterestSelectionPage.HandleRemoveInstructionTag | pages/InterestSelectionPage.tsx:227-239 | removes the instruction tag from that category |
| InterestSelection.InterestSelectionPage.HandlePopularInstructionTagClick | pages/InterestSelectionPage.tsx:241-258 | toggles the instruction tag in that category |
| InterestSelection.InterestSelectionPage.HandleFetchAiQuestions | pages/InterestSelectionPage.tsx:260-296 | no-op without a category or for custom; with no tags, an error and an empty list and no request; otherwise a request with the category label and tag labels, then the questions with empty answers, or an error and `[]` |
| InterestSelection.InterestSelectionPage.HandleAiAnswerChange | pages/InterestSelectionPage.tsx:298-313 | replaces the category by its version with the new answer |
| InterestSelection.InterestSelectionPage.ValidateSelections | pages/InterestSelectionPage.tsx:315-352 | the pushed errors are exactly the selection errors of the state, and the result is true iff there are none |
| Dashboard.TagDisplayDetails | pages/DashboardPage.tsx:60-81 | the caption is the tag label, and `{label: tagId}` with no icon when nothing matches |
| Dashboard.TagDisplayIsFirstInScanOrder | pages/DashboardPage.tsx:60-81 | the first matching tag's label and icon in scan order, or the id alone |
| Dashboard.GetTagDisplayDetails | pages/DashboardPage.tsx:60-81 | the nested loops with early return compute those details |
| Dashboard.FirstMatchingRule | pages/DashboardPage.tsx:12-20 | the class of the first rule whose word occurs in the colour, or the default when none does |
| Dashboard.TagTextColorIsFirstMatch | pages/DashboardPage.tsx:12-20 | the colour chain is the first match over orange, pink, purple, teal, blue, primary-lightest |
| Dashboard.FirstMatchingRuleStep | pages/DashboardPage.tsx:12-20 | the first match over a rule list is the head rule or the first match of the rest |
| Dashboard.FollowUpRows | pages/DashboardPage.tsx:144-165 | every rendered row has parts, there is no row iff no answer has content, and there are at most as many rows as answers |
| Dashboard.AnsweredEntriesConcat | pages/DashboardPage.tsx:144-165 | the answered entries of a concatenation are those of each part in turn, so they keep the object's key order |
| Dashboard.FollowUpRowsAreAnsweredEntries | pages/DashboardPage.tsx:144-165 | row i is the question text and the answer chips of the i-th entry whose answer has content, in key order, and there are as many rows as such entries |
| Dashboard.BlockOf | pages/DashboardPage.tsx:115-195 | the block's chips are the details of the selected tags, position by position; it shows the typed sports name iff it is non-blank; its follow-up rows are FollowUpRows of the answers; its instructions are the instruction tags; its AI rows are the answered questions, in order |
| Dashboard.RenderCategoryPreferences | pages/DashboardPage.tsx:89-196 | null iff the category has no content (the same predicate as the prompt builder), else the block |
| Dashboard.DashboardPage.constructor | pages/DashboardPage.tsx:47 | the paused flag starts as the record's |
| Dashboard.DashboardPage.HandleToggleAlerts | pages/DashboardPage.tsx:49-53 | negates the flag, writes the same value to the record, so the two are in step afterwards whatever they were before |
| Dashboard.DashboardPage.HandleLogout | pages/DashboardPage.tsx:55-58 | the record becomes the defaults, which are signed out |
| Dashboard.ToggleAlertsTwice | pages/DashboardPage.tsx:49-53 | pausing and then resuming restores the record |
| Login.EmailMatchIsUnanchored | pages/LoginPage.tsx:22 | text around a matching address does not stop the match |
| Login.EmailMatchShape | pages/LoginPage.tsx:22 | a matching address has an `@`, a `.` and at least five characters |
| Login.SocialEmailsMatch | pages/LoginPage.tsx:80 | both demo addresses of the social sign-in pass the rule |
| Login.EmailError | pages/LoginPage.tsx:17-28 | an empty value gets "Email is required.", a non-empty value that does not match gets "Please enter a valid email address.", and the error is empty iff the value is non-empty and matches |
| Login.PlusIsOptional | pages/LoginPage.tsx:35 | a digit string passes with or without a leading `+` |
| Login.PhoneLength | pages/LoginPage.tsx:35 | an accepted number is 2 to 16 characters, all digits except a leading `+` |
| Login.DefaultWhatsappMatches | pages/LoginPage.tsx:84-87 | the demo number `+1234567890` passes the rule |
| Login.WhatsappError | pages/LoginPage.tsx:30-41 | an empty value gets "WhatsApp number is required.", a non-empty value that does not match gets "Please enter a valid WhatsApp number (e.g., +1234567890).", and the error is empty iff the value is non-empty and matches |
| Login.LoginPage.constructor | pages/LoginPage.tsx:12-15 | the inputs start from the record, the errors empty |
| Login.LoginPage.ValidateEmail | pages/LoginPage.tsx:17-28 | sets the e-mail error and returns true iff it is empty |
| Login.LoginPage.ValidateWhatsappNumber | pages/LoginPage.tsx:30-41 | sets the number error and returns true iff it is empty |
| Login.LoginPage.HandleLogin | pages/LoginPage.tsx:43-75 | both checks always run; the request is sent iff both pass; an accepted request stores the e-mail and number, confirmed, and the user is then authenticated |
| Login.LoginPage.HandleSocialLogin | pages/LoginPage.tsx:78-98 | stores the provider's demo address; an empty number becomes `+1234567890`; a passing number is stored and confirmed, otherwise the social-login error shows; an empty number always signs in |
| Login.LoginPage.EditEmail | pages/LoginPage.tsx:119 | the input follows, and is re-checked only while an error shows |
| Login.LoginPage.BlurEmail | pages/LoginPage.tsx:120 | leaving the input checks it |
| Login.LoginPage.EditWhatsappNumber | pages/LoginPage.tsx:132 | the input follows, and is re-checked only while an error shows |
| Login.LoginPage.BlurWhatsappNumber | pages/LoginPage.tsx:133 | leaving the input checks it |
| FrequencySettings.InitialTimeRule | types.ts:57-60 | the defaults keep no custom time under a non-Custom frequency |
| FrequencySettings.StartingTime | pages/FrequencySettingsPage.tsx:16 | the input starts from a non-empty saved time, else 09:00; never empty |
| FrequencySettings.FrequencySettingsPage.constructor | pages/FrequencySettingsPage.tsx:16-17 | the time input starts from the saved time, the error empty |
| FrequencySettings.FrequencySettingsPage.HandleFrequencyTagSelect | pages/FrequencySettingsPage.tsx:21-29 | another frequency drops the stored time and the error; Custom stores the shown time; the time rule holds afterwards |
| FrequencySettings.FrequencySettingsPage.HandleTimeChange | pages/FrequencySettingsPage.tsx:31-40 | the input always follows; the store only under Custom; a non-empty time clears the error; the time rule is kept |
| FrequencySettings.FrequencySettingsPage.HandleSubmit | pages/FrequencySettingsPage.tsx:42-50 | blocked with the error iff Custom with an empty time, otherwise the error clears and the page proceeds |

## Left out

- Rendering, CSS classes, the preview-message selection, `SectionCard` and `LoadingSpinner`: these are display only. `isTagSelected` (pages/InterestSelectionPage.tsx:179-182) only feeds rendering.
- Routing and `navigate(...)`: `HandleSubmit` returns whether the page moves on. App.tsx keeps only the `isAuthenticated` rule (`Types.IsAuthenticated`).
- The Gemini SDK, `JSON.parse`, `process.env` and `console`: the reply is a `QuestionsOutcome` parameter, and code-fence stripping is modelled on the text.
- `generateSampleMessage` (services/geminiService.ts:121-179): it builds the prompt that `FormatPreferencesForPrompt` models, and otherwise only calls the SDK.
- `HandleFetchAiQuestions`: the generator never throws, so the `catch` branch is reached only through the `Rejected` parameter value.
- `isLoadingAiQuestions`: handlers run to completion here, so the flag is false between events. The engagement check therefore reads it as false.
- The `fetch` to `/login` and `localStorage`: the server's verdict is the `serverAccepts` parameter. Storage is the `stored` field that `Store.Persist` overwrites.
- `Date.now()`: it is the `clock` parameter.
- The `dynamicPredefinedTags` selection (pages/InterestSelectionPage.tsx:522-533): it depends on taxonomy fields that are not part of this model.
- The constants module (taxonomy contents, `EXAMPLE_NOTIFICATIONS`, `ICONS`) is not part of this model. The taxonomy is the parameter `h`.
- `FrequencySettings.FrequencySettingsPage.constructor`: it does not establish `Synced`. A saved Custom frequency with an empty or missing time shows 09:00 while the record keeps the empty time until the time or the frequency is changed. `HandleSubmit` therefore promises a stored non-empty time only when `Synced` holds.
- Types.Keys and Types.Put: a follow-up answer object is an association list in pure insertion order. JavaScript enumerates array-index keys such as "0" or "2" first, in ascending numeric order, and only then the other keys in insertion order. The model therefore assumes that no question id is an array-index string. For such an id, the order of the prompt lines and dashboard rows the model gives may differ from what the program prints.
- Strings are sequences of UTF-16 code units as `char`. Neither the regular expressions nor `trim` depend on anything beyond that.
