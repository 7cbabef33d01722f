/** The text-building parts of the language-model service
    (services/geminiService.ts): tag labels, the preference summary sent as a
    prompt, the stripping of a Markdown code fence from a reply, and the
    shape of the follow-up questions it hands back. The model call itself is
    an input. */
module GeminiService {
  import opened Util
  import opened Types
  import opened Taxonomy

  // ----- tag labels -----

  /** `getTagLabel`: the label of the first tag with this id, or the id itself. */
  function TagLabel(h: Hierarchy, tagId: string): string
  {
    match FindTagIn(h, tagId)
    case Some(t) => t.caption
    case None => tagId
  }

  /** The label is that of the first tag with the id in scan order (categories
      in key order, direct tags before sub-category tags), and the id itself
      when no tag has it. */
  lemma TagLabelIsFirstMatch(h: Hierarchy, tagId: string)
    ensures (forall i :: 0 <= i < |ScanOrder(h)| ==> ScanOrder(h)[i].id != tagId) ==> TagLabel(h, tagId) == tagId
    ensures forall i :: FirstWithId(ScanOrder(h), tagId, i) ==> TagLabel(h, tagId) == ScanOrder(h)[i].caption
  {
    FindTagInIsFirstInScanOrder(h, tagId);
  }

  /** `getTagLabel` as written: a walk over the categories, each one's direct
      tags searched before its sub-categories, returning at the first hit. */
  method GetTagLabel(h: Hierarchy, tagId: string) returns (text: string)
    ensures text == TagLabel(h, tagId)
  {
    var i := 0;
    while i < |h|
      invariant 0 <= i <= |h|
      invariant FindTagIn(h, tagId) == FindTagIn(h[i..], tagId)
    {
      var mainCat := h[i];
      assert h[i..][0] == mainCat && h[i..][1..] == h[i + 1..];
      if mainCat.tags.Some? {
        var found := FindTag(mainCat.tags.value, tagId);
        if found.Some? {
          return found.value.caption;
        }
      }
      if mainCat.subCategories.Some? {
        var subs := mainCat.subCategories.value;
        var j := 0;
        while j < |subs|
          invariant 0 <= j <= |subs|
          invariant FindTagInSubs(subs, tagId) == FindTagInSubs(subs[j..], tagId)
        {
          assert subs[j..][0] == subs[j] && subs[j..][1..] == subs[j + 1..];
          var found := FindTag(subs[j].tags, tagId);
          if found.Some? {
            return found.value.caption;
          }
          j := j + 1;
        }
      }
      i := i + 1;
    }
    return tagId;
  }

  /** `selectedTags.map(getTagLabel)`. */
  function TagLabels(h: Hierarchy, ids: seq<string>): (labels: seq<string>)
    ensures |labels| == |ids|
    ensures forall i :: 0 <= i < |ids| ==> labels[i] == TagLabel(h, ids[i])
  {
    if ids == [] then [] else [TagLabel(h, ids[0])] + TagLabels(h, ids[1..])
  }

  // ----- does a category have anything to report -----

  /** A fixed follow-up answer counts when a predefined tag is chosen or the
      "Other" text is not blank. */
  predicate AnswerHasContent(a: FollowUpAnswer)
  {
    |a.selectedPredefinedTags| > 0
    || (a.customAnswerViaOther.Some? && NotBlank(a.customAnswerViaOther.value))
  }

  predicate SomeAnswerHasContent(entries: FollowUpAnswers)
  {
    exists i :: 0 <= i < |entries| && AnswerHasContent(entries[i].1)
  }

  /** An AI question counts when its answer is not blank. */
  predicate AiAnswered(q: AiFollowUpQuestion)
  {
    NotBlank(q.answer)
  }

  predicate SomeAiAnswered(qs: seq<AiFollowUpQuestion>)
  {
    exists i :: 0 <= i < |qs| && AiAnswered(qs[i])
  }

  /** The free-text sport name of the sports category, when not blank. */
  predicate OtherSportGiven(k: CategoryKey, c: CategoryPrefs)
  {
    k == Sports && c.otherSportName.Some? && NotBlank(c.otherSportName.value)
  }

  /** A category is summarised when any of its five kinds of input is present. */
  predicate HasContent(k: CategoryKey, c: CategoryPrefs)
  {
    |c.selectedTags| > 0
    || OtherSportGiven(k, c)
    || (c.followUpAnswers.Some? && SomeAnswerHasContent(c.followUpAnswers.value))
    || (c.instructionTags.Some? && |c.instructionTags.value| > 0)
    || (c.aiFollowUpQuestions.Some? && SomeAiAnswered(c.aiFollowUpQuestions.value))
  }

  /** The `categoryHasContent` flag as the prompt builder computes it: five
      tests, the fixed answers walked in key order until one counts. */
  method CategoryHasContent(k: CategoryKey, c: CategoryPrefs) returns (b: bool)
    ensures b == HasContent(k, c)
  {
    b := false;
    if |c.selectedTags| > 0 {
      b := true;
    }
    if OtherSportGiven(k, c) {
      b := true;
    }
    if c.followUpAnswers.Some? {
      var entries := c.followUpAnswers.value;
      ghost var before := b;
      var i := 0;
      while i < |entries|
        invariant 0 <= i <= |entries|
        invariant b == (before || exists j :: 0 <= j < i && AnswerHasContent(entries[j].1))
      {
        if AnswerHasContent(entries[i].1) {
          b := true;
          break;
        }
        i := i + 1;
      }
    }
    if c.instructionTags.Some? && |c.instructionTags.value| > 0 {
      b := true;
    }
    if c.aiFollowUpQuestions.Some? && SomeAiAnswered(c.aiFollowUpQuestions.value) {
      b := true;
    }
  }

  // ----- the preference summary -----

  /** The frequency line: the time is appended only for a custom frequency
      with a non-empty time. */
  function FrequencyLine(p: UserPreferences): string
  {
    "- Frequency: " + p.frequency.Text()
    + (if p.frequency == Custom && p.customFrequencyTime.Some? && p.customFrequencyTime.value != ""
       then " at " + p.customFrequencyTime.value else "")
    + "\n"
  }

  function Header(p: UserPreferences): string
  {
    "User Preferences:\n" + "- Email: " + p.email + "\n"
    + "- WhatsApp Number: " + p.whatsappNumber + "\n" + FrequencyLine(p)
  }

  /** The heading each category is summarised under. */
  function SectionLabel(k: CategoryKey): string
  {
    match k
    case Sports => "Sports"
    case MoviesTV => "Movies & TV"
    case News => "News"
    case YouTube => "YouTube"
  }

  /** The parts of one fixed answer: the chosen labels, then the trimmed
      "Other" text. There are parts exactly when the answer counts. */
  function AnswerParts(a: FollowUpAnswer): (parts: seq<string>)
    ensures |parts| > 0 <==> AnswerHasContent(a)
    ensures |parts| >= |a.selectedPredefinedTags| && parts[..|a.selectedPredefinedTags|] == a.selectedPredefinedTags
  {
    a.selectedPredefinedTags
    + (if a.customAnswerViaOther.Some? && NotBlank(a.customAnswerViaOther.value)
       then ["Other: " + Trim(a.customAnswerViaOther.value)] else [])
  }

  function QaLine(question: string, answer: string): string
  {
    "    - Q: " + question + "\n    - A: " + answer + "\n"
  }

  /** The Q/A lines of the fixed answers, in key order, skipping answers
      without parts. */
  function FixedQaLines(h: Hierarchy, k: CategoryKey, entries: FollowUpAnswers): string
  {
    if entries == [] then ""
    else
      FixedQaLines(h, k, entries[..|entries| - 1]) + EntryLine(h, k, entries[|entries| - 1])
  }

  /** The Q/A line of one fixed answer, empty when the answer has no parts. */
  function EntryLine(h: Hierarchy, k: CategoryKey, entry: (string, FollowUpAnswer)): string
  {
    if |AnswerParts(entry.1)| > 0
    then QaLine(FollowUpQuestionText(h, k, entry.0), Join(AnswerParts(entry.1), "; "))
    else ""
  }

  const FixedQaHeading: string := "  - Additional Details (Fixed Q&A):\n"

  function FixedQaBlock(h: Hierarchy, k: CategoryKey, c: CategoryPrefs): string
  {
    if c.followUpAnswers.Some? && SomeAnswerHasContent(c.followUpAnswers.value)
    then FixedQaHeading + FixedQaLines(h, k, c.followUpAnswers.value)
    else ""
  }

  /** The Q/A lines of the answered AI questions, in list order. */
  function AiQaLines(qs: seq<AiFollowUpQuestion>): string
  {
    if qs == [] then ""
    else
      var last := qs[|qs| - 1];
      AiQaLines(qs[..|qs| - 1]) + (if AiAnswered(last) then QaLine(last.question, last.answer) else "")
  }

  const AiQaHeading: string := "  - Further Clarifications (AI Q&A):\n"

  function AiBlock(c: CategoryPrefs): string
  {
    if c.aiFollowUpQuestions.Some? && SomeAiAnswered(c.aiFollowUpQuestions.value)
    then AiQaHeading + AiQaLines(c.aiFollowUpQuestions.value)
    else ""
  }

  function TagsLine(h: Hierarchy, c: CategoryPrefs): string
  {
    if |c.selectedTags| > 0
    then "  - Interests/Topics: " + Join(TagLabels(h, c.selectedTags), ", ") + "\n"
    else ""
  }

  function OtherSportLine(k: CategoryKey, c: CategoryPrefs): string
  {
    if OtherSportGiven(k, c)
    then "  - Specified Other Sport: " + Trim(c.otherSportName.value) + "\n"
    else ""
  }

  function InstructionsLine(c: CategoryPrefs): string
  {
    if c.instructionTags.Some? && |c.instructionTags.value| > 0
    then "  - Specific Instructions (Tags): " + Join(c.instructionTags.value, ", ") + "\n"
    else ""
  }

  /** The summary of one category: empty when it has no content, otherwise a
      heading followed by its lines in a fixed order. */
  function Section(h: Hierarchy, k: CategoryKey, c: CategoryPrefs): string
  {
    if HasContent(k, c) then
      "- " + SectionLabel(k) + ":\n" + TagsLine(h, c) + OtherSportLine(k, c)
      + FixedQaBlock(h, k, c) + InstructionsLine(c) + AiBlock(c)
    else ""
  }

  function CustomInterestsLine(p: UserPreferences): string
  {
    if |p.customInterestTags| > 0
    then "- Custom Interests: " + Join(p.customInterestTags, ", ") + "\n"
    else ""
  }

  /** The whole summary: header, the four categories in key order, custom interests. */
  function PromptText(h: Hierarchy, p: UserPreferences): string
  {
    Header(p) + Section(h, Sports, p.sports) + Section(h, MoviesTV, p.moviesTV)
    + Section(h, News, p.news) + Section(h, YouTube, p.youtube) + CustomInterestsLine(p)
  }

  /** The fixed Q/A lines are empty exactly when no answer counts, so the
      fixed Q&A heading is never printed without a line under it. */
  lemma {:induction false} FixedQaLinesEmptyIff(h: Hierarchy, k: CategoryKey, entries: FollowUpAnswers)
    ensures FixedQaLines(h, k, entries) == "" <==> !SomeAnswerHasContent(entries)
  {
    if entries != [] {
      var init := entries[..|entries| - 1];
      FixedQaLinesEmptyIff(h, k, init);
      if SomeAnswerHasContent(init) {
        var j :| 0 <= j < |init| && AnswerHasContent(init[j].1);
        assert entries[j] == init[j];
      }
      if SomeAnswerHasContent(entries) {
        var j :| 0 <= j < |entries| && AnswerHasContent(entries[j].1);
        if j < |init| {
          assert init[j] == entries[j];
        }
      }
    }
  }

  /** The same for the AI Q/A lines. */
  lemma {:induction false} AiQaLinesEmptyIff(qs: seq<AiFollowUpQuestion>)
    ensures AiQaLines(qs) == "" <==> !SomeAiAnswered(qs)
  {
    if qs != [] {
      var init := qs[..|qs| - 1];
      AiQaLinesEmptyIff(init);
      if SomeAiAnswered(init) {
        var j :| 0 <= j < |init| && AiAnswered(init[j]);
        assert qs[j] == init[j];
      }
      if SomeAiAnswered(qs) {
        var j :| 0 <= j < |qs| && AiAnswered(qs[j]);
        if j < |init| {
          assert init[j] == qs[j];
        }
      }
    }
  }

  /** `qs.filter(q => q.answer.trim() !== '')`. */
  function AnsweredOnly(qs: seq<AiFollowUpQuestion>): (r: seq<AiFollowUpQuestion>)
    ensures forall q :: q in r <==> q in qs && AiAnswered(q)
  {
    if qs == [] then []
    else (if AiAnswered(qs[0]) then [qs[0]] else []) + AnsweredOnly(qs[1..])
  }

  /** One Q/A line per question, in order. */
  function AllQaLines(qs: seq<AiFollowUpQuestion>): string
  {
    if qs == [] then "" else QaLine(qs[0].question, qs[0].answer) + AllQaLines(qs[1..])
  }

  lemma {:induction false} AllQaLinesConcat(a: seq<AiFollowUpQuestion>, b: seq<AiFollowUpQuestion>)
    ensures AllQaLines(a + b) == AllQaLines(a) + AllQaLines(b)
  {
    if a == [] {
      assert a + b == b;
    } else {
      assert (a + b)[0] == a[0] && (a + b)[1..] == a[1..] + b;
      AllQaLinesConcat(a[1..], b);
    }
  }

  lemma {:induction false} AnsweredOnlySnoc(qs: seq<AiFollowUpQuestion>, q: AiFollowUpQuestion)
    ensures AnsweredOnly(qs + [q]) == AnsweredOnly(qs) + (if AiAnswered(q) then [q] else [])
  {
    if qs == [] {
      assert qs + [q] == [q];
    } else {
      assert (qs + [q])[0] == qs[0] && (qs + [q])[1..] == qs[1..] + [q];
      AnsweredOnlySnoc(qs[1..], q);
    }
  }

  /** The AI Q/A lines are exactly one line per answered question, in list
      order: unanswered questions are skipped and nothing is reordered. */
  lemma {:induction false} AiQaLinesAreAnsweredOnes(qs: seq<AiFollowUpQuestion>)
    ensures AiQaLines(qs) == AllQaLines(AnsweredOnly(qs))
  {
    if qs != [] {
      var init, last := qs[..|qs| - 1], qs[|qs| - 1];
      assert qs == init + [last];
      AiQaLinesAreAnsweredOnes(init);
      AnsweredOnlySnoc(init, last);
      AllQaLinesConcat(AnsweredOnly(init), if AiAnswered(last) then [last] else []);
      assert AllQaLines([last]) == QaLine(last.question, last.answer) + AllQaLines([]);
    }
  }

  /** A category heading is never printed alone: a category with content
      always gets at least one line under its heading. */
  lemma SectionHasBody(h: Hierarchy, k: CategoryKey, c: CategoryPrefs)
    ensures HasContent(k, c) ==> |Section(h, k, c)| > |"- " + SectionLabel(k) + ":\n"|
  {
    if c.followUpAnswers.Some? {
      FixedQaLinesEmptyIff(h, k, c.followUpAnswers.value);
    }
    if c.aiFollowUpQuestions.Some? {
      AiQaLinesEmptyIff(c.aiFollowUpQuestions.value);
    }
  }

  /** The fixed Q&A part of `processCategory`: the heading followed by one
      Q/A line per answer with parts, and whether any line was written. */
  method FixedQaOutput(h: Hierarchy, k: CategoryKey, entries: FollowUpAnswers) returns (part: string, hasFollowUpOutput: bool)
    ensures part == FixedQaHeading + FixedQaLines(h, k, entries)
    ensures hasFollowUpOutput == SomeAnswerHasContent(entries)
  {
    hasFollowUpOutput := false;
    part := FixedQaHeading;
    var i := 0;
    while i < |entries|
      invariant 0 <= i <= |entries|
      invariant part == FixedQaHeading + FixedQaLines(h, k, entries[..i])
      invariant hasFollowUpOutput == SomeAnswerHasContent(entries[..i])
    {
      var questionId, answer := entries[i].0, entries[i].1;
      var parts := AnswerParts(answer);
      ghost var before := part;
      if |parts| > 0 {
        hasFollowUpOutput := true;
        part := part + QaLine(FollowUpQuestionText(h, k, questionId), Join(parts, "; "));
      }
      assert part == before + EntryLine(h, k, entries[i]);
      SnocPrefix(entries, i);
      FixedQaLinesSnoc(h, k, entries[..i], entries[i]);
      SomeAnswerHasContentSnoc(entries[..i], entries[i]);
      ConcatAssoc(FixedQaHeading, FixedQaLines(h, k, entries[..i]), EntryLine(h, k, entries[i]));
      assert part == FixedQaHeading + FixedQaLines(h, k, entries[..i + 1]);
      i := i + 1;
    }
    assert entries[..|entries|] == entries;
  }

  lemma SnocPrefix<T>(s: seq<T>, i: nat)
    requires i < |s|
    ensures s[..i + 1] == s[..i] + [s[i]]
  {
  }

  lemma FixedQaLinesSnoc(h: Hierarchy, k: CategoryKey, entries: FollowUpAnswers, e: (string, FollowUpAnswer))
    ensures FixedQaLines(h, k, entries + [e]) == FixedQaLines(h, k, entries) + EntryLine(h, k, e)
  {
    assert (entries + [e])[..|entries|] == entries;
  }

  lemma SomeAnswerHasContentSnoc(entries: FollowUpAnswers, e: (string, FollowUpAnswer))
    ensures SomeAnswerHasContent(entries + [e]) == (SomeAnswerHasContent(entries) || AnswerHasContent(e.1))
  {
    var s := entries + [e];
    assert s[|entries|] == e;
    if SomeAnswerHasContent(entries) {
      var j :| 0 <= j < |entries| && AnswerHasContent(entries[j].1);
      assert s[j] == entries[j];
    }
    if SomeAnswerHasContent(s) && !AnswerHasContent(e.1) {
      var j :| 0 <= j < |s| && AnswerHasContent(s[j].1);
      assert entries[j] == s[j];
    }
  }

  /** The AI Q&A loop of `processCategory`: one Q/A line per answered question. */
  method AppendAiQa(prompt0: string, qs: seq<AiFollowUpQuestion>) returns (prompt: string)
    ensures prompt == prompt0 + AiQaLines(qs)
  {
    prompt := prompt0;
    var i := 0;
    while i < |qs|
      invariant 0 <= i <= |qs|
      invariant prompt == prompt0 + AiQaLines(qs[..i])
    {
      assert qs[..i + 1][..i] == qs[..i] && qs[..i + 1][i] == qs[i];
      if AiAnswered(qs[i]) {
        prompt := prompt + QaLine(qs[i].question, qs[i].answer);
      }
      i := i + 1;
    }
    assert qs[..|qs|] == qs;
  }

  // One method per line kind of a section, each appending its line when
  // the condition holds, in the order `processCategory` writes them.

  method AppendTagsLine(h: Hierarchy, c: CategoryPrefs, prompt0: string) returns (prompt: string)
    ensures prompt == prompt0 + TagsLine(h, c)
  {
    prompt := prompt0;
    if |c.selectedTags| > 0 {
      prompt := prompt + ("  - Interests/Topics: " + Join(TagLabels(h, c.selectedTags), ", ") + "\n");
    }
  }

  method AppendOtherSportLine(k: CategoryKey, c: CategoryPrefs, prompt0: string) returns (prompt: string)
    ensures prompt == prompt0 + OtherSportLine(k, c)
  {
    prompt := prompt0;
    if OtherSportGiven(k, c) {
      prompt := prompt + ("  - Specified Other Sport: " + Trim(c.otherSportName.value) + "\n");
    }
  }

  method AppendFixedQa(h: Hierarchy, k: CategoryKey, c: CategoryPrefs, prompt0: string) returns (prompt: string)
    ensures prompt == prompt0 + FixedQaBlock(h, k, c)
  {
    prompt := prompt0;
    if c.followUpAnswers.Some? {
      var part, hasFollowUpOutput := FixedQaOutput(h, k, c.followUpAnswers.value);
      if hasFollowUpOutput {
        prompt := prompt + part;
      }
    }
  }

  method AppendInstructionsLine(c: CategoryPrefs, prompt0: string) returns (prompt: string)
    ensures prompt == prompt0 + InstructionsLine(c)
  {
    prompt := prompt0;
    if c.instructionTags.Some? && |c.instructionTags.value| > 0 {
      prompt := prompt + ("  - Specific Instructions (Tags): " + Join(c.instructionTags.value, ", ") + "\n");
    }
  }

  method AppendAiBlock(c: CategoryPrefs, prompt0: string) returns (prompt: string)
    ensures prompt == prompt0 + AiBlock(c)
  {
    prompt := prompt0;
    if c.aiFollowUpQuestions.Some? && SomeAiAnswered(c.aiFollowUpQuestions.value) {
      prompt := prompt + AiQaHeading;
      prompt := AppendAiQa(prompt, c.aiFollowUpQuestions.value);
      ConcatAssoc(prompt0, AiQaHeading, AiQaLines(c.aiFollowUpQuestions.value));
    }
  }

  /** `processCategory`: appends the category's section to the prompt. */
  method ProcessCategory(h: Hierarchy, k: CategoryKey, c: CategoryPrefs, prompt0: string) returns (prompt: string)
    ensures prompt == prompt0 + Section(h, k, c)
  {
    prompt := prompt0;
    var categoryHasContent := CategoryHasContent(k, c);
    if categoryHasContent {
      var heading := "- " + SectionLabel(k) + ":\n";
      prompt := prompt + heading;
      prompt := AppendTagsLine(h, c, prompt);
      ConcatAssoc(prompt0, heading, TagsLine(h, c));
      ghost var body := heading + TagsLine(h, c);
      prompt := AppendOtherSportLine(k, c, prompt);
      ConcatAssoc(prompt0, body, OtherSportLine(k, c));
      body := body + OtherSportLine(k, c);
      prompt := AppendFixedQa(h, k, c, prompt);
      ConcatAssoc(prompt0, body, FixedQaBlock(h, k, c));
      body := body + FixedQaBlock(h, k, c);
      prompt := AppendInstructionsLine(c, prompt);
      ConcatAssoc(prompt0, body, InstructionsLine(c));
      body := body + InstructionsLine(c);
      prompt := AppendAiBlock(c, prompt);
      ConcatAssoc(prompt0, body, AiBlock(c));
      body := body + AiBlock(c);
      assert body == Section(h, k, c);
    }
  }

  /** `formatPreferencesForPrompt`. */
  method FormatPreferencesForPrompt(h: Hierarchy, p: UserPreferences) returns (prompt: string)
    ensures prompt == PromptText(h, p)
  {
    prompt := "User Preferences:\n";
    prompt := prompt + "- Email: " + p.email + "\n";
    prompt := prompt + "- WhatsApp Number: " + p.whatsappNumber + "\n";
    prompt := prompt + FrequencyLine(p);
    prompt := ProcessCategory(h, Sports, p.sports, prompt);
    prompt := ProcessCategory(h, MoviesTV, p.moviesTV, prompt);
    prompt := ProcessCategory(h, News, p.news, prompt);
    prompt := ProcessCategory(h, YouTube, p.youtube, prompt);
    if |p.customInterestTags| > 0 {
      prompt := prompt + "- Custom Interests: " + Join(p.customInterestTags, ", ") + "\n";
    }
  }

  /** A custom time is mentioned exactly for a custom frequency with a
      non-empty time. */
  lemma FrequencyLineNamesTime(p: UserPreferences)
    ensures (p.frequency == Custom && p.customFrequencyTime.Some? && p.customFrequencyTime.value != "")
            <==> FrequencyLine(p) != "- Frequency: " + p.frequency.Text() + "\n"
  {
  }

  // ----- Markdown code fences around a reply -----

  /** `\w` of a regular expression. */
  predicate IsWordChar(c: char)
  {
    ('a' <= c <= 'z') || ('A' <= c <= 'Z') || ('0' <= c <= '9') || c == '_'
  }

  /** The length of the longest run of word characters starting at `i`. */
  function WordRun(s: string, i: nat): (n: nat)
    requires i <= |s|
    ensures i + n <= |s|
    ensures forall j :: i <= j < i + n ==> IsWordChar(s[j])
    ensures i + n < |s| ==> !IsWordChar(s[i + n])
    decreases |s| - i
  {
    if i < |s| && IsWordChar(s[i]) then 1 + WordRun(s, i + 1) else 0
  }

  const Fence: string := "```"

  /** Group 2 of ``/^```(\w*)?\s*\n?(.*?)\n?\s*```$/s`` on `t`, when the
      expression matches: the greedy language word and whitespace are
      skipped, and the lazy body stops before the trailing whitespace. */
  function FenceBody(t: string): (r: Option<string>)
    ensures r.Some? <==> |t| >= 6 && t[..3] == Fence && t[|t| - 3..] == Fence
    ensures r.Some? && r.value != "" ==> !IsJsSpace(r.value[0]) && !IsJsSpace(r.value[|r.value| - 1])
  {
    if |t| >= 6 && t[..3] == Fence && t[|t| - 3..] == Fence then
      var w := WordRun(t, 3);
      assert t[|t| - 3] == '`';
      var start := 3 + w + SpaceRun(t, 3 + w);
      var b := TrimEnd(t[start..|t| - 3]);
      assert b != "" ==> b[0] == t[start];
      Some(b)
    else None
  }

  /** The reply clean-up: trim, and when the text is a fenced block with a
      non-empty body, keep the trimmed body. */
  function StripCodeFence(raw: string): string
  {
    var t := Trim(raw);
    var body := FenceBody(t);
    if body.Some? && body.value != "" then Trim(body.value) else t
  }

  /** The cleaned reply never starts or ends with whitespace. */
  lemma StripCodeFenceIsTrimmed(raw: string)
    ensures var r := StripCodeFence(raw); r == "" || (!IsJsSpace(r[0]) && !IsJsSpace(r[|r| - 1]))
  {
    var t := Trim(raw);
    var body := FenceBody(t);
    if body.Some? && body.value != "" {
      TrimEnds(body.value);
      StripCodeFenceOfBody(raw, body.value);
    } else {
      TrimEnds(raw);
      StripCodeFenceUnwrapped(raw);
    }
  }

  /** Text that is not wrapped in fences is only trimmed. */
  lemma StripCodeFenceLeavesPlainText(raw: string)
    requires !IsPrefix(Fence, Trim(raw))
    ensures StripCodeFence(raw) == Trim(raw)
  {
  }

  lemma WordRunExact(s: string, i: nat, n: nat)
    requires i + n <= |s|
    requires forall j :: i <= j < i + n ==> IsWordChar(s[j])
    requires i + n == |s| || !IsWordChar(s[i + n])
    ensures WordRun(s, i) == n
  {
  }

  /** Fencing a body with a language word gives the body back. */
  lemma StripCodeFenceOfBody(raw: string, b: string)
    requires FenceBody(Trim(raw)) == Some(b) && b != ""
    ensures StripCodeFence(raw) == Trim(b)
  {
  }

  lemma StripCodeFenceUnwrapped(raw: string)
    requires FenceBody(Trim(raw)).None? || FenceBody(Trim(raw)) == Some("")
    ensures StripCodeFence(raw) == Trim(raw)
  {
  }

  /** A body in a Markdown code block with a language word. */
  function Fenced(lang: string, body: string): string
  {
    Fence + lang + "\n" + body + "\n" + Fence
  }

  /** Fencing a body with a language word, then cleaning up, gives the body back. */
  lemma StripCodeFenceRoundTrip(lang: string, body: string)
    requires forall j :: 0 <= j < |lang| ==> IsWordChar(lang[j])
    requires body != "" && !IsJsSpace(body[0]) && !IsJsSpace(body[|body| - 1])
    ensures StripCodeFence(Fenced(lang, body)) == body
  {
    FenceBodyOfFenced(lang, body);
    FencedIsTrimmed(lang, body);
    StripCodeFenceOfTrimmedBody(Fenced(lang, body), body);
  }

  lemma StripCodeFenceOfTrimmedBody(s: string, b: string)
    requires Trim(s) == s && FenceBody(s) == Some(b)
    requires b != "" && !IsJsSpace(b[0]) && !IsJsSpace(b[|b| - 1])
    ensures StripCodeFence(s) == b
  {
    StripCodeFenceOfBody(s, b);
    TrimOfTrimmed(b);
  }

  lemma FencedIsTrimmed(lang: string, body: string)
    ensures Trim(Fenced(lang, body)) == Fenced(lang, body)
  {
    var s := Fenced(lang, body);
    assert s[0] == '`' && s[|s| - 1] == '`';
    TrimOfTrimmed(s);
  }

  /** The body group of a fenced block is the body. */
  lemma FenceBodyOfFenced(lang: string, body: string)
    requires forall j :: 0 <= j < |lang| ==> IsWordChar(lang[j])
    requires body != "" && !IsJsSpace(body[0]) && !IsJsSpace(body[|body| - 1])
    ensures FenceBody(Fenced(lang, body)) == Some(body)
  {
    var s := Fenced(lang, body);
    FencedLayout(lang, body);
    FenceBodyAfterWord(s, |lang|);
    TrimEndExact(body + "\n", |body|);
    assert (body + "\n")[..|body|] == body;
  }

  /** Where the parts of a fenced block sit. */
  lemma FencedLayout(lang: string, body: string)
    requires forall j :: 0 <= j < |lang| ==> IsWordChar(lang[j])
    requires body != ""
    ensures var s, n := Fenced(lang, body), |lang|;
      |s| == n + 8 + |body| && s[..3] == Fence && s[|s| - 3..] == Fence
      && (forall j :: 3 <= j < 3 + n ==> IsWordChar(s[j]))
      && s[3 + n] == '\n' && s[4 + n] == body[0] && s[4 + n..|s| - 3] == body + "\n"
  {
    var n := |lang|;
    var pre := Fence + lang + "\n";
    var post := "\n" + Fence;
    var s := pre + body + post;
    assert s == Fenced(lang, body);
    assert s[..3] == pre[..3];
    assert s[|s| - 3..] == post[1..];
    forall j | 3 <= j < 3 + n
      ensures IsWordChar(s[j])
    {
      assert s[j] == pre[j] == lang[j - 3];
    }
    assert s[3 + n] == pre[3 + n];
    assert s[4 + n..|s| - 3] == body + post[..1];
  }

  /** A block whose language word has length `n` and is followed by a single
      line break has as body group the rest, trimmed at its end. */
  lemma FenceBodyAfterWord(s: string, n: nat)
    requires 8 + n <= |s| && s[..3] == Fence && s[|s| - 3..] == Fence
    requires forall j :: 3 <= j < 3 + n ==> IsWordChar(s[j])
    requires s[3 + n] == '\n' && !IsJsSpace(s[4 + n])
    ensures FenceBody(s) == Some(TrimEnd(s[4 + n..|s| - 3]))
  {
    WordRunExact(s, 3, n);
    assert SpaceRun(s, 3 + n) == 1;
  }

  // ----- AI follow-up questions -----

  /** How the request for questions went, in the parts that run outside this code. */
  datatype QuestionsOutcome =
    | NoApiKey                         // no key, or the placeholder key
    | ParsedArray(items: seq<string>)  // the cleaned reply parsed to an array
    | NotAnArray                       // it parsed to something else
    | Failed                           // the call or the parse threw

  datatype GeneratedQuestion = GeneratedQuestion(id: string, question: string)

  /** The two questions returned when the request fails; both name the category. */
  function FallbackQuestions(categoryLabel: string, tagLabels: seq<string>, clock: nat -> nat): seq<GeneratedQuestion>
  {
    [ GeneratedQuestion(NatToString(clock(0)) + "_fallback1",
        "What specific aspects of " + categoryLabel
        + (if |tagLabels| > 0 then " (related to " + Join(tagLabels, ", ") + ")" else "")
        + " are you most interested in?"),
      GeneratedQuestion(NatToString(clock(1)) + "_fallback2",
        "Any particular type of news or update style you prefer for " + categoryLabel + "?") ]
  }

  /** `generateAiFollowUpQuestions`. `clock(i)` is the millisecond clock at
      the i-th reading taken while building the result. */
  function GenerateAiFollowUpQuestions(categoryLabel: string, tagLabels: seq<string>,
                                       outcome: QuestionsOutcome, clock: nat -> nat): (qs: seq<GeneratedQuestion>)
    ensures outcome.ParsedArray? ==>
      |qs| == |outcome.items| && forall i :: 0 <= i < |qs| ==> qs[i].question == outcome.items[i]
    ensures !outcome.ParsedArray? ==> |qs| == 2
    ensures (outcome.NotAnArray? || outcome.Failed?) ==> qs == FallbackQuestions(categoryLabel, tagLabels, clock)
  {
    match outcome
    case NoApiKey =>
      [ GeneratedQuestion(NatToString(clock(0)) + "_mock1",
          "Mock Q1: For " + categoryLabel + " and tags like '" + Join(tagLabels, ", ")
          + "', what specific aspect interests you most?"),
        GeneratedQuestion(NatToString(clock(1)) + "_mock2",
          "Mock Q2: How frequently do you want updates related to these " + categoryLabel + " topics?") ]
    case ParsedArray(items) =>
      seq(|items|, i requires 0 <= i < |items| =>
        GeneratedQuestion(NatToString(clock(i)) + "_" + NatToString(i) + "_ai", items[i]))
    case NotAnArray => FallbackQuestions(categoryLabel, tagLabels, clock)
    case Failed => FallbackQuestions(categoryLabel, tagLabels, clock)
  }

  /** Both fallback questions mention the category. */
  lemma FallbackQuestionsNameCategory(categoryLabel: string, tagLabels: seq<string>, clock: nat -> nat)
    ensures forall q :: q in FallbackQuestions(categoryLabel, tagLabels, clock) ==> Contains(q.question, categoryLabel)
  {
    var qs := FallbackQuestions(categoryLabel, tagLabels, clock);
    var a := "What specific aspects of ";
    var b := "Any particular type of news or update style you prefer for ";
    assert qs[0].question[|a|..|a| + |categoryLabel|] == categoryLabel;
    assert OccursAt(qs[0].question, categoryLabel, |a|);
    assert qs[1].question[|b|..|b| + |categoryLabel|] == categoryLabel;
    assert OccursAt(qs[1].question, categoryLabel, |b|);
  }

  /** A clock reading, an underscore, then anything: the reading is recovered,
      since it is all digits. */
  lemma DigitsThenUnderscore(d1: string, x1: string, d2: string, x2: string)
    requires forall i :: 0 <= i < |d1| ==> '0' <= d1[i] <= '9'
    requires forall i :: 0 <= i < |d2| ==> '0' <= d2[i] <= '9'
    requires d1 + "_" + x1 == d2 + "_" + x2
    ensures d1 == d2 && x1 == x2
  {
    var s := d1 + "_" + x1;
    assert s[|d1|] == '_' && s[|d2|] == '_';
    assert d1 == s[..|d1|] == d2;
    assert x1 == s[|d1| + 1..] == x2;
  }

  /** The questions of one batch have distinct ids, however the clock moves. */
  lemma GeneratedIdsDistinct(categoryLabel: string, tagLabels: seq<string>, outcome: QuestionsOutcome, clock: nat -> nat)
    ensures var qs := GenerateAiFollowUpQuestions(categoryLabel, tagLabels, outcome, clock);
      forall i, j :: 0 <= i < j < |qs| ==> qs[i].id != qs[j].id
  {
    var qs := GenerateAiFollowUpQuestions(categoryLabel, tagLabels, outcome, clock);
    forall i, j | 0 <= i < j < |qs| ensures qs[i].id != qs[j].id {
      var a, b := qs[i].id, qs[j].id;
      if outcome.ParsedArray? {
        if a == b {
          var si, sj := NatToString(i), NatToString(j);
          assert a == NatToString(clock(i)) + "_" + (si + "_ai");
          assert b == NatToString(clock(j)) + "_" + (sj + "_ai");
          DigitsThenUnderscore(NatToString(clock(i)), si + "_ai", NatToString(clock(j)), sj + "_ai");
          assert |si| == |sj|;
          assert si == (si + "_ai")[..|si|] && sj == (sj + "_ai")[..|sj|];
          NatToStringInjective(i, j);
        }
      } else {
        assert i == 0 && j == 1;
        assert a[|a| - 1] == '1' && b[|b| - 1] == '2';
      }
    }
  }
}
