/** The interest taxonomy (`INTEREST_TAG_HIERARCHY` in the constants module,
    which is not part of this model) as a parameter: categories in the order
    of their keys, each with optional direct tags, optional sub-categories
    carrying tags, and optional fixed follow-up questions. */
module Taxonomy {
  import opened Util
  import opened Types

  /** A taxonomy tag; `caption` is its `label` (a reserved word in Dafny). */
  datatype Tag = Tag(id: string, caption: string, icon: Option<string>)

  datatype SubCategory = SubCategory(id: string, caption: string, tags: seq<Tag>)

  datatype FollowUpQuestion = FollowUpQuestion(id: string, text: string, predefinedAnswerTags: seq<Tag>, hasOtherOption: bool)

  datatype MainCategory = MainCategory(
    id: string,
    caption: string,
    tags: Option<seq<Tag>>,
    subCategories: Option<seq<SubCategory>>,
    followUpQuestions: Option<seq<FollowUpQuestion>>)

  /** The categories in key order, the order of `for ... in` and `Object.values`. */
  type Hierarchy = seq<MainCategory>

  const CustomCategoryId: string := "custom"
  const SportsOtherId: string := "sports_other"
  const YouTubeDurationId: string := "youtube_duration"

  /** Every category is one of the four selectable ones or the custom one. */
  predicate WellFormed(h: Hierarchy)
  {
    forall i :: 0 <= i < |h| ==> h[i].id == CustomCategoryId || KeyOfId(h[i].id).Some?
  }

  /** `INTEREST_TAG_HIERARCHY[id.toUpperCase()]`, each entry being stored
      under its upper-cased id. */
  function FindCategory(h: Hierarchy, id: string): (r: Option<MainCategory>)
    ensures r.Some? ==> r.value in h && r.value.id == id
    ensures r.None? <==> forall i :: 0 <= i < |h| ==> h[i].id != id
  {
    if h == [] then None
    else if h[0].id == id then Some(h[0])
    else FindCategory(h[1..], id)
  }

  /** Position `i` holds the first sub-category of `subs` whose id is `id`. */
  predicate FirstSubWithId(subs: seq<SubCategory>, id: string, i: int)
  {
    0 <= i < |subs| && subs[i].id == id && forall j :: 0 <= j < i ==> subs[j].id != id
  }

  /** `subCategories.find(sc => sc.id === id)`: the first sub-category with
      that id. */
  function FindSubCategory(subs: seq<SubCategory>, id: string): (r: Option<SubCategory>)
    ensures r.None? <==> forall i :: 0 <= i < |subs| ==> subs[i].id != id
    ensures r.Some? ==> exists i :: FirstSubWithId(subs, id, i) && subs[i] == r.value
  {
    if subs == [] then None
    else if subs[0].id == id then
      assert FirstSubWithId(subs, id, 0);
      Some(subs[0])
    else
      var r := FindSubCategory(subs[1..], id);
      assert r.Some? ==> exists i :: FirstSubWithId(subs, id, i) && subs[i] == r.value by {
        if r.Some? {
          var i :| FirstSubWithId(subs[1..], id, i) && subs[1..][i] == r.value;
          assert FirstSubWithId(subs, id, i + 1) by {
            forall j | 0 <= j < i + 1 ensures subs[j].id != id {
              if j > 0 { assert subs[j] == subs[1..][j - 1]; }
            }
          }
        }
      }
      r
  }

  /** The ids of the tags of the YouTube "duration" sub-category, when the
      taxonomy has one. */
  function DurationTagIds(h: Hierarchy): (r: Option<seq<string>>)
  {
    match FindCategory(h, YouTube.Id())
    case None => None
    case Some(yt) =>
      match FindSubCategory(yt.subCategories.GetOr([]), YouTubeDurationId)
      case None => None
      case Some(sc) => Some(TagIds(sc.tags))
  }

  function TagIds(tags: seq<Tag>): (ids: seq<string>)
    ensures |ids| == |tags|
    ensures forall i :: 0 <= i < |tags| ==> ids[i] == tags[i].id
  {
    if tags == [] then [] else [tags[0].id] + TagIds(tags[1..])
  }

  /** Position `i` holds the first tag of `tags` whose id is `id`. */
  predicate FirstWithId(tags: seq<Tag>, id: string, i: int)
  {
    0 <= i < |tags| && tags[i].id == id && forall j :: 0 <= j < i ==> tags[j].id != id
  }

  /** `tags.find(t => t.id === id)`: the first tag with that id. */
  function FindTag(tags: seq<Tag>, id: string): (r: Option<Tag>)
    ensures r.None? <==> forall i :: 0 <= i < |tags| ==> tags[i].id != id
    ensures r.Some? ==> exists i :: FirstWithId(tags, id, i) && tags[i] == r.value
  {
    if tags == [] then None
    else if tags[0].id == id then
      assert FirstWithId(tags, id, 0);
      Some(tags[0])
    else
      var r := FindTag(tags[1..], id);
      assert r.Some? ==> exists i :: FirstWithId(tags, id, i) && tags[i] == r.value by {
        if r.Some? {
          var i :| FirstWithId(tags[1..], id, i) && tags[1..][i] == r.value;
          assert FirstWithId(tags, id, i + 1) by {
            forall j | 0 <= j < i + 1 ensures tags[j].id != id {
              if j > 0 { assert tags[j] == tags[1..][j - 1]; }
            }
          }
        }
      }
      r
  }

  /** The search of one sub-category list, in order. */
  function FindTagInSubs(subs: seq<SubCategory>, id: string): Option<Tag>
  {
    if subs == [] then None
    else FindTag(subs[0].tags, id).OrElse(FindTagInSubs(subs[1..], id))
  }

  /** The search of one category: its direct tags, then its sub-categories. */
  function FindTagInCategory(c: MainCategory, id: string): Option<Tag>
  {
    FindTag(c.tags.GetOr([]), id).OrElse(FindTagInSubs(c.subCategories.GetOr([]), id))
  }

  /** The search of the whole taxonomy, category by category, that both
      `getTagLabel` and `getTagDisplayDetails` perform. */
  function FindTagIn(h: Hierarchy, id: string): Option<Tag>
  {
    if h == [] then None
    else FindTagInCategory(h[0], id).OrElse(FindTagIn(h[1..], id))
  }

  /** Every tag of the taxonomy in the order the search visits them. */
  function ScanOrder(h: Hierarchy): seq<Tag>
  {
    if h == [] then [] else CategoryScan(h[0]) + ScanOrder(h[1..])
  }

  function CategoryScan(c: MainCategory): seq<Tag>
  {
    c.tags.GetOr([]) + SubsScan(c.subCategories.GetOr([]))
  }

  function SubsScan(subs: seq<SubCategory>): seq<Tag>
  {
    if subs == [] then [] else subs[0].tags + SubsScan(subs[1..])
  }

  /** Searching a concatenation searches the first part, then the second. */
  lemma {:induction false} FindTagConcat(a: seq<Tag>, b: seq<Tag>, id: string)
    ensures FindTag(a + b, id) == FindTag(a, id).OrElse(FindTag(b, id))
  {
    if a == [] {
      assert a + b == b;
    } else {
      assert (a + b)[0] == a[0];
      assert (a + b)[1..] == a[1..] + b;
      FindTagConcat(a[1..], b, id);
    }
  }

  lemma {:induction false} FindTagInSubsIsScan(subs: seq<SubCategory>, id: string)
    ensures FindTagInSubs(subs, id) == FindTag(SubsScan(subs), id)
  {
    if subs != [] {
      FindTagInSubsIsScan(subs[1..], id);
      FindTagConcat(subs[0].tags, SubsScan(subs[1..]), id);
    }
  }

  /** The nested search finds exactly the first tag with the id in the flat
      scan order: categories in key order, and within each category its direct
      tags before the tags of its sub-categories. */
  lemma {:induction false} FindTagInIsFirstInScanOrder(h: Hierarchy, id: string)
    ensures FindTagIn(h, id) == FindTag(ScanOrder(h), id)
  {
    if h != [] {
      FindTagInIsFirstInScanOrder(h[1..], id);
      FindTagInSubsIsScan(h[0].subCategories.GetOr([]), id);
      FindTagConcat(h[0].tags.GetOr([]), SubsScan(h[0].subCategories.GetOr([])), id);
      FindTagConcat(CategoryScan(h[0]), ScanOrder(h[1..]), id);
    }
  }

  /** `getFollowUpQuestionText`: the text of the category's first fixed
      question with that id, or the id itself when there is none. */
  function FollowUpQuestionText(h: Hierarchy, k: CategoryKey, questionId: string): (text: string)
    ensures (forall i :: 0 <= i < |QuestionsOf(h, k)| ==> QuestionsOf(h, k)[i].id != questionId) ==> text == questionId
    ensures forall i :: FirstQuestionWithId(QuestionsOf(h, k), questionId, i) ==> text == QuestionsOf(h, k)[i].text
  {
    match FindCategory(h, k.Id())
    case None => questionId
    case Some(c) =>
      assert QuestionsOf(h, k) == c.followUpQuestions.GetOr([]);
      match FindQuestion(c.followUpQuestions.GetOr([]), questionId)
      case None => questionId
      case Some(q) =>
        FirstQuestionUnique(c.followUpQuestions.GetOr([]), questionId);
        q.text
  }

  /** The fixed follow-up questions of a category; none when it is missing. */
  function QuestionsOf(h: Hierarchy, k: CategoryKey): seq<FollowUpQuestion>
  {
    match FindCategory(h, k.Id())
    case None => []
    case Some(c) => c.followUpQuestions.GetOr([])
  }

  /** Position `i` holds the first question of `qs` whose id is `id`. */
  predicate FirstQuestionWithId(qs: seq<FollowUpQuestion>, id: string, i: int)
  {
    0 <= i < |qs| && qs[i].id == id && forall j :: 0 <= j < i ==> qs[j].id != id
  }

  /** `followUpQuestions.find(q => q.id === id)`: the first question with
      that id. */
  function FindQuestion(qs: seq<FollowUpQuestion>, id: string): (r: Option<FollowUpQuestion>)
    ensures r.None? <==> forall i :: 0 <= i < |qs| ==> qs[i].id != id
    ensures r.Some? ==> exists i :: FirstQuestionWithId(qs, id, i) && qs[i] == r.value
  {
    if qs == [] then None
    else if qs[0].id == id then
      assert FirstQuestionWithId(qs, id, 0);
      Some(qs[0])
    else
      var r := FindQuestion(qs[1..], id);
      assert r.Some? ==> exists i :: FirstQuestionWithId(qs, id, i) && qs[i] == r.value by {
        if r.Some? {
          var i :| FirstQuestionWithId(qs[1..], id, i) && qs[1..][i] == r.value;
          assert FirstQuestionWithId(qs, id, i + 1) by {
            forall j | 0 <= j < i + 1 ensures qs[j].id != id {
              if j > 0 { assert qs[j] == qs[1..][j - 1]; }
            }
          }
        }
      }
      r
  }

  /** There is only one first position. */
  lemma FirstQuestionUnique(qs: seq<FollowUpQuestion>, id: string)
    ensures forall i, j :: FirstQuestionWithId(qs, id, i) && FirstQuestionWithId(qs, id, j) ==> i == j
  {
  }
}
