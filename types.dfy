/** The preference record the wizard edits (types.ts): the delivery
    frequency, the answers to fixed and AI follow-up questions, one
    sub-record per selectable category, and the all-empty defaults. */
module Types {
  import opened Util

  datatype UpdateFrequency = RealTime | MorningDigest | EveningSummary | Custom {
    /** The string value of the enum member. */
    function Text(): string {
      match this
      case RealTime => "Real-time"
      case MorningDigest => "Morning Digest"
      case EveningSummary => "Evening Summary"
      case Custom => "Custom"
    }
  }

  const AllFrequencies: seq<UpdateFrequency> := [RealTime, MorningDigest, EveningSummary, Custom]

  /** The enum has exactly four members, and their string values are distinct,
      so a frequency can be recovered from its text. */
  lemma FrequenciesAreFourDistinct()
    ensures |AllFrequencies| == 4
    ensures forall f: UpdateFrequency :: f in AllFrequencies
    ensures forall i, j :: 0 <= i < j < 4 ==> AllFrequencies[i].Text() != AllFrequencies[j].Text()
    ensures forall f: UpdateFrequency, g: UpdateFrequency :: f.Text() == g.Text() ==> f == g
  {
    forall f: UpdateFrequency, g: UpdateFrequency | f.Text() == g.Text() ensures f == g {
      assert f.Text()[0] == g.Text()[0];
    }
    forall f: UpdateFrequency ensures f in AllFrequencies {
      assert f.RealTime? || f.MorningDigest? || f.EveningSummary? || f.Custom?;
    }
  }

  /** The answer to one fixed follow-up question: the labels of the chosen
      predefined answer tags and the optional "Other" free text. */
  datatype FollowUpAnswer = FollowUpAnswer(selectedPredefinedTags: seq<string>, customAnswerViaOther: Option<string>)

  /** A JavaScript object from question id to answer. Its keys keep insertion
      order, which `for ... in` follows, so it is an association list. */
  type FollowUpAnswers = seq<(string, FollowUpAnswer)>

  function Keys(a: FollowUpAnswers): (ks: seq<string>)
    ensures |ks| == |a|
    ensures forall i :: 0 <= i < |a| ==> ks[i] == a[i].0
  {
    if a == [] then [] else [a[0].0] + Keys(a[1..])
  }

  /** `answers[questionId]`. */
  function Lookup(a: FollowUpAnswers, q: string): (r: Option<FollowUpAnswer>)
    ensures r.Some? <==> q in Keys(a)
  {
    if a == [] then None
    else if a[0].0 == q then Some(a[0].1)
    else Lookup(a[1..], q)
  }

  /** `{ ...answers, [q]: v }`: an existing key keeps its place and gets the
      new value, a new key is added at the end. */
  function Put(a: FollowUpAnswers, q: string, v: FollowUpAnswer): (r: FollowUpAnswers)
    ensures Lookup(r, q) == Some(v)
    ensures forall q2 :: q2 != q ==> Lookup(r, q2) == Lookup(a, q2)
    ensures Keys(r) == if q in Keys(a) then Keys(a) else Keys(a) + [q]
  {
    if a == [] then [(q, v)]
    else if a[0].0 == q then [(q, v)] + a[1..]
    else
      var rest := Put(a[1..], q, v);
      assert ([a[0]] + rest)[1..] == rest;
      [a[0]] + rest
  }

  /** Putting keeps an object's keys distinct. */
  lemma PutKeepsKeysDistinct(a: FollowUpAnswers, q: string, v: FollowUpAnswer)
    requires NoDup(Keys(a))
    ensures NoDup(Keys(Put(a, q, v)))
  {
  }

  /** One AI-generated question with the user's answer. */
  datatype AiFollowUpQuestion = AiFollowUpQuestion(id: string, question: string, answer: string)

  /** The preferences of one selectable category. Every field but
      `selectedTags` is optional in the record type and so is an Option. */
  datatype CategoryPrefs = CategoryPrefs(
    selectedTags: seq<string>,
    followUpAnswers: Option<FollowUpAnswers>,
    instructionTags: Option<seq<string>>,
    aiFollowUpQuestions: Option<seq<AiFollowUpQuestion>>,
    otherSportName: Option<string>)

  /** `SelectableTagCategoryKey`. */
  datatype CategoryKey = Sports | MoviesTV | News | YouTube {
    function Id(): string {
      match this
      case Sports => "sports"
      case MoviesTV => "moviesTV"
      case News => "news"
      case YouTube => "youtube"
    }
  }

  const AllCategoryKeys: seq<CategoryKey> := [Sports, MoviesTV, News, YouTube]

  /** The key whose id is `id`, if `id` names a selectable category. */
  function KeyOfId(id: string): (r: Option<CategoryKey>)
    ensures r.Some? ==> r.value.Id() == id
    ensures forall k: CategoryKey :: k.Id() == id ==> r == Some(k)
  {
    if id == "sports" then Some(Sports)
    else if id == "moviesTV" then Some(MoviesTV)
    else if id == "news" then Some(News)
    else if id == "youtube" then Some(YouTube)
    else None
  }

  /** There are exactly four selectable categories, with distinct ids. */
  lemma CategoryKeysAreFourDistinct()
    ensures |AllCategoryKeys| == 4
    ensures forall k: CategoryKey :: k in AllCategoryKeys
    ensures forall k: CategoryKey, k2: CategoryKey :: k.Id() == k2.Id() ==> k == k2
  {
    forall k: CategoryKey ensures k in AllCategoryKeys {
      assert k.Sports? || k.MoviesTV? || k.News? || k.YouTube?;
    }
    forall k: CategoryKey, k2: CategoryKey | k.Id() == k2.Id() ensures k == k2 {
      assert KeyOfId(k.Id()) == Some(k) && KeyOfId(k2.Id()) == Some(k2);
    }
  }

  /** The single platform the record allows. */
  datatype Platform = WhatsApp

  datatype UserPreferences = UserPreferences(
    email: string,
    whatsappNumber: string,
    isWhatsAppConfirmed: bool,
    sports: CategoryPrefs,
    moviesTV: CategoryPrefs,
    news: CategoryPrefs,
    youtube: CategoryPrefs,
    customInterestTags: seq<string>,
    frequency: UpdateFrequency,
    customFrequencyTime: Option<string>,
    platform: Platform,
    alertsPaused: bool)
  {
    /** `preferences[categoryKey]`. */
    function Category(k: CategoryKey): CategoryPrefs {
      match k
      case Sports => sports
      case MoviesTV => moviesTV
      case News => news
      case YouTube => youtube
    }

    /** `{ ...preferences, [categoryKey]: c }`: one category replaced, nothing else changed. */
    function WithCategory(k: CategoryKey, c: CategoryPrefs): (r: UserPreferences)
      ensures r.Category(k) == c
      ensures forall k2 :: k2 != k ==> r.Category(k2) == Category(k2)
      ensures SameProfileFields(this, r)
    {
      match k
      case Sports => this.(sports := c)
      case MoviesTV => this.(moviesTV := c)
      case News => this.(news := c)
      case YouTube => this.(youtube := c)
    }
  }

  /** Two records agree on everything outside the four category sub-records. */
  predicate SameProfileFields(p: UserPreferences, q: UserPreferences)
  {
    p.email == q.email && p.whatsappNumber == q.whatsappNumber
    && p.isWhatsAppConfirmed == q.isWhatsAppConfirmed
    && p.customInterestTags == q.customInterestTags && p.frequency == q.frequency
    && p.customFrequencyTime == q.customFrequencyTime && p.platform == q.platform
    && p.alertsPaused == q.alertsPaused
  }

  /** Replacing a category with the value it already has gives back the same
      record, and a record is determined by its categories and other fields. */
  lemma WithCategoryOwnValue(p: UserPreferences, k: CategoryKey)
    ensures p.WithCategory(k, p.Category(k)) == p
  {
  }

  lemma RecordsEqualByParts(p: UserPreferences, q: UserPreferences)
    requires SameProfileFields(p, q)
    requires forall k: CategoryKey :: p.Category(k) == q.Category(k)
    ensures p == q
  {
    assert p.Category(Sports) == q.Category(Sports);
    assert p.Category(MoviesTV) == q.Category(MoviesTV);
    assert p.Category(News) == q.Category(News);
    assert p.Category(YouTube) == q.Category(YouTube);
  }

  /** The defaults of one category: everything present and empty. */
  const EmptyCategory: CategoryPrefs := CategoryPrefs([], Some([]), Some([]), Some([]), None)

  /** `initialPreferencesData`. */
  function InitialPreferences(): (p: UserPreferences)
    ensures forall k: CategoryKey ::
      (p.Category(k).selectedTags == [] && p.Category(k).followUpAnswers == Some([])
       && p.Category(k).instructionTags == Some([]) && p.Category(k).aiFollowUpQuestions == Some([])
       && p.Category(k).otherSportName == None)
    ensures p.customInterestTags == [] && p.frequency == MorningDigest
    ensures p.platform == WhatsApp && !p.alertsPaused && p.customFrequencyTime == None
    ensures p.email == "" && p.whatsappNumber == "" && !p.isWhatsAppConfirmed
  {
    UserPreferences("", "", false, EmptyCategory, EmptyCategory, EmptyCategory, EmptyCategory,
                    [], MorningDigest, None, WhatsApp, false)
  }

  /** The routing guard (App.tsx): a user counts as signed in once both the
      e-mail and the WhatsApp number are non-empty. */
  predicate IsAuthenticated(p: UserPreferences)
  {
    p.email != "" && p.whatsappNumber != ""
  }

  /** The defaults describe a signed-out user. */
  lemma InitialIsSignedOut()
    ensures !IsAuthenticated(InitialPreferences())
  {
  }

  /** Every category's AI question list is present (possibly empty). */
  predicate AiListsDefined(p: UserPreferences)
  {
    forall k: CategoryKey :: p.Category(k).aiFollowUpQuestions.Some?
  }

  lemma InitialAiListsDefined()
    ensures AiListsDefined(InitialPreferences())
  {
  }
}
