/**
 * The local reply generator: theme detection, sentiment analysis and the
 * selection of a reply from a pool of templates. Every `Math.random()`
 * call is replaced by an injected draw, and the tables are a `Catalog`
 * parameter so that the rules are proved for any tables; the shipped
 * tables are `Tables.Shipped()`.
 */
module LocalAI {
  import opened Wrappers
  import opened Text
  import opened Seqs
  import opened Tables

  /* ---------------- Theme detection ---------------- */

  /** Number of entries of `keywords` that `text` includes. */
  function Hits(text: string, keywords: seq<string>): (n: nat)
    ensures n <= |keywords|
  {
    CountWhere(keywords, IncludedIn(text))
  }

  /** The test `keyword => text.includes(keyword)`. */
  function IncludedIn(text: string): string -> bool
  {
    k => Contains(text, k)
  }

  /** The count `detectTheme` gives theme `t` for `message`. */
  function ThemeCount(c: Catalog, message: string, t: Theme): nat
  {
    Hits(Lower(message), KeywordsFor(c, t))
  }

  /** The count of each theme for an already lower-cased text. */
  function ThemeCounter(c: Catalog, text: string): Theme -> nat
  {
    t => Hits(text, KeywordsFor(c, t))
  }

  /** A theme sits in `ThemeOrder` at its rank and nowhere else. */
  lemma ThemeOrderIndex(j: int, t: Theme)
    requires 0 <= j < |ThemeOrder| && ThemeOrder[j] == t
    ensures j == Rank(t)
  {
  }

  /**
   * `detectTheme(message)`: a theme with the largest count; comfort when
   * every count is 0; otherwise the first theme in the order grief,
   * memories, comfort, connection that has the largest count.
   */
  function ThemeOf(c: Catalog, message: string): (t: Theme)
    ensures forall u :: ThemeCount(c, message, u) <= ThemeCount(c, message, t)
    ensures ThemeCount(c, message, t) == 0 ==> t == Comfort
    ensures ThemeCount(c, message, t) > 0 ==>
      forall u :: Rank(u) < Rank(t) ==> ThemeCount(c, message, u) < ThemeCount(c, message, t)
  {
    var count := ThemeCounter(c, Lower(message));
    RunningMaxIsFirstMaximum(ThemeOrder, count, Comfort);
    var r := RunningMax(ThemeOrder, count, Comfort);
    assert forall u :: ThemeCount(c, message, u) == count(ThemeOrder[Rank(u)]);
    assert r.1 > 0 ==> ThemeCount(c, message, r.0) == r.1 &&
                       forall u :: Rank(u) < Rank(r.0) ==> ThemeCount(c, message, u) < r.1 by {
      if r.1 > 0 {
        var j :| 0 <= j < |ThemeOrder| && ThemeOrder[j] == r.0 && count(ThemeOrder[j]) == r.1 &&
                 forall k :: 0 <= k < j ==> count(ThemeOrder[k]) < r.1;
        ThemeOrderIndex(j, r.0);
      }
    }
    r.0
  }

  /** The three properties of `ThemeOf` pin the theme down: no other theme has them all. */
  lemma ThemeOfUnique(c: Catalog, message: string, t: Theme)
    requires forall u :: ThemeCount(c, message, u) <= ThemeCount(c, message, t)
    requires ThemeCount(c, message, t) == 0 ==> t == Comfort
    requires ThemeCount(c, message, t) > 0 ==>
      forall u :: Rank(u) < Rank(t) ==> ThemeCount(c, message, u) < ThemeCount(c, message, t)
    ensures t == ThemeOf(c, message)
  {
    var w := ThemeOf(c, message);
    assert ThemeCount(c, message, t) == ThemeCount(c, message, w);
    if ThemeCount(c, message, t) > 0 {
      assert Rank(t) == Rank(w);
    }
  }

  /** `detectTheme`: count every theme's keyword hits, then keep the running maximum. */
  method DetectTheme(c: Catalog, message: string) returns (dominantTheme: Theme)
    ensures dominantTheme == ThemeOf(c, message)
  {
    var normalizedMessage := Lower(message);
    var themeCounts: map<Theme, nat> := map[Grief := 0, Memories := 0, Comfort := 0, Connection := 0];
    forall t: Theme ensures t in themeCounts {
      assert ThemeOrder[Rank(t)] == t;
    }
    for ti := 0 to |ThemeOrder|
      invariant forall t :: t in themeCounts
      invariant forall j :: 0 <= j < ti ==> themeCounts[ThemeOrder[j]] == Hits(normalizedMessage, KeywordsFor(c, ThemeOrder[j]))
      invariant forall j :: ti <= j < |ThemeOrder| ==> themeCounts[ThemeOrder[j]] == 0
    {
      var theme := ThemeOrder[ti];
      var keywords := KeywordsFor(c, theme);
      ghost var before := themeCounts;
      for ki := 0 to |keywords|
        invariant forall t :: t in themeCounts
        invariant themeCounts[theme] == Hits(normalizedMessage, keywords[..ki])
        invariant forall t :: t != theme ==> themeCounts[t] == before[t]
      {
        assert keywords[..ki + 1] == keywords[..ki] + [keywords[ki]];
        CountWhereSnoc(keywords[..ki], keywords[ki], IncludedIn(normalizedMessage));
        if Contains(normalizedMessage, keywords[ki]) {
          themeCounts := themeCounts[theme := themeCounts[theme] + 1];
        }
      }
      assert keywords[..|keywords|] == keywords;
    }
    dominantTheme := Comfort;
    var maxCount := 0;
    for i := 0 to |ThemeOrder|
      invariant (dominantTheme, maxCount) == RunningMax(ThemeOrder[..i], ThemeCounter(c, normalizedMessage), Comfort)
    {
      var theme := ThemeOrder[i];
      var count := themeCounts[theme];
      assert ThemeOrder[..i + 1][..i] == ThemeOrder[..i];
      if count > maxCount {
        maxCount := count;
        dominantTheme := theme;
      }
    }
    assert ThemeOrder[..|ThemeOrder|] == ThemeOrder;
  }

  /** The theme depends on the message only through its lower-cased form. */
  lemma ThemeOfIgnoresCase(c: Catalog, message: string)
    ensures ThemeOf(c, Lower(message)) == ThemeOf(c, message)
  {
    LowerIdempotent(message);
  }

  /** A message that includes no keyword, such as the empty one, gets the comfort theme. */
  lemma {:induction false} EmptyMessageTheme(c: Catalog)
    requires WellFormed(c)
    ensures forall t :: ThemeCount(c, "", t) == 0
    ensures ThemeOf(c, "") == Comfort
  {
    forall t ensures ThemeCount(c, "", t) == 0 {
      WellFormedFor(c, Balanced, t);
      var kws := KeywordsFor(c, t);
      assert forall i :: 0 <= i < |kws| ==> !IncludedIn("")(kws[i]);
      CountWhereExtremes(kws, IncludedIn(""));
    }
  }

  /* ---------------- Sentiment ---------------- */

  datatype Sentiment = Positive | Negative | Neutral

  /** Number of positive words the lower-cased message includes. */
  function PositiveCount(c: Catalog, message: string): nat
  {
    Hits(Lower(message), c.positiveWords)
  }

  /** Number of negative words the lower-cased message includes. */
  function NegativeCount(c: Catalog, message: string): nat
  {
    Hits(Lower(message), c.negativeWords)
  }

  /** `analyzeSentiment`: positive iff more positive words, negative iff more negative words, else neutral. */
  method AnalyzeSentiment(c: Catalog, message: string) returns (sentiment: Sentiment)
    ensures sentiment == Positive <==> PositiveCount(c, message) > NegativeCount(c, message)
    ensures sentiment == Negative <==> NegativeCount(c, message) > PositiveCount(c, message)
    ensures sentiment == Neutral <==> PositiveCount(c, message) == NegativeCount(c, message)
  {
    var normalizedMessage := Lower(message);
    var positiveWords := c.positiveWords;
    var negativeWords := c.negativeWords;
    var positiveCount := 0;
    var negativeCount := 0;
    for i := 0 to |positiveWords|
      invariant positiveCount == Hits(normalizedMessage, positiveWords[..i])
    {
      assert positiveWords[..i + 1] == positiveWords[..i] + [positiveWords[i]];
      CountWhereSnoc(positiveWords[..i], positiveWords[i], IncludedIn(normalizedMessage));
      if Contains(normalizedMessage, positiveWords[i]) {
        positiveCount := positiveCount + 1;
      }
    }
    for i := 0 to |negativeWords|
      invariant negativeCount == Hits(normalizedMessage, negativeWords[..i])
    {
      assert negativeWords[..i + 1] == negativeWords[..i] + [negativeWords[i]];
      CountWhereSnoc(negativeWords[..i], negativeWords[i], IncludedIn(normalizedMessage));
      if Contains(normalizedMessage, negativeWords[i]) {
        negativeCount := negativeCount + 1;
      }
    }
    assert positiveWords[..|positiveWords|] == positiveWords;
    assert negativeWords[..|negativeWords|] == negativeWords;
    if positiveCount > negativeCount {
      sentiment := Positive;
    } else if negativeCount > positiveCount {
      sentiment := Negative;
    } else {
      sentiment := Neutral;
    }
  }

  /* ---------------- Reply generation ---------------- */

  /** The fields of the context argument that the generator reads. */
  datatype Context = Context(name: string, personality: Option<string>, lastMessage: string)

  /**
   * The values of the six `Math.random()` calls, each in [0, 1): whether
   * to ask a question, the initial pick, the fallback pick, the question
   * pick, whether to personalise, and where to put the name.
   */
  datatype Draws = Draws(ask: real, initial: real, fallback: real, question: real,
                         personalise: real, placement: real)

  predicate InUnit(r: real)
  {
    0.0 <= r < 1.0
  }

  predicate ValidDraws(d: Draws)
  {
    InUnit(d.ask) && InUnit(d.initial) && InUnit(d.fallback) &&
    InUnit(d.question) && InUnit(d.personalise) && InUnit(d.placement)
  }

  /** `Math.floor(r * n)`: the index a draw picks in a list of `n` entries. */
  function PickIndex(r: real, n: nat): (k: nat)
    requires InUnit(r) && n > 0
    ensures k < n
    ensures k as real <= r * n as real < k as real + 1.0
  {
    assert 0.0 <= r * n as real < n as real by {
      assert (1.0 - r) * n as real > 0.0;
    }
    (r * n as real).Floor
  }

  /** `context.personality?.toLowerCase() || ''`: the key looked up in `personalityTemplates`. */
  function PersonalityKey(personality: Option<string>): (key: string)
    ensures personality.None? ==> key == ""
    ensures personality.Some? ==> |key| == |personality.value|
    ensures forall i :: 0 <= i < |key| ==> !IsUpper(key[i])
  {
    if personality.Some? then Lower(personality.value) else ""
  }

  /**
   * `personalityTemplates[key] || personalityTemplates.balanced`: the
   * personality named by the key, and balanced when the key names none
   * (an absent or empty personality included).
   */
  function ParsePersonality(personality: Option<string>): (p: Personality)
    ensures PersonalityKey(personality) == PersonalityName(p) || p == Balanced
    ensures forall q :: PersonalityKey(personality) == PersonalityName(q) ==> p == q
  {
    var key := PersonalityKey(personality);
    if key == "warm" then Warm
    else if key == "reflective" then Reflective
    else if key == "humorous" then Humorous
    else if key == "wise" then Wise
    else Balanced
  }

  /** Every personality is selected by its own name. */
  lemma ParsePersonalityName(q: Personality)
    ensures ParsePersonality(Some(PersonalityName(q))) == q
  {
    LowerKeeps(PersonalityName(q));
  }

  /** The personality is chosen without regard to case. */
  lemma ParsePersonalityIgnoresCase(s: string)
    ensures ParsePersonality(Some(Lower(s))) == ParsePersonality(Some(s))
  {
    LowerIdempotent(s);
  }

  /** The candidate pool before substitution: the theme's prompts, then the personality's responses. */
  function Pool(c: Catalog, p: Personality, t: Theme): seq<string>
  {
    PromptsFor(c, t) + TemplateFor(c, p).responses
  }

  /** `context.name || 'Companion'`. */
  function NameOrDefault(name: string): (r: string)
    ensures |r| > 0
    ensures name != "" ==> r == name
  {
    if name == "" then "Companion" else name
  }

  /** `context.lastMessage.substring(0, 20) + "..."`. */
  function Topic(message: string): (r: string)
    ensures |r| == (if |message| < 20 then |message| else 20) + 3
    ensures r[..|r| - 3] == message[..|r| - 3] && r[|r| - 3..] == "..."
  {
    Take(message, 20) + "..."
  }

  /** A template with `{name}` and then `{topic}` replaced. */
  function Fill(template: string, ctx: Context): (r: string)
    ensures !Contains(template, "{name}") && !Contains(template, "{topic}") ==> r == template
  {
    var named := ReplaceAll(template, "{name}", NameOrDefault(ctx.name));
    var filled := ReplaceAll(named, "{topic}", Topic(ctx.lastMessage));
    assert !Contains(template, "{name}") && !Contains(template, "{topic}") ==> filled == template by {
      if !Contains(template, "{name}") && !Contains(template, "{topic}") {
        ReplaceAllAbsent(template, "{name}", NameOrDefault(ctx.name));
        ReplaceAllAbsent(named, "{topic}", Topic(ctx.lastMessage));
      }
    }
    filled
  }

  /** `responsePool.map(...)`: every template filled in. */
  function Substituted(pool: seq<string>, ctx: Context): seq<string>
  {
    seq(|pool|, i requires 0 <= i < |pool| => Fill(pool[i], ctx))
  }

  /** A single `{name}` among text without braces becomes the name, when the name has no brace either. */
  lemma FillName(a: string, b: string, ctx: Context)
    requires '{' !in a && '{' !in b && '{' !in NameOrDefault(ctx.name)
    ensures Fill(a + "{name}" + b, ctx) == a + NameOrDefault(ctx.name) + b
  {
    var name := NameOrDefault(ctx.name);
    ReplaceAllOne(a, b, "{name}", name);
    assert '{' !in a + name + b;
    AbsentCharExcludes(a + name + b, "{topic}");
    ReplaceAllAbsent(a + name + b, "{topic}", Topic(ctx.lastMessage));
  }

  /** A single `{topic}` among text without braces becomes the topic. */
  lemma FillTopic(a: string, b: string, ctx: Context)
    requires '{' !in a && '{' !in b
    ensures Fill(a + "{topic}" + b, ctx) == a + Topic(ctx.lastMessage) + b
  {
    var name := NameOrDefault(ctx.name);
    var after := "{topic}" + b;
    assert a + "{topic}" + b == a + after;
    ReplaceAllAfterFree(a, after, "{name}", name);
    assert after[..6] != "{name}" && after[1..] == "topic}" + b;
    AbsentCharExcludes("topic}" + b, "{name}");
    ReplaceAllAbsent("topic}" + b, "{name}", name);
    assert [after[0]] + after[1..] == after;
    ReplaceAllOne(a, b, "{topic}", Topic(ctx.lastMessage));
  }

  /**
   * Filling can leave a placeholder behind: the name can complete one from
   * the text around a replaced `{name}`.
   */
  lemma FillCanLeavePlaceholder()
    ensures Fill("{n{name}e}", Context("am", None, "")) == "{name}"
  {
    var s := "{n{name}e}";
    assert s[..6] != "{name}" && s[1..][..6] != "{name}";
    assert s[1..][1..] == "{name}e}" && s[1..][1..][..6] == "{name}";
    assert s[1..][1..][6..] == "e}";
    assert ReplaceAll(s, "{name}", "am") == "{name}";
  }

  /** A template without an opening brace holds no placeholder, so filling it changes nothing. */
  lemma FillUnchanged(template: string, ctx: Context)
    requires '{' !in template
    ensures Fill(template, ctx) == template
  {
    AbsentCharExcludes(template, "{name}");
    AbsentCharExcludes(template, "{topic}");
  }

  /** Filling a non-empty template gives a non-empty text. */
  lemma FillNonEmpty(template: string, ctx: Context)
    requires |template| > 0
    ensures |Fill(template, ctx)| > 0
  {
    var named := ReplaceAll(template, "{name}", NameOrDefault(ctx.name));
    ReplaceAllNonEmpty(template, "{name}", NameOrDefault(ctx.name));
    ReplaceAllNonEmpty(named, "{topic}", Topic(ctx.lastMessage));
  }

  /** A pool without braces comes out of substitution unchanged. */
  lemma SubstitutedUnchanged(pool: seq<string>, ctx: Context)
    requires BraceFreeStrings(pool)
    ensures Substituted(pool, ctx) == pool
  {
    forall i | 0 <= i < |pool| ensures Substituted(pool, ctx)[i] == pool[i] {
      FillUnchanged(pool[i], ctx);
    }
  }

  /** Substitution keeps every template non-empty. */
  lemma SubstitutedNonEmpty(pool: seq<string>, ctx: Context)
    requires NonEmptyStrings(pool)
    ensures NonEmptyStrings(Substituted(pool, ctx))
  {
    forall i | 0 <= i < |pool| ensures |Substituted(pool, ctx)[i]| > 0 {
      FillNonEmpty(pool[i], ctx);
    }
  }

  /** The personality and theme of a context, and its candidate pool with placeholders filled in. */
  function ContextPersonality(ctx: Context): Personality
  {
    ParsePersonality(ctx.personality)
  }

  function CandidatePool(c: Catalog, ctx: Context): seq<string>
  {
    Substituted(Pool(c, ContextPersonality(ctx), ThemeOf(c, ctx.lastMessage)), ctx)
  }

  /** A well-formed catalog gives a non-empty pool of non-empty candidates and some questions. */
  lemma CandidatePoolUsable(c: Catalog, ctx: Context)
    requires WellFormed(c)
    ensures |CandidatePool(c, ctx)| > 0 && NonEmptyStrings(CandidatePool(c, ctx))
    ensures |TemplateFor(c, ContextPersonality(ctx)).questions| > 0
  {
    var p := ContextPersonality(ctx);
    var t := ThemeOf(c, ctx.lastMessage);
    WellFormedFor(c, p, t);
    assert NonEmptyStrings(Pool(c, p, t)) by {
      var pool := Pool(c, p, t);
      var prompts := PromptsFor(c, t);
      assert forall i :: 0 <= i < |pool| ==> pool[i] == if i < |prompts| then prompts[i] else TemplateFor(c, p).responses[i - |prompts|];
    }
    SubstitutedNonEmpty(Pool(c, p, t), ctx);
  }

  /**
   * In a brace-free catalog of the shipped sizes, the candidate pool is the
   * theme's prompts followed by the personality's responses, unchanged,
   * and always has 20 entries.
   */
  lemma CandidatePoolUnchanged(c: Catalog, ctx: Context)
    requires Uniform(c) && BraceFree(c)
    ensures CandidatePool(c, ctx) == PromptsFor(c, ThemeOf(c, ctx.lastMessage)) + TemplateFor(c, ContextPersonality(ctx)).responses
    ensures |CandidatePool(c, ctx)| == 20
  {
    var p := ContextPersonality(ctx);
    var t := ThemeOf(c, ctx.lastMessage);
    UniformFor(c, p, t);
    BraceFreeFor(c, p, t);
    var pool := Pool(c, p, t);
    assert BraceFreeStrings(pool) by {
      var prompts := PromptsFor(c, t);
      assert forall i :: 0 <= i < |pool| ==> pool[i] == if i < |prompts| then prompts[i] else TemplateFor(c, p).responses[i - |prompts|];
    }
    SubstitutedUnchanged(pool, ctx);
  }

  /** `w.length > 3`. */
  predicate Significant(w: string)
  {
    |w| > 3
  }

  /**
   * `lastMessage.toLowerCase().split(/\W+/).filter(w => w.length > 3)`: the
   * tokens of the lower-cased message longer than three characters, in order.
   */
  function SignificantWords(message: string): (r: seq<string>)
    ensures forall i :: 0 <= i < |r| ==> Significant(r[i]) && AllWordChars(r[i]) && r[i] in Split(Lower(message))
    ensures forall i :: 0 <= i < |Split(Lower(message))| && Significant(Split(Lower(message))[i]) ==>
      Split(Lower(message))[i] in r
  {
    Filter(Split(Lower(message)), Significant)
  }

  /** The significant words are the message's significant tokens at their positions, in message order, repeats kept. */
  lemma SignificantWordsInOrder(message: string)
    ensures SelectedAt(SignificantWords(message), Split(Lower(message)), Positions(Split(Lower(message)), Significant))
  {
    FilterSelects(Split(Lower(message)), Significant);
  }

  /** `responseWords.some(rWord => rWord.includes(word))`. */
  predicate AppearsIn(word: string, responseWords: seq<string>)
  {
    exists k :: 0 <= k < |responseWords| && Contains(responseWords[k], word)
  }

  /** The test a significant word passes against one candidate's lower-cased tokens. */
  function MatchesIn(response: string): string -> bool
  {
    w => AppearsIn(w, Split(Lower(response)))
  }

  /**
   * `matchScore`: the number of significant words, repeats included, that
   * occur inside some lower-cased token of the candidate.
   */
  function Score(userWords: seq<string>, response: string): (n: nat)
    ensures n <= |userWords|
  {
    CountWhere(userWords, MatchesIn(response))
  }

  /** A candidate scores exactly when some significant word occurs inside one of its tokens. */
  lemma ScorePositive(userWords: seq<string>, response: string)
    ensures Score(userWords, response) > 0 <==>
      exists i :: 0 <= i < |userWords| && AppearsIn(userWords[i], Split(Lower(response)))
  {
    CountWhereExtremes(userWords, MatchesIn(response));
  }

  /** The score of each candidate. */
  function Scorer(userWords: seq<string>): string -> nat
  {
    r => Score(userWords, r)
  }

  /**
   * The reply before the question and the name: the kept candidate of the
   * scoring loop if its score is positive, else the fallback pick.
   */
  function BaseReply(pool: seq<string>, userWords: seq<string>, d: Draws): (r: string)
    requires |pool| > 0 && InUnit(d.initial) && InUnit(d.fallback)
    ensures r in pool
  {
    var best := RunningMax(pool, Scorer(userWords), pool[PickIndex(d.initial, |pool|)]);
    RunningMaxIsFirstMaximum(pool, Scorer(userWords), pool[PickIndex(d.initial, |pool|)]);
    if best.1 > 0 then best.0 else pool[PickIndex(d.fallback, |pool|)]
  }

  /**
   * If some candidate scores, the base reply is the first candidate with
   * the best score; if none does, it is the one the fallback draw picks.
   */
  lemma BaseReplySelection(pool: seq<string>, userWords: seq<string>, d: Draws)
    requires |pool| > 0 && InUnit(d.initial) && InUnit(d.fallback)
    ensures (exists j :: 0 <= j < |pool| && Score(userWords, pool[j]) > 0) ==>
      exists j :: 0 <= j < |pool| && pool[j] == BaseReply(pool, userWords, d) && Score(userWords, pool[j]) > 0 &&
        (forall k :: 0 <= k < |pool| ==> Score(userWords, pool[k]) <= Score(userWords, pool[j])) &&
        (forall k :: 0 <= k < j ==> Score(userWords, pool[k]) < Score(userWords, pool[j]))
    ensures (forall j :: 0 <= j < |pool| ==> Score(userWords, pool[j]) == 0) ==>
      BaseReply(pool, userWords, d) == pool[PickIndex(d.fallback, |pool|)]
  {
    var f := Scorer(userWords);
    var start := pool[PickIndex(d.initial, |pool|)];
    RunningMaxIsFirstMaximum(pool, f, start);
    assert forall k :: 0 <= k < |pool| ==> f(pool[k]) == Score(userWords, pool[k]);
  }

  /** When exactly one candidate scores, the base reply is that candidate. */
  lemma BaseReplyUniqueMatch(pool: seq<string>, userWords: seq<string>, d: Draws, j: int)
    requires |pool| > 0 && InUnit(d.initial) && InUnit(d.fallback)
    requires 0 <= j < |pool| && Score(userWords, pool[j]) > 0
    requires forall k :: 0 <= k < |pool| && k != j ==> Score(userWords, pool[k]) == 0
    ensures BaseReply(pool, userWords, d) == pool[j]
  {
    BaseReplySelection(pool, userWords, d);
  }

  /** The initial draw never decides the base reply: it is replaced whenever a candidate scores. */
  lemma BaseReplyIgnoresInitialDraw(pool: seq<string>, userWords: seq<string>, d: Draws, other: real)
    requires |pool| > 0 && InUnit(d.initial) && InUnit(d.fallback) && InUnit(other)
    ensures BaseReply(pool, userWords, d.(initial := other)) == BaseReply(pool, userWords, d)
  {
    RunningMaxStart(pool, Scorer(userWords), pool[PickIndex(d.initial, |pool|)], pool[PickIndex(other, |pool|)]);
  }

  /** `lastMessage.length < 20 ? 0.7 : 0.3`: the chance of a follow-up question. */
  function AskThreshold(message: string): (t: real)
    ensures 0.0 < t < 1.0
    ensures t == 0.7 <==> |message| < 20
    ensures t == 0.3 <==> |message| >= 20
  {
    if |message| < 20 then 0.7 else 0.3
  }

  /** The reply with a follow-up question appended when `ask` holds. */
  function WithQuestion(base: string, questions: seq<string>, ask: bool, d: Draws): (r: string)
    requires |questions| > 0 && InUnit(d.question)
    ensures !ask ==> r == base
    ensures ask ==> exists k :: 0 <= k < |questions| && r == base + " " + questions[k]
  {
    if ask then base + " " + questions[PickIndex(d.question, |questions|)] else base
  }

  /** The two personalised forms of a reply both contain the name. */
  lemma PersonalisedFormsName(text: string, name: string)
    ensures Contains(name + ", " + LowerFirst(text), name)
    ensures Contains(text + " I'm here for you, " + name + ".", name)
  {
    ContainsSelf(name);
    ContainsInAppend(name, ", ", name);
    ContainsInAppend(name + ", ", LowerFirst(text), name);
    ContainsInAppend(text + " I'm here for you, ", name, name);
    ContainsInAppend(text + " I'm here for you, " + name, ".", name);
  }

  /**
   * The personalisation step: a reply that already contains the name, or a
   * personalise draw of 0.3 or more, leaves the reply as it is; otherwise
   * the name is put in front (lower-casing the first character) or a
   * closing sentence with the name is appended. Afterwards the reply
   * contains the name whenever the personalise draw is below 0.3.
   */
  function Personalise(text: string, name: string, d: Draws): (r: string)
    ensures Contains(text, name) || d.personalise >= 0.3 ==> r == text
    ensures NamedForm(r, text, name)
    ensures d.personalise < 0.3 ==> Contains(r, name)
    ensures !Contains(text, name) && d.personalise < 0.3 ==>
      (d.placement < 0.5 <==> r == name + ", " + LowerFirst(text))
    ensures |r| >= |text|
  {
    PersonalisedFormsName(text, name);
    if !Contains(text, name) && d.personalise < 0.3 then
      if d.placement < 0.5 then name + ", " + LowerFirst(text)
      else text + " I'm here for you, " + name + "."
    else text
  }

  /** The reply before personalisation: the base reply and, when asked, a question. */
  function Body(c: Catalog, ctx: Context, d: Draws): (r: string)
    requires WellFormed(c) && ValidDraws(d)
    ensures IsBody(r, CandidatePool(c, ctx), TemplateFor(c, ContextPersonality(ctx)).questions)
    ensures d.ask >= AskThreshold(ctx.lastMessage) ==> r in CandidatePool(c, ctx)
    ensures |r| > 0
  {
    CandidatePoolUsable(c, ctx);
    var base := BaseReply(CandidatePool(c, ctx), SignificantWords(ctx.lastMessage), d);
    assert |base| > 0 by {
      var i :| 0 <= i < |CandidatePool(c, ctx)| && CandidatePool(c, ctx)[i] == base;
    }
    WithQuestion(base, TemplateFor(c, ContextPersonality(ctx)).questions, d.ask < AskThreshold(ctx.lastMessage), d)
  }

  /** `generateLocalResponse(context)` for the given tables and draws. */
  function Reply(c: Catalog, ctx: Context, d: Draws): (r: string)
    requires WellFormed(c) && ValidDraws(d)
    ensures |r| > 0
    ensures d.personalise < 0.3 ==> Contains(r, ctx.name)
    ensures d.personalise >= 0.3 ==> r == Body(c, ctx, d)
  {
    Personalise(Body(c, ctx, d), ctx.name, d)
  }

  /** A candidate alone, or followed by a space and one of the questions. */
  predicate IsBody(body: string, pool: seq<string>, questions: seq<string>)
  {
    body in pool ||
    exists i, k :: 0 <= i < |pool| && 0 <= k < |questions| && body == pool[i] + " " + questions[k]
  }

  /** `r` is `body` as it is, with the name in front, or with the closing sentence that holds the name. */
  predicate NamedForm(r: string, body: string, name: string)
  {
    r == body || r == name + ", " + LowerFirst(body) || r == body + " I'm here for you, " + name + "."
  }

  /**
   * Every reply is a candidate of the pool, optionally followed by one of
   * the personality's questions, and then either left alone, prefixed with
   * the name, or followed by the closing sentence with the name.
   */
  lemma ReplyShape(c: Catalog, ctx: Context, d: Draws)
    requires WellFormed(c) && ValidDraws(d)
    ensures exists body ::
      IsBody(body, CandidatePool(c, ctx), TemplateFor(c, ContextPersonality(ctx)).questions) &&
      NamedForm(Reply(c, ctx, d), body, ctx.name)
  {
    var body := Body(c, ctx, d);
    assert IsBody(body, CandidatePool(c, ctx), TemplateFor(c, ContextPersonality(ctx)).questions);
  }

  /** An empty companion name is contained in every text, so the reply is never personalised. */
  lemma ReplyEmptyName(c: Catalog, ctx: Context, d: Draws)
    requires WellFormed(c) && ValidDraws(d) && ctx.name == ""
    ensures Reply(c, ctx, d) == Body(c, ctx, d)
    ensures IsBody(Reply(c, ctx, d), CandidatePool(c, ctx), TemplateFor(c, ContextPersonality(ctx)).questions)
  {
    ContainsEmpty(Body(c, ctx, d));
  }

  /** Without a question and without personalisation the reply is a pool candidate. */
  lemma ReplyPlain(c: Catalog, ctx: Context, d: Draws)
    requires WellFormed(c) && ValidDraws(d)
    requires d.ask >= AskThreshold(ctx.lastMessage) && d.personalise >= 0.3
    ensures Reply(c, ctx, d) in CandidatePool(c, ctx)
  {
  }

  /** The initial pick never shows in the reply. */
  lemma ReplyIgnoresInitialDraw(c: Catalog, ctx: Context, d: Draws, other: real)
    requires WellFormed(c) && ValidDraws(d) && InUnit(other)
    ensures Reply(c, ctx, d.(initial := other)) == Reply(c, ctx, d)
  {
    CandidatePoolUsable(c, ctx);
    BaseReplyIgnoresInitialDraw(CandidatePool(c, ctx), SignificantWords(ctx.lastMessage), d, other);
  }

  /**
   * An empty message has no significant words, so no candidate scores and
   * the base reply is the fallback pick from the comfort pool.
   */
  lemma EmptyMessageReply(c: Catalog, ctx: Context, d: Draws)
    requires WellFormed(c) && ValidDraws(d) && ctx.lastMessage == ""
    ensures ThemeOf(c, ctx.lastMessage) == Comfort
    ensures CandidatePool(c, ctx) == Substituted(PromptsFor(c, Comfort) + TemplateFor(c, ContextPersonality(ctx)).responses, ctx)
    ensures SignificantWords(ctx.lastMessage) == []
    ensures BaseReply(CandidatePool(c, ctx), [], d) == CandidatePool(c, ctx)[PickIndex(d.fallback, |CandidatePool(c, ctx)|)]
  {
    EmptyMessageTheme(c);
    CandidatePoolUsable(c, ctx);
    assert Split(Lower("")) == [""];
    BaseReplySelection(CandidatePool(c, ctx), [], d);
  }

  /** The pool of `generateLocalResponse`: the theme's prompts, then the personality's responses, filled in. */
  method BuildResponsePool(themePrompts: seq<string>, personality: Template, ctx: Context) returns (responsePool: seq<string>)
    ensures responsePool == Substituted(themePrompts + personality.responses, ctx)
  {
    responsePool := [];
    responsePool := responsePool + themePrompts;
    responsePool := responsePool + personality.responses;
    assert responsePool == themePrompts + personality.responses;
    responsePool := Substituted(responsePool, ctx);
  }

  /**
   * The scoring loop of `generateLocalResponse`: keep the first candidate
   * with a strictly better score, starting from the initial pick with
   * score 0; fall back to the fallback pick when nothing scored.
   */
  method SelectResponse(responsePool: seq<string>, userWords: seq<string>, d: Draws) returns (response: string)
    requires |responsePool| > 0 && InUnit(d.initial) && InUnit(d.fallback)
    ensures response == BaseReply(responsePool, userWords, d)
  {
    var bestResponseScore := 0;
    var bestResponse := responsePool[PickIndex(d.initial, |responsePool|)];
    ghost var initial := bestResponse;
    for i := 0 to |responsePool|
      invariant (bestResponse, bestResponseScore) == RunningMax(responsePool[..i], Scorer(userWords), initial)
    {
      var candidate := responsePool[i];
      var matchScore := Score(userWords, candidate);
      assert responsePool[..i + 1][..i] == responsePool[..i];
      if matchScore > bestResponseScore {
        bestResponseScore := matchScore;
        bestResponse := candidate;
      }
    }
    assert responsePool[..|responsePool|] == responsePool;
    response := if bestResponseScore > 0 then bestResponse else responsePool[PickIndex(d.fallback, |responsePool|)];
  }

  /** `generateLocalResponse`, step by step, with the tables and the draws as parameters. */
  method GenerateLocalResponse(c: Catalog, ctx: Context, d: Draws) returns (response: string)
    requires WellFormed(c) && ValidDraws(d)
    ensures response == Reply(c, ctx, d)
  {
    var personality := TemplateFor(c, ParsePersonality(ctx.personality));
    var theme := DetectTheme(c, ctx.lastMessage);
    var sentiment := AnalyzeSentiment(c, ctx.lastMessage);
    var responsePool := BuildResponsePool(PromptsFor(c, theme), personality, ctx);
    assert responsePool == CandidatePool(c, ctx);
    CandidatePoolUsable(c, ctx);

    var shouldAskQuestion := d.ask < AskThreshold(ctx.lastMessage);

    var userWords := SignificantWords(ctx.lastMessage);
    response := SelectResponse(responsePool, userWords, d);
    assert response == BaseReply(CandidatePool(c, ctx), SignificantWords(ctx.lastMessage), d);

    if shouldAskQuestion {
      var questions := personality.questions;
      var questionIndex := PickIndex(d.question, |questions|);
      response := response + " " + questions[questionIndex];
    }
    assert response == Body(c, ctx, d);

    if !Contains(response, ctx.name) && d.personalise < 0.3 {
      if d.placement < 0.5 {
        response := ctx.name + ", " + LowerFirst(response);
      } else {
        response := response + " I'm here for you, " + ctx.name + ".";
      }
    }
  }

  /**
   * With the shipped tables the candidate pool is always 20 entries: the
   * theme's ten prompts, then the personality's ten responses, unchanged
   * by substitution.
   */
  lemma ShippedCandidatePool(ctx: Context)
    ensures CandidatePool(Shipped(), ctx) ==
      PromptsFor(Shipped(), ThemeOf(Shipped(), ctx.lastMessage)) + TemplateFor(Shipped(), ContextPersonality(ctx)).responses
    ensures |CandidatePool(Shipped(), ctx)| == 20
  {
    ShippedUniform();
    ShippedBraceFree();
    CandidatePoolUnchanged(Shipped(), ctx);
  }

  /** `generateLocalResponse` with the shipped tables. */
  method GenerateShippedResponse(ctx: Context, d: Draws) returns (response: string)
    requires ValidDraws(d)
    ensures response == Reply(Shipped(), ctx, d)
    ensures |response| > 0
  {
    ShippedWellFormed();
    response := GenerateLocalResponse(Shipped(), ctx, d);
  }
}
