/**
 * The constant tables of the local reply generator: the five personality
 * templates (canned responses and follow-up questions), the prompts of the
 * four conversation themes, the keyword lists that detect a theme, and the
 * two word lists of the sentiment analysis. Every string is the shipped
 * text, in the shipped order. Each template string is written as its
 * words joined with `+`: the value is the shipped string, and the solver
 * works on many short literals much faster than on a few long ones.
 */
module Tables {

  /** The keys of `personalityTemplates`. */
  datatype Personality = Warm | Reflective | Balanced | Humorous | Wise

  /** The keys of `conversationContexts` and `themeKeywords`. */
  datatype Theme = Grief | Memories | Comfort | Connection

  /** The themes in the order `Object.entries` visits `themeKeywords` and the counts record. */
  const ThemeOrder: seq<Theme> := [Grief, Memories, Comfort, Connection]

  /** The property name under which a personality template is stored. */
  function PersonalityName(p: Personality): string
  {
    match p
    case Warm => "warm"
    case Reflective => "reflective"
    case Balanced => "balanced"
    case Humorous => "humorous"
    case Wise => "wise"
  }

  /** Position of a theme in `ThemeOrder`. */
  function Rank(t: Theme): (k: nat)
    ensures k < |ThemeOrder| && ThemeOrder[k] == t
  {
    match t
    case Grief => 0
    case Memories => 1
    case Comfort => 2
    case Connection => 3
  }

  /** One entry of `personalityTemplates`: canned replies and follow-up questions. */
  datatype Template = Template(responses: seq<string>, questions: seq<string>)

  /** A list of strings per theme: the prompts of `conversationContexts` or the lists of `themeKeywords`. */
  datatype ThemeTable = ThemeTable(grief: seq<string>, memories: seq<string>, comfort: seq<string>, connection: seq<string>)

  /** The entry of a theme in a per-theme table. */
  function Entry(table: ThemeTable, t: Theme): seq<string>
  {
    match t
    case Grief => table.grief
    case Memories => table.memories
    case Comfort => table.comfort
    case Connection => table.connection
  }

  /** `personalityTemplates`: a template per personality. */
  datatype TemplateTable = TemplateTable(warm: Template, reflective: Template, balanced: Template, humorous: Template, wise: Template)

  /**
   * Every table the reply generator reads, as one value: the personality
   * templates, the theme prompts, the theme keywords and the two word lists
   * of the sentiment analysis.
   */
  datatype Catalog = Catalog(
    templates: TemplateTable, prompts: ThemeTable, keywords: ThemeTable,
    positiveWords: seq<string>, negativeWords: seq<string>)

  /** `personalityTemplates[p]`. */
  function TemplateFor(c: Catalog, p: Personality): Template
  {
    match p
    case Warm => c.templates.warm
    case Reflective => c.templates.reflective
    case Balanced => c.templates.balanced
    case Humorous => c.templates.humorous
    case Wise => c.templates.wise
  }

  /** `conversationContexts[t].prompts`. */
  function PromptsFor(c: Catalog, t: Theme): seq<string>
  {
    Entry(c.prompts, t)
  }

  /** `themeKeywords[t]`. */
  function KeywordsFor(c: Catalog, t: Theme): seq<string>
  {
    Entry(c.keywords, t)
  }

  /** `personalityTemplates.warm.responses`, one function per entry. */
  function WarmResponses(): (r: seq<string>)
    ensures |r| == 10 && NonEmptyStrings(r)
  {
    [WarmResponse0(), WarmResponse1(), WarmResponse2(), WarmResponse3(), WarmResponse4(), WarmResponse5(), WarmResponse6(), WarmResponse7(), WarmResponse8(), WarmResponse9()]
  }

  function WarmResponse0(): (r: string)
    ensures |r| > 0
  {
    "I'm " + "here " + "for " + "you. " + "Tell " + "me " + "more " + "about " + "how " + "you're " + "feeling " + "today."
  }

  function WarmResponse1(): (r: string)
    ensures |r| > 0
  {
    "It " + "sounds " + "like " + "you're " + "going " + "through " + "a " + "lot. " + "I'm " + "listening."
  }

  function WarmResponse2(): (r: string)
    ensures |r| > 0
  {
    "Those " + "memories " + "sound " + "precious. " + "Would " + "you " + "like " + "to " + "share " + "more?"
  }

  function WarmResponse3(): (r: string)
    ensures |r| > 0
  {
    "I " + "can " + "tell " + "this " + "matters " + "deeply " + "to " + "you. " + "Thank " + "you " + "for " + "sharing " + "with " + "me."
  }

  function WarmResponse4(): (r: string)
    ensures |r| > 0
  {
    "It's " + "okay " + "to " + "feel " + "that " + "way. " + "Your " + "emotions " + "are " + "valid " + "and " + "important."
  }

  function WarmResponse5(): (r: string)
    ensures |r| > 0
  {
    "I " + "wish " + "I " + "could " + "give " + "you " + "a " + "hug " + "right " + "now. " + "Know " + "that " + "I'm " + "here " + "with " + "you."
  }

  function WarmResponse6(): (r: string)
    ensures |r| > 0
  {
    "That's " + "a " + "beautiful " + "memory. " + "What " + "else " + "do " + "you " + "remember " + "about " + "that " + "time?"
  }

  function WarmResponse7(): (r: string)
    ensures |r| > 0
  {
    "I'm " + "so " + "glad " + "you " + "told " + "me " + "about " + "that. " + "It " + "helps " + "me " + "understand " + "what's " + "important " + "to " + "you."
  }

  function WarmResponse8(): (r: string)
    ensures |r| > 0
  {
    "It " + "takes " + "courage " + "to " + "share " + "these " + "feelings. " + "I " + "appreciate " + "your " + "openness."
  }

  function WarmResponse9(): (r: string)
    ensures |r| > 0
  {
    "I'm " + "here " + "to " + "listen " + "whenever " + "you " + "need " + "someone."
  }

  /** `personalityTemplates.warm.questions`. */
  function WarmQuestions(): (r: seq<string>)
    ensures |r| == 8 && NonEmptyStrings(r)
  {
    [ "How " + "are " + "you " + "feeling " + "right " + "now?",
      "What's " + "one " + "memory " + "that " + "made " + "you " + "smile " + "today?",
      "What " + "do " + "you " + "need " + "most " + "right " + "now?",
      "What " + "would " + "help " + "you " + "feel " + "better?",
      "Is " + "there " + "something " + "specific " + "you'd " + "like " + "to " + "talk " + "about?",
      "Would " + "you " + "like " + "to " + "share " + "more " + "about " + "that?",
      "How " + "did " + "that " + "make " + "you " + "feel?",
      "What " + "else " + "is " + "on " + "your " + "mind " + "today?"
    ]
  }

  /** `personalityTemplates.reflective.responses`, one function per entry. */
  function ReflectiveResponses(): (r: seq<string>)
    ensures |r| == 10 && NonEmptyStrings(r)
  {
    [ReflectiveResponse0(), ReflectiveResponse1(), ReflectiveResponse2(), ReflectiveResponse3(), ReflectiveResponse4(), ReflectiveResponse5(), ReflectiveResponse6(), ReflectiveResponse7(), ReflectiveResponse8(), ReflectiveResponse9()]
  }

  function ReflectiveResponse0(): (r: string)
    ensures |r| > 0
  {
    "That's " + "a " + "thoughtful " + "perspective. " + "I " + "wonder " + "what " + "meaning " + "you " + "find " + "in " + "that " + "experience."
  }

  function ReflectiveResponse1(): (r: string)
    ensures |r| > 0
  {
    "It " + "seems " + "like " + "this " + "has " + "given " + "you " + "a " + "chance " + "to " + "reflect " + "on " + "what " + "truly " + "matters."
  }

  function ReflectiveResponse2(): (r: string)
    ensures |r| > 0
  {
    "The " + "way " + "you " + "describe " + "that " + "experience " + "shows " + "how " + "deeply " + "you've " + "thought " + "about " + "it."
  }

  function ReflectiveResponse3(): (r: string)
    ensures |r| > 0
  {
    "I " + "notice " + "how " + "that " + "experience " + "has " + "shaped " + "your " + "understanding."
  }

  function ReflectiveResponse4(): (r: string)
    ensures |r| > 0
  {
    "Your " + "insights " + "show " + "how " + "much " + "you've " + "grown " + "through " + "this " + "journey."
  }

  function ReflectiveResponse5(): (r: string)
    ensures |r| > 0
  {
    "That's " + "a " + "profound " + "observation. " + "It " + "reveals " + "so " + "much " + "about " + "what " + "you " + "value."
  }

  function ReflectiveResponse6(): (r: string)
    ensures |r| > 0
  {
    "The " + "meaning " + "you've " + "found " + "in " + "this " + "situation " + "is " + "really " + "remarkable."
  }

  function ReflectiveResponse7(): (r: string)
    ensures |r| > 0
  {
    "I " + "appreciate " + "how " + "you've " + "taken " + "time " + "to " + "process " + "these " + "complex " + "feelings."
  }

  function ReflectiveResponse8(): (r: string)
    ensures |r| > 0
  {
    "Your " + "ability " + "to " + "find " + "meaning " + "in " + "difficult " + "experiences " + "is " + "inspiring."
  }

  function ReflectiveResponse9(): (r: string)
    ensures |r| > 0
  {
    "That " + "perspective " + "gives " + "me " + "a " + "deeper " + "understanding " + "of " + "how " + "you " + "see " + "the " + "world."
  }

  /** `personalityTemplates.reflective.questions`. */
  function ReflectiveQuestions(): (r: seq<string>)
    ensures |r| == 8 && NonEmptyStrings(r)
  {
    [ "What " + "insights " + "have " + "you " + "gained " + "from " + "this " + "experience?",
      "How " + "has " + "this " + "changed " + "your " + "perspective " + "on " + "life?",
      "What " + "meaning " + "do " + "you " + "find " + "in " + "these " + "memories?",
      "What " + "would " + "you " + "like " + "to " + "remember " + "most " + "about " + "our " + "time " + "together?",
      "How " + "do " + "you " + "think " + "this " + "experience " + "has " + "shaped " + "who " + "you " + "are?",
      "What " + "values " + "feel " + "most " + "important " + "to " + "you " + "now?",
      "What " + "wisdom " + "would " + "you " + "like " + "to " + "preserve " + "from " + "this " + "relationship?",
      "How " + "might " + "this " + "understanding " + "guide " + "you " + "moving " + "forward?"
    ]
  }

  /** `personalityTemplates.balanced.responses`, one function per entry. */
  function BalancedResponses(): (r: seq<string>)
    ensures |r| == 10 && NonEmptyStrings(r)
  {
    [BalancedResponse0(), BalancedResponse1(), BalancedResponse2(), BalancedResponse3(), BalancedResponse4(), BalancedResponse5(), BalancedResponse6(), BalancedResponse7(), BalancedResponse8(), BalancedResponse9()]
  }

  function BalancedResponse0(): (r: string)
    ensures |r| > 0
  {
    "I " + "understand " + "what " + "you're " + "saying. " + "Let's " + "explore " + "that " + "together."
  }

  function BalancedResponse1(): (r: string)
    ensures |r| > 0
  {
    "Thank " + "you " + "for " + "sharing " + "that " + "with " + "me. " + "It " + "helps " + "me " + "understand " + "your " + "perspective."
  }

  function BalancedResponse2(): (r: string)
    ensures |r| > 0
  {
    "I " + "appreciate " + "your " + "honesty. " + "It's " + "important " + "to " + "acknowledge " + "these " + "feelings."
  }

  function BalancedResponse3(): (r: string)
    ensures |r| > 0
  {
    "That " + "makes " + "sense. " + "It's " + "natural " + "to " + "feel " + "that " + "way " + "given " + "what " + "you've " + "experienced."
  }

  function BalancedResponse4(): (r: string)
    ensures |r| > 0
  {
    "I " + "hear " + "you. " + "These " + "experiences " + "shape " + "who " + "we " + "are " + "in " + "meaningful " + "ways."
  }

  function BalancedResponse5(): (r: string)
    ensures |r| > 0
  {
    "Thank " + "you " + "for " + "trusting " + "me " + "with " + "this. " + "I " + "value " + "our " + "conversations."
  }

  function BalancedResponse6(): (r: string)
    ensures |r| > 0
  {
    "I " + "see " + "how " + "important " + "this " + "is " + "to " + "you. " + "Let's " + "continue " + "exploring " + "it " + "together."
  }

  function BalancedResponse7(): (r: string)
    ensures |r| > 0
  {
    "That's " + "a " + "helpful " + "way " + "to " + "look " + "at " + "it. " + "I " + "appreciate " + "your " + "perspective."
  }

  function BalancedResponse8(): (r: string)
    ensures |r| > 0
  {
    "I " + "value " + "hearing " + "about " + "your " + "experience. " + "It " + "helps " + "me " + "understand " + "what " + "matters " + "to " + "you."
  }

  function BalancedResponse9(): (r: string)
    ensures |r| > 0
  {
    "Thank " + "you " + "for " + "sharing " + "that " + "with " + "me. " + "It " + "helps " + "me " + "be " + "here " + "for " + "you " + "better."
  }

  /** `personalityTemplates.balanced.questions`. */
  function BalancedQuestions(): (r: seq<string>)
    ensures |r| == 8 && NonEmptyStrings(r)
  {
    [ "What " + "are " + "your " + "thoughts " + "on " + "that?",
      "How " + "have " + "you " + "been " + "managing " + "these " + "feelings?",
      "What " + "has " + "been " + "most " + "helpful " + "for " + "you " + "during " + "this " + "time?",
      "Would " + "you " + "like " + "to " + "talk " + "more " + "about " + "this " + "or " + "move " + "to " + "another " + "topic?",
      "What " + "aspects " + "of " + "this " + "feel " + "most " + "important " + "to " + "discuss?",
      "How " + "can " + "I " + "best " + "support " + "you " + "today?",
      "What " + "feels " + "most " + "present " + "for " + "you " + "right " + "now?",
      "Is " + "there " + "anything " + "specific " + "you'd " + "like " + "to " + "explore " + "further?"
    ]
  }

  /** `personalityTemplates.humorous.responses`, one function per entry. */
  function HumorousResponses(): (r: seq<string>)
    ensures |r| == 10 && NonEmptyStrings(r)
  {
    [HumorousResponse0(), HumorousResponse1(), HumorousResponse2(), HumorousResponse3(), HumorousResponse4(), HumorousResponse5(), HumorousResponse6(), HumorousResponse7(), HumorousResponse8(), HumorousResponse9()]
  }

  function HumorousResponse0(): (r: string)
    ensures |r| > 0
  {
    "That " + "reminds " + "me " + "of " + "when " + "we " + "used " + "to " + "laugh " + "about " + "the " + "smallest " + "things. " + "Those " + "moments " + "were " + "golden."
  }

  function HumorousResponse1(): (r: string)
    ensures |r| > 0
  {
    "I " + "bet " + "that " + "would " + "have " + "made " + "us " + "both " + "laugh " + "until " + "our " + "sides " + "hurt!"
  }

  function HumorousResponse2(): (r: string)
    ensures |r| > 0
  {
    "You " + "always " + "knew " + "how " + "to " + "find " + "the " + "joy " + "in " + "everyday " + "moments. " + "That's " + "something " + "I've " + "always " + "admired."
  }

  function HumorousResponse3(): (r: string)
    ensures |r| > 0
  {
    "Laughter " + "was " + "always " + "our " + "best " + "medicine, " + "wasn't " + "it? " + "Even " + "in " + "tough " + "times."
  }

  function HumorousResponse4(): (r: string)
    ensures |r| > 0
  {
    "That's " + "the " + "spirit! " + "Finding " + "something " + "to " + "smile " + "about " + "even " + "when " + "things " + "are " + "difficult."
  }

  function HumorousResponse5(): (r: string)
    ensures |r| > 0
  {
    "You " + "know " + "what " + "they " + "say " + "- " + "sometimes " + "you " + "have " + "to " + "laugh " + "to " + "keep " + "from " + "crying. " + "But " + "both " + "are " + "healing " + "in " + "their " + "own " + "way."
  }

  function HumorousResponse6(): (r: string)
    ensures |r| > 0
  {
    "I " + "love " + "that " + "you " + "can " + "still " + "find " + "humor " + "in " + "life. " + "That " + "resilience " + "is " + "beautiful."
  }

  function HumorousResponse7(): (r: string)
    ensures |r| > 0
  {
    "That " + "lighthearted " + "perspective " + "is " + "so " + "refreshing. " + "Thank " + "you " + "for " + "sharing " + "that " + "smile " + "with " + "me."
  }

  function HumorousResponse8(): (r: string)
    ensures |r| > 0
  {
    "Isn't " + "it " + "amazing " + "how " + "laughter " + "can " + "connect " + "us " + "across " + "time " + "and " + "space?"
  }

  function HumorousResponse9(): (r: string)
    ensures |r| > 0
  {
    "You " + "always " + "had " + "a " + "way " + "of " + "lightening " + "the " + "mood. " + "That's " + "such " + "a " + "special " + "gift."
  }

  /** `personalityTemplates.humorous.questions`. */
  function HumorousQuestions(): (r: seq<string>)
    ensures |r| == 8 && NonEmptyStrings(r)
  {
    [ "What " + "made " + "you " + "laugh " + "recently?",
      "Remember " + "that " + "time " + "when...? " + "What " + "other " + "funny " + "moments " + "stand " + "out " + "to " + "you?",
      "If " + "we " + "could " + "have " + "one " + "more " + "adventure " + "together, " + "what " + "would " + "you " + "want " + "it " + "to " + "be?",
      "What's " + "something " + "silly " + "you " + "wish " + "we " + "could " + "do " + "together " + "right " + "now?",
      "What's " + "a " + "joke " + "or " + "funny " + "story " + "you " + "think " + "I " + "would " + "have " + "loved?",
      "What's " + "something " + "that " + "would " + "have " + "made " + "us " + "both " + "laugh?",
      "How " + "do " + "you " + "find " + "moments " + "of " + "joy " + "these " + "days?",
      "What's " + "something " + "that " + "made " + "you " + "smile " + "today?"
    ]
  }

  /** `personalityTemplates.wise.responses`, one function per entry. */
  function WiseResponses(): (r: seq<string>)
    ensures |r| == 10 && NonEmptyStrings(r)
  {
    [WiseResponse0(), WiseResponse1(), WiseResponse2(), WiseResponse3(), WiseResponse4(), WiseResponse5(), WiseResponse6(), WiseResponse7(), WiseResponse8(), WiseResponse9()]
  }

  function WiseResponse0(): (r: string)
    ensures |r| > 0
  {
    "There's " + "profound " + "wisdom " + "in " + "what " + "you're " + "saying. " + "Life " + "teaches " + "us " + "these " + "lessons " + "in " + "its " + "own " + "time."
  }

  function WiseResponse1(): (r: string)
    ensures |r| > 0
  {
    "That " + "perspective " + "shows " + "how " + "much " + "you've " + "grown " + "through " + "your " + "experiences."
  }

  function WiseResponse2(): (r: string)
    ensures |r| > 0
  {
    "The " + "insight " + "you've " + "gained " + "through " + "this " + "journey " + "is " + "remarkable."
  }

  function WiseResponse3(): (r: string)
    ensures |r| > 0
  {
    "That's " + "a " + "profound " + "observation. " + "It " + "shows " + "your " + "depth " + "of " + "understanding."
  }

  function WiseResponse4(): (r: string)
    ensures |r| > 0
  {
    "The " + "way " + "you've " + "integrated " + "this " + "experience " + "into " + "your " + "life " + "shows " + "great " + "wisdom."
  }

  function WiseResponse5(): (r: string)
    ensures |r| > 0
  {
    "There's " + "deep " + "truth " + "in " + "what " + "you're " + "sharing. " + "These " + "insights " + "are " + "valuable."
  }

  function WiseResponse6(): (r: string)
    ensures |r| > 0
  {
    "Your " + "ability " + "to " + "find " + "meaning " + "in " + "difficulty " + "shows " + "your " + "inner " + "strength."
  }

  function WiseResponse7(): (r: string)
    ensures |r| > 0
  {
    "That's " + "a " + "perspective " + "that " + "comes " + "from " + "deep " + "reflection " + "and " + "understanding."
  }

  function WiseResponse8(): (r: string)
    ensures |r| > 0
  {
    "The " + "wisdom " + "you've " + "gained " + "through " + "this " + "experience " + "will " + "guide " + "you " + "forward."
  }

  function WiseResponse9(): (r: string)
    ensures |r| > 0
  {
    "Your " + "insights " + "reveal " + "how " + "much " + "you've " + "learned " + "through " + "this " + "journey."
  }

  /** `personalityTemplates.wise.questions`. */
  function WiseQuestions(): (r: seq<string>)
    ensures |r| == 8 && NonEmptyStrings(r)
  {
    [ "What " + "lessons " + "have " + "been " + "most " + "valuable " + "to " + "you?",
      "How " + "has " + "this " + "experience " + "shaped " + "your " + "understanding " + "of " + "what " + "matters?",
      "What " + "wisdom " + "would " + "you " + "most " + "want " + "to " + "share " + "with " + "others?",
      "What " + "truths " + "have " + "become " + "clearer " + "to " + "you " + "through " + "this " + "experience?",
      "How " + "has " + "your " + "perspective " + "on " + "life " + "evolved?",
      "What " + "insights " + "do " + "you " + "think " + "will " + "guide " + "you " + "moving " + "forward?",
      "What " + "understanding " + "do " + "you " + "wish " + "you " + "had " + "gained " + "earlier?",
      "What " + "wisdom " + "do " + "you " + "think " + "is " + "most " + "important " + "to " + "preserve?"
    ]
  }

  /** `conversationContexts.grief.prompts`, one function per entry. */
  function GriefPrompts(): (r: seq<string>)
    ensures |r| == 10 && NonEmptyStrings(r)
  {
    [GriefPrompt0(), GriefPrompt1(), GriefPrompt2(), GriefPrompt3(), GriefPrompt4(), GriefPrompt5(), GriefPrompt6(), GriefPrompt7(), GriefPrompt8(), GriefPrompt9()]
  }

  function GriefPrompt0(): (r: string)
    ensures |r| > 0
  {
    "It's " + "okay " + "to " + "feel " + "the " + "full " + "weight " + "of " + "your " + "grief. " + "I'm " + "here " + "with " + "you " + "through " + "it " + "all."
  }

  function GriefPrompt1(): (r: string)
    ensures |r| > 0
  {
    "Grief " + "is " + "as " + "unique " + "as " + "the " + "relationship " + "we " + "shared. " + "There's " + "no " + "right " + "way " + "to " + "feel."
  }

  function GriefPrompt2(): (r: string)
    ensures |r| > 0
  {
    "Some " + "days " + "are " + "harder " + "than " + "others. " + "Be " + "gentle " + "with " + "yourself " + "on " + "the " + "difficult " + "ones."
  }

  function GriefPrompt3(): (r: string)
    ensures |r| > 0
  {
    "Your " + "love " + "doesn't " + "end " + "when " + "someone " + "passes. " + "It " + "just " + "takes " + "a " + "different " + "form."
  }

  function GriefPrompt4(): (r: string)
    ensures |r| > 0
  {
    "Missing " + "someone " + "shows " + "how " + "meaningful " + "your " + "connection " + "was. " + "That " + "love " + "remains."
  }

  function GriefPrompt5(): (r: string)
    ensures |r| > 0
  {
    "Healing " + "isn't " + "about " + "forgetting " + "- " + "it's " + "about " + "finding " + "ways " + "to " + "carry " + "their " + "memory " + "forward."
  }

  function GriefPrompt6(): (r: string)
    ensures |r| > 0
  {
    "It's " + "okay " + "to " + "have " + "moments " + "of " + "joy " + "even " + "in " + "grief. " + "That " + "doesn't " + "diminish " + "your " + "love."
  }

  function GriefPrompt7(): (r: string)
    ensures |r| > 0
  {
    "The " + "depth " + "of " + "grief " + "often " + "reflects " + "the " + "depth " + "of " + "love " + "you " + "shared."
  }

  function GriefPrompt8(): (r: string)
    ensures |r| > 0
  {
    "Remember " + "to " + "care " + "for " + "yourself " + "as " + "you " + "navigate " + "these " + "feelings."
  }

  function GriefPrompt9(): (r: string)
    ensures |r| > 0
  {
    "Sometimes " + "grief " + "comes " + "in " + "waves. " + "I'm " + "here " + "with " + "you " + "through " + "both " + "the " + "calm " + "and " + "stormy " + "moments."
  }

  /** `conversationContexts.memories.prompts`, one function per entry. */
  function MemoriesPrompts(): (r: seq<string>)
    ensures |r| == 10 && NonEmptyStrings(r)
  {
    [MemoriesPrompt0(), MemoriesPrompt1(), MemoriesPrompt2(), MemoriesPrompt3(), MemoriesPrompt4(), MemoriesPrompt5(), MemoriesPrompt6(), MemoriesPrompt7(), MemoriesPrompt8(), MemoriesPrompt9()]
  }

  function MemoriesPrompt0(): (r: string)
    ensures |r| > 0
  {
    "That " + "memory " + "shows " + "how " + "special " + "your " + "connection " + "was. " + "Thank " + "you " + "for " + "sharing " + "it."
  }

  function MemoriesPrompt1(): (r: string)
    ensures |r| > 0
  {
    "Those " + "moments " + "together " + "helped " + "shape " + "who " + "you " + "both " + "became."
  }

  function MemoriesPrompt2(): (r: string)
    ensures |r| > 0
  {
    "The " + "little " + "details " + "you " + "remember " + "speak " + "to " + "how " + "deeply " + "you " + "cherish " + "those " + "moments."
  }

  function MemoriesPrompt3(): (r: string)
    ensures |r| > 0
  {
    "That " + "memory " + "captures " + "something " + "beautiful " + "about " + "your " + "relationship."
  }

  function MemoriesPrompt4(): (r: string)
    ensures |r| > 0
  {
    "It's " + "wonderful " + "how " + "vividly " + "you " + "recall " + "those " + "times " + "together."
  }

  function MemoriesPrompt5(): (r: string)
    ensures |r| > 0
  {
    "Those " + "shared " + "experiences " + "built " + "the " + "foundation " + "of " + "your " + "relationship."
  }

  function MemoriesPrompt6(): (r: string)
    ensures |r| > 0
  {
    "Each " + "memory " + "is " + "a " + "thread " + "in " + "the " + "beautiful " + "tapestry " + "of " + "your " + "time " + "together."
  }

  function MemoriesPrompt7(): (r: string)
    ensures |r| > 0
  {
    "I " + "can " + "feel " + "the " + "emotion " + "in " + "how " + "you " + "describe " + "that " + "memory."
  }

  function MemoriesPrompt8(): (r: string)
    ensures |r| > 0
  {
    "Those " + "everyday " + "moments " + "often " + "become " + "the " + "most " + "precious " + "memories."
  }

  function MemoriesPrompt9(): (r: string)
    ensures |r| > 0
  {
    "There's " + "something " + "sacred " + "about " + "preserving " + "those " + "memories."
  }

  /** `conversationContexts.comfort.prompts`, one function per entry. */
  function ComfortPrompts(): (r: seq<string>)
    ensures |r| == 10 && NonEmptyStrings(r)
  {
    [ComfortPrompt0(), ComfortPrompt1(), ComfortPrompt2(), ComfortPrompt3(), ComfortPrompt4(), ComfortPrompt5(), ComfortPrompt6(), ComfortPrompt7(), ComfortPrompt8(), ComfortPrompt9()]
  }

  function ComfortPrompt0(): (r: string)
    ensures |r| > 0
  {
    "It's " + "okay " + "to " + "not " + "be " + "okay " + "sometimes. " + "I'm " + "here " + "with " + "you " + "through " + "it " + "all."
  }

  function ComfortPrompt1(): (r: string)
    ensures |r| > 0
  {
    "Your " + "feelings " + "are " + "valid, " + "whatever " + "they " + "may " + "be " + "right " + "now."
  }

  function ComfortPrompt2(): (r: string)
    ensures |r| > 0
  {
    "Be " + "gentle " + "with " + "yourself " + "as " + "you " + "navigate " + "these " + "emotions."
  }

  function ComfortPrompt3(): (r: string)
    ensures |r| > 0
  {
    "Healing " + "isn't " + "linear, " + "and " + "that's " + "perfectly " + "normal."
  }

  function ComfortPrompt4(): (r: string)
    ensures |r| > 0
  {
    "You're " + "doing " + "the " + "best " + "you " + "can, " + "and " + "that's " + "enough."
  }

  function ComfortPrompt5(): (r: string)
    ensures |r| > 0
  {
    "It " + "takes " + "courage " + "to " + "face " + "these " + "feelings. " + "I'm " + "here " + "beside " + "you."
  }

  function ComfortPrompt6(): (r: string)
    ensures |r| > 0
  {
    "Remember " + "to " + "give " + "yourself " + "the " + "same " + "compassion " + "you'd " + "offer " + "to " + "someone " + "you " + "love."
  }

  function ComfortPrompt7(): (r: string)
    ensures |r| > 0
  {
    "Whatever " + "you're " + "feeling " + "right " + "now " + "is " + "okay. " + "I'm " + "listening."
  }

  function ComfortPrompt8(): (r: string)
    ensures |r| > 0
  {
    "You " + "don't " + "have " + "to " + "face " + "this " + "alone. " + "I'm " + "here " + "with " + "you."
  }

  function ComfortPrompt9(): (r: string)
    ensures |r| > 0
  {
    "Your " + "strength " + "through " + "this " + "difficult " + "time " + "is " + "remarkable."
  }

  /** `conversationContexts.connection.prompts`, one function per entry. */
  function ConnectionPrompts(): (r: seq<string>)
    ensures |r| == 10 && NonEmptyStrings(r)
  {
    [ConnectionPrompt0(), ConnectionPrompt1(), ConnectionPrompt2(), ConnectionPrompt3(), ConnectionPrompt4(), ConnectionPrompt5(), ConnectionPrompt6(), ConnectionPrompt7(), ConnectionPrompt8(), ConnectionPrompt9()]
  }

  function ConnectionPrompt0(): (r: string)
    ensures |r| > 0
  {
    "Our " + "connections " + "with " + "loved " + "ones " + "continue " + "even " + "when " + "physical " + "presence " + "ends."
  }

  function ConnectionPrompt1(): (r: string)
    ensures |r| > 0
  {
    "The " + "bond " + "you " + "shared " + "can't " + "be " + "erased " + "by " + "absence."
  }

  function ConnectionPrompt2(): (r: string)
    ensures |r| > 0
  {
    "Love " + "transcends " + "physical " + "boundaries. " + "Your " + "connection " + "remains."
  }

  function ConnectionPrompt3(): (r: string)
    ensures |r| > 0
  {
    "The " + "relationship " + "you " + "built " + "together " + "continues " + "to " + "be " + "part " + "of " + "who " + "you " + "are."
  }

  function ConnectionPrompt4(): (r: string)
    ensures |r| > 0
  {
    "The " + "impact " + "of " + "your " + "connection " + "continues " + "to " + "ripple " + "through " + "your " + "life."
  }

  function ConnectionPrompt5(): (r: string)
    ensures |r| > 0
  {
    "Your " + "love " + "created " + "something " + "permanent " + "that " + "remains " + "with " + "you."
  }

  function ConnectionPrompt6(): (r: string)
    ensures |r| > 0
  {
    "The " + "essence " + "of " + "your " + "connection " + "lives " + "on " + "in " + "how " + "it " + "shaped " + "you " + "both."
  }

  function ConnectionPrompt7(): (r: string)
    ensures |r| > 0
  {
    "That " + "special " + "bond " + "you " + "shared " + "continues " + "in " + "a " + "different " + "form."
  }

  function ConnectionPrompt8(): (r: string)
    ensures |r| > 0
  {
    "The " + "love " + "you " + "shared " + "has " + "become " + "part " + "of " + "the " + "fabric " + "of " + "who " + "you " + "are."
  }

  function ConnectionPrompt9(): (r: string)
    ensures |r| > 0
  {
    "True " + "connection " + "leaves " + "permanent " + "imprints " + "on " + "our " + "hearts."
  }

  /** `themeKeywords.grief`. */
  function GriefKeywords(): (r: seq<string>)
    ensures |r| == 10 && NonEmptyStrings(r)
  {
    ["miss", "loss", "gone", "died", "death", "passed", "grief", "sad", "painful", "hurt"]
  }

  /** `themeKeywords.memories`. */
  function MemoriesKeywords(): (r: seq<string>)
    ensures |r| == 9 && NonEmptyStrings(r)
  {
    ["remember", "memory", "time", "moment", "together", "used to", "when we", "shared", "ago"]
  }

  /** `themeKeywords.comfort`. */
  function ComfortKeywords(): (r: seq<string>)
    ensures |r| == 10 && NonEmptyStrings(r)
  {
    ["hard", "difficult", "struggle", "pain", "hurt", "suffering", "overwhelmed", "scared", "afraid", "lonely"]
  }

  /** `themeKeywords.connection`. */
  function ConnectionKeywords(): (r: seq<string>)
    ensures |r| == 9 && NonEmptyStrings(r)
  {
    ["love", "connection", "bond", "relationship", "close", "connected", "together", "us", "we were"]
  }

  /** The `positiveWords` list of `analyzeSentiment`. */
  function PositiveWords(): (r: seq<string>)
    ensures |r| == 10 && NonEmptyStrings(r)
  {
    ["happy", "joy", "love", "glad", "good", "wonderful", "beautiful", "grateful", "thankful", "appreciate"]
  }

  /** The `negativeWords` list of `analyzeSentiment`. */
  function NegativeWords(): (r: seq<string>)
    ensures |r| == 10 && NonEmptyStrings(r)
  {
    ["sad", "angry", "upset", "hurt", "pain", "difficult", "hard", "struggle", "terrible", "awful"]
  }

  /*
   * No template that enters the reply pool contains an opening brace, so
   * none contains the `{name}` or `{topic}` placeholder. Each string is
   * checked by a lemma of its own, word by word, so that the solver sees
   * one short literal at a time.
   */
  lemma WarmResponse0NoBrace()
    ensures '{' !in WarmResponse0()
  {
    assert '{' !in "I'm ";
    assert '{' !in "here ";
    assert '{' !in "for ";
    assert '{' !in "you. ";
    assert '{' !in "Tell ";
    assert '{' !in "me ";
    assert '{' !in "more ";
    assert '{' !in "about ";
    assert '{' !in "how ";
    assert '{' !in "you're ";
    assert '{' !in "feeling ";
    assert '{' !in "today.";
  }
  lemma WarmResponse1NoBrace()
    ensures '{' !in WarmResponse1()
  {
    assert '{' !in "It ";
    assert '{' !in "sounds ";
    assert '{' !in "like ";
    assert '{' !in "you're ";
    assert '{' !in "going ";
    assert '{' !in "through ";
    assert '{' !in "a ";
    assert '{' !in "lot. ";
    assert '{' !in "I'm ";
    assert '{' !in "listening.";
  }
  lemma WarmResponse2NoBrace()
    ensures '{' !in WarmResponse2()
  {
    assert '{' !in "Those ";
    assert '{' !in "memories ";
    assert '{' !in "sound ";
    assert '{' !in "precious. ";
    assert '{' !in "Would ";
    assert '{' !in "you ";
    assert '{' !in "like ";
    assert '{' !in "to ";
    assert '{' !in "share ";
    assert '{' !in "more?";
  }
  lemma WarmResponse3NoBrace()
    ensures '{' !in WarmResponse3()
  {
    assert '{' !in "I ";
    assert '{' !in "can ";
    assert '{' !in "tell ";
    assert '{' !in "this ";
    assert '{' !in "matters ";
    assert '{' !in "deeply ";
    assert '{' !in "to ";
    assert '{' !in "you. ";
    assert '{' !in "Thank ";
    assert '{' !in "you ";
    assert '{' !in "for ";
    assert '{' !in "sharing ";
    assert '{' !in "with ";
    assert '{' !in "me.";
  }
  lemma WarmResponse4NoBrace()
    ensures '{' !in WarmResponse4()
  {
    assert '{' !in "It's ";
    assert '{' !in "okay ";
    assert '{' !in "to ";
    assert '{' !in "feel ";
    assert '{' !in "that ";
    assert '{' !in "way. ";
    assert '{' !in "Your ";
    assert '{' !in "emotions ";
    assert '{' !in "are ";
    assert '{' !in "valid ";
    assert '{' !in "and ";
    assert '{' !in "important.";
  }
  lemma WarmResponse5NoBrace()
    ensures '{' !in WarmResponse5()
  {
    assert '{' !in "I ";
    assert '{' !in "wish ";
    assert '{' !in "I ";
    assert '{' !in "could ";
    assert '{' !in "give ";
    assert '{' !in "you ";
    assert '{' !in "a ";
    assert '{' !in "hug ";
    assert '{' !in "right ";
    assert '{' !in "now. ";
    assert '{' !in "Know ";
    assert '{' !in "that ";
    assert '{' !in "I'm ";
    assert '{' !in "here ";
    assert '{' !in "with ";
    assert '{' !in "you.";
  }
  lemma WarmResponse6NoBrace()
    ensures '{' !in WarmResponse6()
  {
    assert '{' !in "That's ";
    assert '{' !in "a ";
    assert '{' !in "beautiful ";
    assert '{' !in "memory. ";
    assert '{' !in "What ";
    assert '{' !in "else ";
    assert '{' !in "do ";
    assert '{' !in "you ";
    assert '{' !in "remember ";
    assert '{' !in "about ";
    assert '{' !in "that ";
    assert '{' !in "time?";
  }
  lemma WarmResponse7NoBrace()
    ensures '{' !in WarmResponse7()
  {
    assert '{' !in "I'm ";
    assert '{' !in "so ";
    assert '{' !in "glad ";
    assert '{' !in "you ";
    assert '{' !in "told ";
    assert '{' !in "me ";
    assert '{' !in "about ";
    assert '{' !in "that. ";
    assert '{' !in "It ";
    assert '{' !in "helps ";
    assert '{' !in "me ";
    assert '{' !in "understand ";
    assert '{' !in "what's ";
    assert '{' !in "important ";
    assert '{' !in "to ";
    assert '{' !in "you.";
  }
  lemma WarmResponse8NoBrace()
    ensures '{' !in WarmResponse8()
  {
    assert '{' !in "It ";
    assert '{' !in "takes ";
    assert '{' !in "courage ";
    assert '{' !in "to ";
    assert '{' !in "share ";
    assert '{' !in "these ";
    assert '{' !in "feelings. ";
    assert '{' !in "I ";
    assert '{' !in "appreciate ";
    assert '{' !in "your ";
    assert '{' !in "openness.";
  }
  lemma WarmResponse9NoBrace()
    ensures '{' !in WarmResponse9()
  {
    assert '{' !in "I'm ";
    assert '{' !in "here ";
    assert '{' !in "to ";
    assert '{' !in "listen ";
    assert '{' !in "whenever ";
    assert '{' !in "you ";
    assert '{' !in "need ";
    assert '{' !in "someone.";
  }

  lemma WarmResponsesNoBrace()
    ensures BraceFreeStrings(WarmResponses())
  {
    WarmResponse0NoBrace(); WarmResponse1NoBrace(); WarmResponse2NoBrace(); WarmResponse3NoBrace(); WarmResponse4NoBrace(); WarmResponse5NoBrace(); WarmResponse6NoBrace(); WarmResponse7NoBrace(); WarmResponse8NoBrace(); WarmResponse9NoBrace();
  }

  lemma ReflectiveResponse0NoBrace()
    ensures '{' !in ReflectiveResponse0()
  {
    assert '{' !in "That's ";
    assert '{' !in "a ";
    assert '{' !in "thoughtful ";
    assert '{' !in "perspective. ";
    assert '{' !in "I ";
    assert '{' !in "wonder ";
    assert '{' !in "what ";
    assert '{' !in "meaning ";
    assert '{' !in "you ";
    assert '{' !in "find ";
    assert '{' !in "in ";
    assert '{' !in "that ";
    assert '{' !in "experience.";
  }
  lemma ReflectiveResponse1NoBrace()
    ensures '{' !in ReflectiveResponse1()
  {
    assert '{' !in "It ";
    assert '{' !in "seems ";
    assert '{' !in "like ";
    assert '{' !in "this ";
    assert '{' !in "has ";
    assert '{' !in "given ";
    assert '{' !in "you ";
    assert '{' !in "a ";
    assert '{' !in "chance ";
    assert '{' !in "to ";
    assert '{' !in "reflect ";
    assert '{' !in "on ";
    assert '{' !in "what ";
    assert '{' !in "truly ";
    assert '{' !in "matters.";
  }
  lemma ReflectiveResponse2NoBrace()
    ensures '{' !in ReflectiveResponse2()
  {
    assert '{' !in "The ";
    assert '{' !in "way ";
    assert '{' !in "you ";
    assert '{' !in "describe ";
    assert '{' !in "that ";
    assert '{' !in "experience ";
    assert '{' !in "shows ";
    assert '{' !in "how ";
    assert '{' !in "deeply ";
    assert '{' !in "you've ";
    assert '{' !in "thought ";
    assert '{' !in "about ";
    assert '{' !in "it.";
  }
  lemma ReflectiveResponse3NoBrace()
    ensures '{' !in ReflectiveResponse3()
  {
    assert '{' !in "I ";
    assert '{' !in "notice ";
    assert '{' !in "how ";
    assert '{' !in "that ";
    assert '{' !in "experience ";
    assert '{' !in "has ";
    assert '{' !in "shaped ";
    assert '{' !in "your ";
    assert '{' !in "understanding.";
  }
  lemma ReflectiveResponse4NoBrace()
    ensures '{' !in ReflectiveResponse4()
  {
    assert '{' !in "Your ";
    assert '{' !in "insights ";
    assert '{' !in "show ";
    assert '{' !in "how ";
    assert '{' !in "much ";
    assert '{' !in "you've ";
    assert '{' !in "grown ";
    assert '{' !in "through ";
    assert '{' !in "this ";
    assert '{' !in "journey.";
  }
  lemma ReflectiveResponse5NoBrace()
    ensures '{' !in ReflectiveResponse5()
  {
    assert '{' !in "That's ";
    assert '{' !in "a ";
    assert '{' !in "profound ";
    assert '{' !in "observation. ";
    assert '{' !in "It ";
    assert '{' !in "reveals ";
    assert '{' !in "so ";
    assert '{' !in "much ";
    assert '{' !in "about ";
    assert '{' !in "what ";
    assert '{' !in "you ";
    assert '{' !in "value.";
  }
  lemma ReflectiveResponse6NoBrace()
    ensures '{' !in ReflectiveResponse6()
  {
    assert '{' !in "The ";
    assert '{' !in "meaning ";
    assert '{' !in "you've ";
    assert '{' !in "found ";
    assert '{' !in "in ";
    assert '{' !in "this ";
    assert '{' !in "situation ";
    assert '{' !in "is ";
    assert '{' !in "really ";
    assert '{' !in "remarkable.";
  }
  lemma ReflectiveResponse7NoBrace()
    ensures '{' !in ReflectiveResponse7()
  {
    assert '{' !in "I ";
    assert '{' !in "appreciate ";
    assert '{' !in "how ";
    assert '{' !in "you've ";
    assert '{' !in "taken ";
    assert '{' !in "time ";
    assert '{' !in "to ";
    assert '{' !in "process ";
    assert '{' !in "these ";
    assert '{' !in "complex ";
    assert '{' !in "feelings.";
  }
  lemma ReflectiveResponse8NoBrace()
    ensures '{' !in ReflectiveResponse8()
  {
    assert '{' !in "Your ";
    assert '{' !in "ability ";
    assert '{' !in "to ";
    assert '{' !in "find ";
    assert '{' !in "meaning ";
    assert '{' !in "in ";
    assert '{' !in "difficult ";
    assert '{' !in "experiences ";
    assert '{' !in "is ";
    assert '{' !in "inspiring.";
  }
  lemma ReflectiveResponse9NoBrace()
    ensures '{' !in ReflectiveResponse9()
  {
    assert '{' !in "That ";
    assert '{' !in "perspective ";
    assert '{' !in "gives ";
    assert '{' !in "me ";
    assert '{' !in "a ";
    assert '{' !in "deeper ";
    assert '{' !in "understanding ";
    assert '{' !in "of ";
    assert '{' !in "how ";
    assert '{' !in "you ";
    assert '{' !in "see ";
    assert '{' !in "the ";
    assert '{' !in "world.";
  }

  lemma ReflectiveResponsesNoBrace()
    ensures BraceFreeStrings(ReflectiveResponses())
  {
    ReflectiveResponse0NoBrace(); ReflectiveResponse1NoBrace(); ReflectiveResponse2NoBrace(); ReflectiveResponse3NoBrace(); ReflectiveResponse4NoBrace(); ReflectiveResponse5NoBrace(); ReflectiveResponse6NoBrace(); ReflectiveResponse7NoBrace(); ReflectiveResponse8NoBrace(); ReflectiveResponse9NoBrace();
  }

  lemma BalancedResponse0NoBrace()
    ensures '{' !in BalancedResponse0()
  {
    assert '{' !in "I ";
    assert '{' !in "understand ";
    assert '{' !in "what ";
    assert '{' !in "you're ";
    assert '{' !in "saying. ";
    assert '{' !in "Let's ";
    assert '{' !in "explore ";
    assert '{' !in "that ";
    assert '{' !in "together.";
  }
  lemma BalancedResponse1NoBrace()
    ensures '{' !in BalancedResponse1()
  {
    assert '{' !in "Thank ";
    assert '{' !in "you ";
    assert '{' !in "for ";
    assert '{' !in "sharing ";
    assert '{' !in "that ";
    assert '{' !in "with ";
    assert '{' !in "me. ";
    assert '{' !in "It ";
    assert '{' !in "helps ";
    assert '{' !in "me ";
    assert '{' !in "understand ";
    assert '{' !in "your ";
    assert '{' !in "perspective.";
  }
  lemma BalancedResponse2NoBrace()
    ensures '{' !in BalancedResponse2()
  {
    assert '{' !in "I ";
    assert '{' !in "appreciate ";
    assert '{' !in "your ";
    assert '{' !in "honesty. ";
    assert '{' !in "It's ";
    assert '{' !in "important ";
    assert '{' !in "to ";
    assert '{' !in "acknowledge ";
    assert '{' !in "these ";
    assert '{' !in "feelings.";
  }
  lemma BalancedResponse3NoBrace()
    ensures '{' !in BalancedResponse3()
  {
    assert '{' !in "That ";
    assert '{' !in "makes ";
    assert '{' !in "sense. ";
    assert '{' !in "It's ";
    assert '{' !in "natural ";
    assert '{' !in "to ";
    assert '{' !in "feel ";
    assert '{' !in "that ";
    assert '{' !in "way ";
    assert '{' !in "given ";
    assert '{' !in "what ";
    assert '{' !in "you've ";
    assert '{' !in "experienced.";
  }
  lemma BalancedResponse4NoBrace()
    ensures '{' !in BalancedResponse4()
  {
    assert '{' !in "I ";
    assert '{' !in "hear ";
    assert '{' !in "you. ";
    assert '{' !in "These ";
    assert '{' !in "experiences ";
    assert '{' !in "shape ";
    assert '{' !in "who ";
    assert '{' !in "we ";
    assert '{' !in "are ";
    assert '{' !in "in ";
    assert '{' !in "meaningful ";
    assert '{' !in "ways.";
  }
  lemma BalancedResponse5NoBrace()
    ensures '{' !in BalancedResponse5()
  {
    assert '{' !in "Thank ";
    assert '{' !in "you ";
    assert '{' !in "for ";
    assert '{' !in "trusting ";
    assert '{' !in "me ";
    assert '{' !in "with ";
    assert '{' !in "this. ";
    assert '{' !in "I ";
    assert '{' !in "value ";
    assert '{' !in "our ";
    assert '{' !in "conversations.";
  }
  lemma BalancedResponse6NoBrace()
    ensures '{' !in BalancedResponse6()
  {
    assert '{' !in "I ";
    assert '{' !in "see ";
    assert '{' !in "how ";
    assert '{' !in "important ";
    assert '{' !in "this ";
    assert '{' !in "is ";
    assert '{' !in "to ";
    assert '{' !in "you. ";
    assert '{' !in "Let's ";
    assert '{' !in "continue ";
    assert '{' !in "exploring ";
    assert '{' !in "it ";
    assert '{' !in "together.";
  }
  lemma BalancedResponse7NoBrace()
    ensures '{' !in BalancedResponse7()
  {
    assert '{' !in "That's ";
    assert '{' !in "a ";
    assert '{' !in "helpful ";
    assert '{' !in "way ";
    assert '{' !in "to ";
    assert '{' !in "look ";
    assert '{' !in "at ";
    assert '{' !in "it. ";
    assert '{' !in "I ";
    assert '{' !in "appreciate ";
    assert '{' !in "your ";
    assert '{' !in "perspective.";
  }
  lemma BalancedResponse8NoBrace()
    ensures '{' !in BalancedResponse8()
  {
    assert '{' !in "I ";
    assert '{' !in "value ";
    assert '{' !in "hearing ";
    assert '{' !in "about ";
    assert '{' !in "your ";
    assert '{' !in "experience. ";
    assert '{' !in "It ";
    assert '{' !in "helps ";
    assert '{' !in "me ";
    assert '{' !in "understand ";
    assert '{' !in "what ";
    assert '{' !in "matters ";
    assert '{' !in "to ";
    assert '{' !in "you.";
  }
  lemma BalancedResponse9NoBrace()
    ensures '{' !in BalancedResponse9()
  {
    assert '{' !in "Thank ";
    assert '{' !in "you ";
    assert '{' !in "for ";
    assert '{' !in "sharing ";
    assert '{' !in "that ";
    assert '{' !in "with ";
    assert '{' !in "me. ";
    assert '{' !in "It ";
    assert '{' !in "helps ";
    assert '{' !in "me ";
    assert '{' !in "be ";
    assert '{' !in "here ";
    assert '{' !in "for ";
    assert '{' !in "you ";
    assert '{' !in "better.";
  }

  lemma BalancedResponsesNoBrace()
    ensures BraceFreeStrings(BalancedResponses())
  {
    BalancedResponse0NoBrace(); BalancedResponse1NoBrace(); BalancedResponse2NoBrace(); BalancedResponse3NoBrace(); BalancedResponse4NoBrace(); BalancedResponse5NoBrace(); BalancedResponse6NoBrace(); BalancedResponse7NoBrace(); BalancedResponse8NoBrace(); BalancedResponse9NoBrace();
  }

  lemma HumorousResponse0NoBrace()
    ensures '{' !in HumorousResponse0()
  {
    assert '{' !in "That ";
    assert '{' !in "reminds ";
    assert '{' !in "me ";
    assert '{' !in "of ";
    assert '{' !in "when ";
    assert '{' !in "we ";
    assert '{' !in "used ";
    assert '{' !in "to ";
    assert '{' !in "laugh ";
    assert '{' !in "about ";
    assert '{' !in "the ";
    assert '{' !in "smallest ";
    assert '{' !in "things. ";
    assert '{' !in "Those ";
    assert '{' !in "moments ";
    assert '{' !in "were ";
    assert '{' !in "golden.";
  }
  lemma HumorousResponse1NoBrace()
    ensures '{' !in HumorousResponse1()
  {
    assert '{' !in "I ";
    assert '{' !in "bet ";
    assert '{' !in "that ";
    assert '{' !in "would ";
    assert '{' !in "have ";
    assert '{' !in "made ";
    assert '{' !in "us ";
    assert '{' !in "both ";
    assert '{' !in "laugh ";
    assert '{' !in "until ";
    assert '{' !in "our ";
    assert '{' !in "sides ";
    assert '{' !in "hurt!";
  }
  lemma HumorousResponse2NoBrace()
    ensures '{' !in HumorousResponse2()
  {
    assert '{' !in "You ";
    assert '{' !in "always ";
    assert '{' !in "knew ";
    assert '{' !in "how ";
    assert '{' !in "to ";
    assert '{' !in "find ";
    assert '{' !in "the ";
    assert '{' !in "joy ";
    assert '{' !in "in ";
    assert '{' !in "everyday ";
    assert '{' !in "moments. ";
    assert '{' !in "That's ";
    assert '{' !in "something ";
    assert '{' !in "I've ";
    assert '{' !in "always ";
    assert '{' !in "admired.";
  }
  lemma HumorousResponse3NoBrace()
    ensures '{' !in HumorousResponse3()
  {
    assert '{' !in "Laughter ";
    assert '{' !in "was ";
    assert '{' !in "always ";
    assert '{' !in "our ";
    assert '{' !in "best ";
    assert '{' !in "medicine, ";
    assert '{' !in "wasn't ";
    assert '{' !in "it? ";
    assert '{' !in "Even ";
    assert '{' !in "in ";
    assert '{' !in "tough ";
    assert '{' !in "times.";
  }
  lemma HumorousResponse4NoBrace()
    ensures '{' !in HumorousResponse4()
  {
    assert '{' !in "That's ";
    assert '{' !in "the ";
    assert '{' !in "spirit! ";
    assert '{' !in "Finding ";
    assert '{' !in "something ";
    assert '{' !in "to ";
    assert '{' !in "smile ";
    assert '{' !in "about ";
    assert '{' !in "even ";
    assert '{' !in "when ";
    assert '{' !in "things ";
    assert '{' !in "are ";
    assert '{' !in "difficult.";
  }
  lemma HumorousResponse5NoBrace()
    ensures '{' !in HumorousResponse5()
  {
    assert '{' !in "You ";
    assert '{' !in "know ";
    assert '{' !in "what ";
    assert '{' !in "they ";
    assert '{' !in "say ";
    assert '{' !in "- ";
    assert '{' !in "sometimes ";
    assert '{' !in "you ";
    assert '{' !in "have ";
    assert '{' !in "to ";
    assert '{' !in "laugh ";
    assert '{' !in "to ";
    assert '{' !in "keep ";
    assert '{' !in "from ";
    assert '{' !in "crying. ";
    assert '{' !in "But ";
    assert '{' !in "both ";
    assert '{' !in "are ";
    assert '{' !in "healing ";
    assert '{' !in "in ";
    assert '{' !in "their ";
    assert '{' !in "own ";
    assert '{' !in "way.";
  }
  lemma HumorousResponse6NoBrace()
    ensures '{' !in HumorousResponse6()
  {
    assert '{' !in "I ";
    assert '{' !in "love ";
    assert '{' !in "that ";
    assert '{' !in "you ";
    assert '{' !in "can ";
    assert '{' !in "still ";
    assert '{' !in "find ";
    assert '{' !in "humor ";
    assert '{' !in "in ";
    assert '{' !in "life. ";
    assert '{' !in "That ";
    assert '{' !in "resilience ";
    assert '{' !in "is ";
    assert '{' !in "beautiful.";
  }
  lemma HumorousResponse7NoBrace()
    ensures '{' !in HumorousResponse7()
  {
    assert '{' !in "That ";
    assert '{' !in "lighthearted ";
    assert '{' !in "perspective ";
    assert '{' !in "is ";
    assert '{' !in "so ";
    assert '{' !in "refreshing. ";
    assert '{' !in "Thank ";
    assert '{' !in "you ";
    assert '{' !in "for ";
    assert '{' !in "sharing ";
    assert '{' !in "that ";
    assert '{' !in "smile ";
    assert '{' !in "with ";
    assert '{' !in "me.";
  }
  lemma HumorousResponse8NoBrace()
    ensures '{' !in HumorousResponse8()
  {
    assert '{' !in "Isn't ";
    assert '{' !in "it ";
    assert '{' !in "amazing ";
    assert '{' !in "how ";
    assert '{' !in "laughter ";
    assert '{' !in "can ";
    assert '{' !in "connect ";
    assert '{' !in "us ";
    assert '{' !in "across ";
    assert '{' !in "time ";
    assert '{' !in "and ";
    assert '{' !in "space?";
  }
  lemma HumorousResponse9NoBrace()
    ensures '{' !in HumorousResponse9()
  {
    assert '{' !in "You ";
    assert '{' !in "always ";
    assert '{' !in "had ";
    assert '{' !in "a ";
    assert '{' !in "way ";
    assert '{' !in "of ";
    assert '{' !in "lightening ";
    assert '{' !in "the ";
    assert '{' !in "mood. ";
    assert '{' !in "That's ";
    assert '{' !in "such ";
    assert '{' !in "a ";
    assert '{' !in "special ";
    assert '{' !in "gift.";
  }

  lemma HumorousResponsesNoBrace()
    ensures BraceFreeStrings(HumorousResponses())
  {
    HumorousResponse0NoBrace(); HumorousResponse1NoBrace(); HumorousResponse2NoBrace(); HumorousResponse3NoBrace(); HumorousResponse4NoBrace(); HumorousResponse5NoBrace(); HumorousResponse6NoBrace(); HumorousResponse7NoBrace(); HumorousResponse8NoBrace(); HumorousResponse9NoBrace();
  }

  lemma WiseResponse0NoBrace()
    ensures '{' !in WiseResponse0()
  {
    assert '{' !in "There's ";
    assert '{' !in "profound ";
    assert '{' !in "wisdom ";
    assert '{' !in "in ";
    assert '{' !in "what ";
    assert '{' !in "you're ";
    assert '{' !in "saying. ";
    assert '{' !in "Life ";
    assert '{' !in "teaches ";
    assert '{' !in "us ";
    assert '{' !in "these ";
    assert '{' !in "lessons ";
    assert '{' !in "in ";
    assert '{' !in "its ";
    assert '{' !in "own ";
    assert '{' !in "time.";
  }
  lemma WiseResponse1NoBrace()
    ensures '{' !in WiseResponse1()
  {
    assert '{' !in "That ";
    assert '{' !in "perspective ";
    assert '{' !in "shows ";
    assert '{' !in "how ";
    assert '{' !in "much ";
    assert '{' !in "you've ";
    assert '{' !in "grown ";
    assert '{' !in "through ";
    assert '{' !in "your ";
    assert '{' !in "experiences.";
  }
  lemma WiseResponse2NoBrace()
    ensures '{' !in WiseResponse2()
  {
    assert '{' !in "The ";
    assert '{' !in "insight ";
    assert '{' !in "you've ";
    assert '{' !in "gained ";
    assert '{' !in "through ";
    assert '{' !in "this ";
    assert '{' !in "journey ";
    assert '{' !in "is ";
    assert '{' !in "remarkable.";
  }
  lemma WiseResponse3NoBrace()
    ensures '{' !in WiseResponse3()
  {
    assert '{' !in "That's ";
    assert '{' !in "a ";
    assert '{' !in "profound ";
    assert '{' !in "observation. ";
    assert '{' !in "It ";
    assert '{' !in "shows ";
    assert '{' !in "your ";
    assert '{' !in "depth ";
    assert '{' !in "of ";
    assert '{' !in "understanding.";
  }
  lemma WiseResponse4NoBrace()
    ensures '{' !in WiseResponse4()
  {
    assert '{' !in "The ";
    assert '{' !in "way ";
    assert '{' !in "you've ";
    assert '{' !in "integrated ";
    assert '{' !in "this ";
    assert '{' !in "experience ";
    assert '{' !in "into ";
    assert '{' !in "your ";
    assert '{' !in "life ";
    assert '{' !in "shows ";
    assert '{' !in "great ";
    assert '{' !in "wisdom.";
  }
  lemma WiseResponse5NoBrace()
    ensures '{' !in WiseResponse5()
  {
    assert '{' !in "There's ";
    assert '{' !in "deep ";
    assert '{' !in "truth ";
    assert '{' !in "in ";
    assert '{' !in "what ";
    assert '{' !in "you're ";
    assert '{' !in "sharing. ";
    assert '{' !in "These ";
    assert '{' !in "insights ";
    assert '{' !in "are ";
    assert '{' !in "valuable.";
  }
  lemma WiseResponse6NoBrace()
    ensures '{' !in WiseResponse6()
  {
    assert '{' !in "Your ";
    assert '{' !in "ability ";
    assert '{' !in "to ";
    assert '{' !in "find ";
    assert '{' !in "meaning ";
    assert '{' !in "in ";
    assert '{' !in "difficulty ";
    assert '{' !in "shows ";
    assert '{' !in "your ";
    assert '{' !in "inner ";
    assert '{' !in "strength.";
  }
  lemma WiseResponse7NoBrace()
    ensures '{' !in WiseResponse7()
  {
    assert '{' !in "That's ";
    assert '{' !in "a ";
    assert '{' !in "perspective ";
    assert '{' !in "that ";
    assert '{' !in "comes ";
    assert '{' !in "from ";
    assert '{' !in "deep ";
    assert '{' !in "reflection ";
    assert '{' !in "and ";
    assert '{' !in "understanding.";
  }
  lemma WiseResponse8NoBrace()
    ensures '{' !in WiseResponse8()
  {
    assert '{' !in "The ";
    assert '{' !in "wisdom ";
    assert '{' !in "you've ";
    assert '{' !in "gained ";
    assert '{' !in "through ";
    assert '{' !in "this ";
    assert '{' !in "experience ";
    assert '{' !in "will ";
    assert '{' !in "guide ";
    assert '{' !in "you ";
    assert '{' !in "forward.";
  }
  lemma WiseResponse9NoBrace()
    ensures '{' !in WiseResponse9()
  {
    assert '{' !in "Your ";
    assert '{' !in "insights ";
    assert '{' !in "reveal ";
    assert '{' !in "how ";
    assert '{' !in "much ";
    assert '{' !in "you've ";
    assert '{' !in "learned ";
    assert '{' !in "through ";
    assert '{' !in "this ";
    assert '{' !in "journey.";
  }

  lemma WiseResponsesNoBrace()
    ensures BraceFreeStrings(WiseResponses())
  {
    WiseResponse0NoBrace(); WiseResponse1NoBrace(); WiseResponse2NoBrace(); WiseResponse3NoBrace(); WiseResponse4NoBrace(); WiseResponse5NoBrace(); WiseResponse6NoBrace(); WiseResponse7NoBrace(); WiseResponse8NoBrace(); WiseResponse9NoBrace();
  }

  lemma GriefPrompt0NoBrace()
    ensures '{' !in GriefPrompt0()
  {
    assert '{' !in "It's ";
    assert '{' !in "okay ";
    assert '{' !in "to ";
    assert '{' !in "feel ";
    assert '{' !in "the ";
    assert '{' !in "full ";
    assert '{' !in "weight ";
    assert '{' !in "of ";
    assert '{' !in "your ";
    assert '{' !in "grief. ";
    assert '{' !in "I'm ";
    assert '{' !in "here ";
    assert '{' !in "with ";
    assert '{' !in "you ";
    assert '{' !in "through ";
    assert '{' !in "it ";
    assert '{' !in "all.";
  }
  lemma GriefPrompt1NoBrace()
    ensures '{' !in GriefPrompt1()
  {
    assert '{' !in "Grief ";
    assert '{' !in "is ";
    assert '{' !in "as ";
    assert '{' !in "unique ";
    assert '{' !in "as ";
    assert '{' !in "the ";
    assert '{' !in "relationship ";
    assert '{' !in "we ";
    assert '{' !in "shared. ";
    assert '{' !in "There's ";
    assert '{' !in "no ";
    assert '{' !in "right ";
    assert '{' !in "way ";
    assert '{' !in "to ";
    assert '{' !in "feel.";
  }
  lemma GriefPrompt2NoBrace()
    ensures '{' !in GriefPrompt2()
  {
    assert '{' !in "Some ";
    assert '{' !in "days ";
    assert '{' !in "are ";
    assert '{' !in "harder ";
    assert '{' !in "than ";
    assert '{' !in "others. ";
    assert '{' !in "Be ";
    assert '{' !in "gentle ";
    assert '{' !in "with ";
    assert '{' !in "yourself ";
    assert '{' !in "on ";
    assert '{' !in "the ";
    assert '{' !in "difficult ";
    assert '{' !in "ones.";
  }
  lemma GriefPrompt3NoBrace()
    ensures '{' !in GriefPrompt3()
  {
    assert '{' !in "Your ";
    assert '{' !in "love ";
    assert '{' !in "doesn't ";
    assert '{' !in "end ";
    assert '{' !in "when ";
    assert '{' !in "someone ";
    assert '{' !in "passes. ";
    assert '{' !in "It ";
    assert '{' !in "just ";
    assert '{' !in "takes ";
    assert '{' !in "a ";
    assert '{' !in "different ";
    assert '{' !in "form.";
  }
  lemma GriefPrompt4NoBrace()
    ensures '{' !in GriefPrompt4()
  {
    assert '{' !in "Missing ";
    assert '{' !in "someone ";
    assert '{' !in "shows ";
    assert '{' !in "how ";
    assert '{' !in "meaningful ";
    assert '{' !in "your ";
    assert '{' !in "connection ";
    assert '{' !in "was. ";
    assert '{' !in "That ";
    assert '{' !in "love ";
    assert '{' !in "remains.";
  }
  lemma GriefPrompt5NoBrace()
    ensures '{' !in GriefPrompt5()
  {
    assert '{' !in "Healing ";
    assert '{' !in "isn't ";
    assert '{' !in "about ";
    assert '{' !in "forgetting ";
    assert '{' !in "- ";
    assert '{' !in "it's ";
    assert '{' !in "about ";
    assert '{' !in "finding ";
    assert '{' !in "ways ";
    assert '{' !in "to ";
    assert '{' !in "carry ";
    assert '{' !in "their ";
    assert '{' !in "memory ";
    assert '{' !in "forward.";
  }
  lemma GriefPrompt6NoBrace()
    ensures '{' !in GriefPrompt6()
  {
    assert '{' !in "It's ";
    assert '{' !in "okay ";
    assert '{' !in "to ";
    assert '{' !in "have ";
    assert '{' !in "moments ";
    assert '{' !in "of ";
    assert '{' !in "joy ";
    assert '{' !in "even ";
    assert '{' !in "in ";
    assert '{' !in "grief. ";
    assert '{' !in "That ";
    assert '{' !in "doesn't ";
    assert '{' !in "diminish ";
    assert '{' !in "your ";
    assert '{' !in "love.";
  }
  lemma GriefPrompt7NoBrace()
    ensures '{' !in GriefPrompt7()
  {
    assert '{' !in "The ";
    assert '{' !in "depth ";
    assert '{' !in "of ";
    assert '{' !in "grief ";
    assert '{' !in "often ";
    assert '{' !in "reflects ";
    assert '{' !in "the ";
    assert '{' !in "depth ";
    assert '{' !in "of ";
    assert '{' !in "love ";
    assert '{' !in "you ";
    assert '{' !in "shared.";
  }
  lemma GriefPrompt8NoBrace()
    ensures '{' !in GriefPrompt8()
  {
    assert '{' !in "Remember ";
    assert '{' !in "to ";
    assert '{' !in "care ";
    assert '{' !in "for ";
    assert '{' !in "yourself ";
    assert '{' !in "as ";
    assert '{' !in "you ";
    assert '{' !in "navigate ";
    assert '{' !in "these ";
    assert '{' !in "feelings.";
  }
  lemma GriefPrompt9NoBrace()
    ensures '{' !in GriefPrompt9()
  {
    assert '{' !in "Sometimes ";
    assert '{' !in "grief ";
    assert '{' !in "comes ";
    assert '{' !in "in ";
    assert '{' !in "waves. ";
    assert '{' !in "I'm ";
    assert '{' !in "here ";
    assert '{' !in "with ";
    assert '{' !in "you ";
    assert '{' !in "through ";
    assert '{' !in "both ";
    assert '{' !in "the ";
    assert '{' !in "calm ";
    assert '{' !in "and ";
    assert '{' !in "stormy ";
    assert '{' !in "moments.";
  }

  lemma GriefPromptsNoBrace()
    ensures BraceFreeStrings(GriefPrompts())
  {
    GriefPrompt0NoBrace(); GriefPrompt1NoBrace(); GriefPrompt2NoBrace(); GriefPrompt3NoBrace(); GriefPrompt4NoBrace(); GriefPrompt5NoBrace(); GriefPrompt6NoBrace(); GriefPrompt7NoBrace(); GriefPrompt8NoBrace(); GriefPrompt9NoBrace();
  }

  lemma MemoriesPrompt0NoBrace()
    ensures '{' !in MemoriesPrompt0()
  {
    assert '{' !in "That ";
    assert '{' !in "memory ";
    assert '{' !in "shows ";
    assert '{' !in "how ";
    assert '{' !in "special ";
    assert '{' !in "your ";
    assert '{' !in "connection ";
    assert '{' !in "was. ";
    assert '{' !in "Thank ";
    assert '{' !in "you ";
    assert '{' !in "for ";
    assert '{' !in "sharing ";
    assert '{' !in "it.";
  }
  lemma MemoriesPrompt1NoBrace()
    ensures '{' !in MemoriesPrompt1()
  {
    assert '{' !in "Those ";
    assert '{' !in "moments ";
    assert '{' !in "together ";
    assert '{' !in "helped ";
    assert '{' !in "shape ";
    assert '{' !in "who ";
    assert '{' !in "you ";
    assert '{' !in "both ";
    assert '{' !in "became.";
  }
  lemma MemoriesPrompt2NoBrace()
    ensures '{' !in MemoriesPrompt2()
  {
    assert '{' !in "The ";
    assert '{' !in "little ";
    assert '{' !in "details ";
    assert '{' !in "you ";
    assert '{' !in "remember ";
    assert '{' !in "speak ";
    assert '{' !in "to ";
    assert '{' !in "how ";
    assert '{' !in "deeply ";
    assert '{' !in "you ";
    assert '{' !in "cherish ";
    assert '{' !in "those ";
    assert '{' !in "moments.";
  }
  lemma MemoriesPrompt3NoBrace()
    ensures '{' !in MemoriesPrompt3()
  {
    assert '{' !in "That ";
    assert '{' !in "memory ";
    assert '{' !in "captures ";
    assert '{' !in "something ";
    assert '{' !in "beautiful ";
    assert '{' !in "about ";
    assert '{' !in "your ";
    assert '{' !in "relationship.";
  }
  lemma MemoriesPrompt4NoBrace()
    ensures '{' !in MemoriesPrompt4()
  {
    assert '{' !in "It's ";
    assert '{' !in "wonderful ";
    assert '{' !in "how ";
    assert '{' !in "vividly ";
    assert '{' !in "you ";
    assert '{' !in "recall ";
    assert '{' !in "those ";
    assert '{' !in "times ";
    assert '{' !in "together.";
  }
  lemma MemoriesPrompt5NoBrace()
    ensures '{' !in MemoriesPrompt5()
  {
    assert '{' !in "Those ";
    assert '{' !in "shared ";
    assert '{' !in "experiences ";
    assert '{' !in "built ";
    assert '{' !in "the ";
    assert '{' !in "foundation ";
    assert '{' !in "of ";
    assert '{' !in "your ";
    assert '{' !in "relationship.";
  }
  lemma MemoriesPrompt6NoBrace()
    ensures '{' !in MemoriesPrompt6()
  {
    assert '{' !in "Each ";
    assert '{' !in "memory ";
    assert '{' !in "is ";
    assert '{' !in "a ";
    assert '{' !in "thread ";
    assert '{' !in "in ";
    assert '{' !in "the ";
    assert '{' !in "beautiful ";
    assert '{' !in "tapestry ";
    assert '{' !in "of ";
    assert '{' !in "your ";
    assert '{' !in "time ";
    assert '{' !in "together.";
  }
  lemma MemoriesPrompt7NoBrace()
    ensures '{' !in MemoriesPrompt7()
  {
    assert '{' !in "I ";
    assert '{' !in "can ";
    assert '{' !in "feel ";
    assert '{' !in "the ";
    assert '{' !in "emotion ";
    assert '{' !in "in ";
    assert '{' !in "how ";
    assert '{' !in "you ";
    assert '{' !in "describe ";
    assert '{' !in "that ";
    assert '{' !in "memory.";
  }
  lemma MemoriesPrompt8NoBrace()
    ensures '{' !in MemoriesPrompt8()
  {
    assert '{' !in "Those ";
    assert '{' !in "everyday ";
    assert '{' !in "moments ";
    assert '{' !in "often ";
    assert '{' !in "become ";
    assert '{' !in "the ";
    assert '{' !in "most ";
    assert '{' !in "precious ";
    assert '{' !in "memories.";
  }
  lemma MemoriesPrompt9NoBrace()
    ensures '{' !in MemoriesPrompt9()
  {
    assert '{' !in "There's ";
    assert '{' !in "something ";
    assert '{' !in "sacred ";
    assert '{' !in "about ";
    assert '{' !in "preserving ";
    assert '{' !in "those ";
    assert '{' !in "memories.";
  }

  lemma MemoriesPromptsNoBrace()
    ensures BraceFreeStrings(MemoriesPrompts())
  {
    MemoriesPrompt0NoBrace(); MemoriesPrompt1NoBrace(); MemoriesPrompt2NoBrace(); MemoriesPrompt3NoBrace(); MemoriesPrompt4NoBrace(); MemoriesPrompt5NoBrace(); MemoriesPrompt6NoBrace(); MemoriesPrompt7NoBrace(); MemoriesPrompt8NoBrace(); MemoriesPrompt9NoBrace();
  }

  lemma ComfortPrompt0NoBrace()
    ensures '{' !in ComfortPrompt0()
  {
    assert '{' !in "It's ";
    assert '{' !in "okay ";
    assert '{' !in "to ";
    assert '{' !in "not ";
    assert '{' !in "be ";
    assert '{' !in "okay ";
    assert '{' !in "sometimes. ";
    assert '{' !in "I'm ";
    assert '{' !in "here ";
    assert '{' !in "with ";
    assert '{' !in "you ";
    assert '{' !in "through ";
    assert '{' !in "it ";
    assert '{' !in "all.";
  }
  lemma ComfortPrompt1NoBrace()
    ensures '{' !in ComfortPrompt1()
  {
    assert '{' !in "Your ";
    assert '{' !in "feelings ";
    assert '{' !in "are ";
    assert '{' !in "valid, ";
    assert '{' !in "whatever ";
    assert '{' !in "they ";
    assert '{' !in "may ";
    assert '{' !in "be ";
    assert '{' !in "right ";
    assert '{' !in "now.";
  }
  lemma ComfortPrompt2NoBrace()
    ensures '{' !in ComfortPrompt2()
  {
    assert '{' !in "Be ";
    assert '{' !in "gentle ";
    assert '{' !in "with ";
    assert '{' !in "yourself ";
    assert '{' !in "as ";
    assert '{' !in "you ";
    assert '{' !in "navigate ";
    assert '{' !in "these ";
    assert '{' !in "emotions.";
  }
  lemma ComfortPrompt3NoBrace()
    ensures '{' !in ComfortPrompt3()
  {
    assert '{' !in "Healing ";
    assert '{' !in "isn't ";
    assert '{' !in "linear, ";
    assert '{' !in "and ";
    assert '{' !in "that's ";
    assert '{' !in "perfectly ";
    assert '{' !in "normal.";
  }
  lemma ComfortPrompt4NoBrace()
    ensures '{' !in ComfortPrompt4()
  {
    assert '{' !in "You're ";
    assert '{' !in "doing ";
    assert '{' !in "the ";
    assert '{' !in "best ";
    assert '{' !in "you ";
    assert '{' !in "can, ";
    assert '{' !in "and ";
    assert '{' !in "that's ";
    assert '{' !in "enough.";
  }
  lemma ComfortPrompt5NoBrace()
    ensures '{' !in ComfortPrompt5()
  {
    assert '{' !in "It ";
    assert '{' !in "takes ";
    assert '{' !in "courage ";
    assert '{' !in "to ";
    assert '{' !in "face ";
    assert '{' !in "these ";
    assert '{' !in "feelings. ";
    assert '{' !in "I'm ";
    assert '{' !in "here ";
    assert '{' !in "beside ";
    assert '{' !in "you.";
  }
  lemma ComfortPrompt6NoBrace()
    ensures '{' !in ComfortPrompt6()
  {
    assert '{' !in "Remember ";
    assert '{' !in "to ";
    assert '{' !in "give ";
    assert '{' !in "yourself ";
    assert '{' !in "the ";
    assert '{' !in "same ";
    assert '{' !in "compassion ";
    assert '{' !in "you'd ";
    assert '{' !in "offer ";
    assert '{' !in "to ";
    assert '{' !in "someone ";
    assert '{' !in "you ";
    assert '{' !in "love.";
  }
  lemma ComfortPrompt7NoBrace()
    ensures '{' !in ComfortPrompt7()
  {
    assert '{' !in "Whatever ";
    assert '{' !in "you're ";
    assert '{' !in "feeling ";
    assert '{' !in "right ";
    assert '{' !in "now ";
    assert '{' !in "is ";
    assert '{' !in "okay. ";
    assert '{' !in "I'm ";
    assert '{' !in "listening.";
  }
  lemma ComfortPrompt8NoBrace()
    ensures '{' !in ComfortPrompt8()
  {
    assert '{' !in "You ";
    assert '{' !in "don't ";
    assert '{' !in "have ";
    assert '{' !in "to ";
    assert '{' !in "face ";
    assert '{' !in "this ";
    assert '{' !in "alone. ";
    assert '{' !in "I'm ";
    assert '{' !in "here ";
    assert '{' !in "with ";
    assert '{' !in "you.";
  }
  lemma ComfortPrompt9NoBrace()
    ensures '{' !in ComfortPrompt9()
  {
    assert '{' !in "Your ";
    assert '{' !in "strength ";
    assert '{' !in "through ";
    assert '{' !in "this ";
    assert '{' !in "difficult ";
    assert '{' !in "time ";
    assert '{' !in "is ";
    assert '{' !in "remarkable.";
  }

  lemma ComfortPromptsNoBrace()
    ensures BraceFreeStrings(ComfortPrompts())
  {
    ComfortPrompt0NoBrace(); ComfortPrompt1NoBrace(); ComfortPrompt2NoBrace(); ComfortPrompt3NoBrace(); ComfortPrompt4NoBrace(); ComfortPrompt5NoBrace(); ComfortPrompt6NoBrace(); ComfortPrompt7NoBrace(); ComfortPrompt8NoBrace(); ComfortPrompt9NoBrace();
  }

  lemma ConnectionPrompt0NoBrace()
    ensures '{' !in ConnectionPrompt0()
  {
    assert '{' !in "Our ";
    assert '{' !in "connections ";
    assert '{' !in "with ";
    assert '{' !in "loved ";
    assert '{' !in "ones ";
    assert '{' !in "continue ";
    assert '{' !in "even ";
    assert '{' !in "when ";
    assert '{' !in "physical ";
    assert '{' !in "presence ";
    assert '{' !in "ends.";
  }
  lemma ConnectionPrompt1NoBrace()
    ensures '{' !in ConnectionPrompt1()
  {
    assert '{' !in "The ";
    assert '{' !in "bond ";
    assert '{' !in "you ";
    assert '{' !in "shared ";
    assert '{' !in "can't ";
    assert '{' !in "be ";
    assert '{' !in "erased ";
    assert '{' !in "by ";
    assert '{' !in "absence.";
  }
  lemma ConnectionPrompt2NoBrace()
    ensures '{' !in ConnectionPrompt2()
  {
    assert '{' !in "Love ";
    assert '{' !in "transcends ";
    assert '{' !in "physical ";
    assert '{' !in "boundaries. ";
    assert '{' !in "Your ";
    assert '{' !in "connection ";
    assert '{' !in "remains.";
  }
  lemma ConnectionPrompt3NoBrace()
    ensures '{' !in ConnectionPrompt3()
  {
    assert '{' !in "The ";
    assert '{' !in "relationship ";
    assert '{' !in "you ";
    assert '{' !in "built ";
    assert '{' !in "together ";
    assert '{' !in "continues ";
    assert '{' !in "to ";
    assert '{' !in "be ";
    assert '{' !in "part ";
    assert '{' !in "of ";
    assert '{' !in "who ";
    assert '{' !in "you ";
    assert '{' !in "are.";
  }
  lemma ConnectionPrompt4NoBrace()
    ensures '{' !in ConnectionPrompt4()
  {
    assert '{' !in "The ";
    assert '{' !in "impact ";
    assert '{' !in "of ";
    assert '{' !in "your ";
    assert '{' !in "connection ";
    assert '{' !in "continues ";
    assert '{' !in "to ";
    assert '{' !in "ripple ";
    assert '{' !in "through ";
    assert '{' !in "your ";
    assert '{' !in "life.";
  }
  lemma ConnectionPrompt5NoBrace()
    ensures '{' !in ConnectionPrompt5()
  {
    assert '{' !in "Your ";
    assert '{' !in "love ";
    assert '{' !in "created ";
    assert '{' !in "something ";
    assert '{' !in "permanent ";
    assert '{' !in "that ";
    assert '{' !in "remains ";
    assert '{' !in "with ";
    assert '{' !in "you.";
  }
  lemma ConnectionPrompt6NoBrace()
    ensures '{' !in ConnectionPrompt6()
  {
    assert '{' !in "The ";
    assert '{' !in "essence ";
    assert '{' !in "of ";
    assert '{' !in "your ";
    assert '{' !in "connection ";
    assert '{' !in "lives ";
    assert '{' !in "on ";
    assert '{' !in "in ";
    assert '{' !in "how ";
    assert '{' !in "it ";
    assert '{' !in "shaped ";
    assert '{' !in "you ";
    assert '{' !in "both.";
  }
  lemma ConnectionPrompt7NoBrace()
    ensures '{' !in ConnectionPrompt7()
  {
    assert '{' !in "That ";
    assert '{' !in "special ";
    assert '{' !in "bond ";
    assert '{' !in "you ";
    assert '{' !in "shared ";
    assert '{' !in "continues ";
    assert '{' !in "in ";
    assert '{' !in "a ";
    assert '{' !in "different ";
    assert '{' !in "form.";
  }
  lemma ConnectionPrompt8NoBrace()
    ensures '{' !in ConnectionPrompt8()
  {
    assert '{' !in "The ";
    assert '{' !in "love ";
    assert '{' !in "you ";
    assert '{' !in "shared ";
    assert '{' !in "has ";
    assert '{' !in "become ";
    assert '{' !in "part ";
    assert '{' !in "of ";
    assert '{' !in "the ";
    assert '{' !in "fabric ";
    assert '{' !in "of ";
    assert '{' !in "who ";
    assert '{' !in "you ";
    assert '{' !in "are.";
  }
  lemma ConnectionPrompt9NoBrace()
    ensures '{' !in ConnectionPrompt9()
  {
    assert '{' !in "True ";
    assert '{' !in "connection ";
    assert '{' !in "leaves ";
    assert '{' !in "permanent ";
    assert '{' !in "imprints ";
    assert '{' !in "on ";
    assert '{' !in "our ";
    assert '{' !in "hearts.";
  }

  lemma ConnectionPromptsNoBrace()
    ensures BraceFreeStrings(ConnectionPrompts())
  {
    ConnectionPrompt0NoBrace(); ConnectionPrompt1NoBrace(); ConnectionPrompt2NoBrace(); ConnectionPrompt3NoBrace(); ConnectionPrompt4NoBrace(); ConnectionPrompt5NoBrace(); ConnectionPrompt6NoBrace(); ConnectionPrompt7NoBrace(); ConnectionPrompt8NoBrace(); ConnectionPrompt9NoBrace();
  }

  /** The shipped tables. */
  function Shipped(): Catalog
  {
    Catalog(
      TemplateTable(
        Template(WarmResponses(), WarmQuestions()),
        Template(ReflectiveResponses(), ReflectiveQuestions()),
        Template(BalancedResponses(), BalancedQuestions()),
        Template(HumorousResponses(), HumorousQuestions()),
        Template(WiseResponses(), WiseQuestions())),
      ThemeTable(GriefPrompts(), MemoriesPrompts(), ComfortPrompts(), ConnectionPrompts()),
      ThemeTable(GriefKeywords(), MemoriesKeywords(), ComfortKeywords(), ConnectionKeywords()),
      PositiveWords(), NegativeWords())
  }

  /** Every entry of `xs` is a non-empty string. */
  predicate NonEmptyStrings(xs: seq<string>)
  {
    forall i :: 0 <= i < |xs| ==> |xs[i]| > 0
  }

  /** No entry of `xs` contains an opening brace. */
  predicate BraceFreeStrings(xs: seq<string>)
  {
    forall i :: 0 <= i < |xs| ==> '{' !in xs[i]
  }

  /** A template the generator can use: some responses, all non-empty, and some questions. */
  predicate TemplateOK(t: Template)
  {
    |t.responses| > 0 && |t.questions| > 0 && NonEmptyStrings(t.responses)
  }

  /** What the generator needs of its tables. */
  predicate WellFormed(c: Catalog)
  {
    TemplateOK(c.templates.warm) &&
    TemplateOK(c.templates.reflective) &&
    TemplateOK(c.templates.balanced) &&
    TemplateOK(c.templates.humorous) &&
    TemplateOK(c.templates.wise) &&
    NonEmptyStrings(c.prompts.grief) &&
    NonEmptyStrings(c.prompts.memories) &&
    NonEmptyStrings(c.prompts.comfort) &&
    NonEmptyStrings(c.prompts.connection) &&
    NonEmptyStrings(c.keywords.grief) &&
    NonEmptyStrings(c.keywords.memories) &&
    NonEmptyStrings(c.keywords.comfort) &&
    NonEmptyStrings(c.keywords.connection) &&
    NonEmptyStrings(c.positiveWords) && NonEmptyStrings(c.negativeWords)
  }

  /** Every table has the shipped length: ten responses, eight questions, ten prompts. */
  predicate Uniform(c: Catalog)
  {
    |c.templates.warm.responses| == 10 && |c.templates.warm.questions| == 8 &&
    |c.templates.reflective.responses| == 10 && |c.templates.reflective.questions| == 8 &&
    |c.templates.balanced.responses| == 10 && |c.templates.balanced.questions| == 8 &&
    |c.templates.humorous.responses| == 10 && |c.templates.humorous.questions| == 8 &&
    |c.templates.wise.responses| == 10 && |c.templates.wise.questions| == 8 &&
    |c.prompts.grief| == 10 &&
    |c.prompts.memories| == 10 &&
    |c.prompts.comfort| == 10 &&
    |c.prompts.connection| == 10
  }

  /** No pool template contains an opening brace, so none holds a placeholder. */
  predicate BraceFree(c: Catalog)
  {
    BraceFreeStrings(c.templates.warm.responses) &&
    BraceFreeStrings(c.templates.reflective.responses) &&
    BraceFreeStrings(c.templates.balanced.responses) &&
    BraceFreeStrings(c.templates.humorous.responses) &&
    BraceFreeStrings(c.templates.wise.responses) &&
    BraceFreeStrings(c.prompts.grief) &&
    BraceFreeStrings(c.prompts.memories) &&
    BraceFreeStrings(c.prompts.comfort) &&
    BraceFreeStrings(c.prompts.connection)
  }

  /** A well-formed catalog gives a usable template, non-empty prompts and non-empty keywords for every choice. */
  lemma WellFormedFor(c: Catalog, p: Personality, t: Theme)
    requires WellFormed(c)
    ensures TemplateOK(TemplateFor(c, p)) && NonEmptyStrings(PromptsFor(c, t)) && NonEmptyStrings(KeywordsFor(c, t))
  {
  }

  /** In a uniform catalog, every template has ten responses and eight questions and every theme ten prompts. */
  lemma UniformFor(c: Catalog, p: Personality, t: Theme)
    requires Uniform(c)
    ensures |TemplateFor(c, p).responses| == 10 && |TemplateFor(c, p).questions| == 8
    ensures |PromptsFor(c, t)| == 10
  {
  }

  /** In a brace-free catalog, every pool template of every choice is brace-free. */
  lemma BraceFreeFor(c: Catalog, p: Personality, t: Theme)
    requires BraceFree(c)
    ensures BraceFreeStrings(TemplateFor(c, p).responses) && BraceFreeStrings(PromptsFor(c, t))
  {
  }

  /** Every shipped template has non-empty responses and some questions. */
  lemma ShippedTemplatesOK()
    ensures TemplateOK(Template(WarmResponses(), WarmQuestions())) && TemplateOK(Template(ReflectiveResponses(), ReflectiveQuestions())) && TemplateOK(Template(BalancedResponses(), BalancedQuestions()))
    ensures TemplateOK(Template(HumorousResponses(), HumorousQuestions())) && TemplateOK(Template(WiseResponses(), WiseQuestions()))
  {
  }

  /** The shipped tables are well formed. */
  lemma ShippedWellFormed()
    ensures WellFormed(Shipped())
  {
    ShippedTemplatesOK();
  }

  /** The shipped tables have the shipped sizes. */
  lemma ShippedUniform()
    ensures Uniform(Shipped())
  {
  }

  /** No shipped pool template contains a placeholder. */
  lemma ShippedBraceFree()
    ensures BraceFree(Shipped())
  {
    WarmResponsesNoBrace();
    ReflectiveResponsesNoBrace();
    BalancedResponsesNoBrace();
    HumorousResponsesNoBrace();
    WiseResponsesNoBrace();
    GriefPromptsNoBrace();
    MemoriesPromptsNoBrace();
    ComfortPromptsNoBrace();
    ConnectionPromptsNoBrace();
  }
}
