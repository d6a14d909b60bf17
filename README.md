# Memoria companion: local reply generator and in-memory store

This project models two pieces of the Memoria companion application in Dafny and proves properties of them.

**The local reply generator** (`client/src/lib/localAI.ts`) is the template-based responder used when no language-model service answers. It works in these steps:

- `detectTheme` counts keyword hits per theme (grief, memories, comfort, connection) in the lower-cased message and keeps a running maximum.
- `analyzeSentiment` compares the hits of a positive and a negative word list.
- `generateLocalResponse` does the rest:
  - It resolves the personality template, falling back to `balanced`.
  - It builds the candidate pool: the theme's prompts, then the personality's responses, with `{name}` and `{topic}` filled in.
  - It scores each candidate by overlap with the significant words of the message and keeps the first best.
  - It falls back to a random candidate when nothing scores.
  - It may append a follow-up question.
  - It may personalise the reply with the companion's name.

Each `Math.random()` call is an injected draw, a real in [0, 1): the `Draws` record in `LocalAI`.

The tables are a `Catalog` value, so every rule is proved for any tables. `Tables.Shipped()` holds the shipped tables, word for word. The lemmas about `Shipped()` show:

- every shipped table has the required entries;
- no pool template holds a placeholder;
- the pool always has 20 entries.

The JavaScript string operations are modelled on ASCII text in module `Text`:

- `toLowerCase`;
- `includes`;
- `split(/\W+/)`, with a round-trip lemma back to the text;
- `substring`;
- global `replace`.

**The in-memory store** is `MemStorage` in `server/storage.ts`. It is a class with three tables (users, companions, conversations) and three id counters. Each table is an `OrderedMap`, a JavaScript `Map` with insertion order:

- `set` on a present key keeps its place;
- `delete` removes the key from the order.

The store invariant `Valid` says:

- every table holds only ids it has handed out, in increasing order;
- the ids handed out are exactly 1 up to the counter, so an id is never reused, even after a delete;
- users and conversations carry their key as their id.

Theme ties follow the loop in `detectTheme` (`client/src/lib/localAI.ts:218-228`). The running maximum starts at `comfort` with count 0 and is replaced only on a strictly larger count. So `comfort` wins by default only when every count is 0. A tie at a positive count goes to the first of grief, memories, comfort, connection that reaches it. `LocalAI.ThemeOf` states this rule.

## Model

| member | source | states |
|---|---|---|
| Text.LowerChar | client/src/lib/localAI.ts:198 | lower-casing a character leaves no upper-case letter, changes exactly the upper-case letters, and keeps word characters word characters |
| Text.Lower | client/src/lib/localAI.ts:198 | `toLowerCase` keeps the length and lower-cases every character in place |
| Text.LowerKeeps | client/src/lib/localAI.ts:266 | lower-casing a text without upper-case letters changes nothing |
| Text.LowerIdempotent | client/src/lib/localAI.ts:198 | lower-casing twice is lower-casing once |
| Text.Contains | client/src/lib/localAI.ts:211 | `includes` finds only strings no longer than the text, and one of the same length only when it is the text itself |
| Text.ContainsInAppend | client/src/lib/localAI.ts:211 | `includes` survives appending text on either side |
| Text.DropNonWord | client/src/lib/localAI.ts:302 | removes a run of non-word characters: the rest is a suffix that starts with a word character or is empty |
| Text.Split | client/src/lib/localAI.ts:302 | `split(/\W+/)` gives at least one token, each made only of word characters |
| Text.Separators | client/src/lib/localAI.ts:302 | the separators `split(/\W+/)` drops are non-empty runs of non-word characters |
| Text.SplitJoin | client/src/lib/localAI.ts:302 | joining the tokens with the dropped separators gives back the text, so the split loses nothing but separators |
| Text.SplitInnerNonEmpty | client/src/lib/localAI.ts:302 | only the first and last token of a split can be empty |
| Text.SplitFirstNonEmpty | client/src/lib/localAI.ts:302 | the first token is empty exactly when the text starts with a non-word character or is empty, and in the first case more tokens follow |
| Text.Take | client/src/lib/localAI.ts:291 | `substring(0, n)` is the prefix of length n, or the whole text when it is shorter than n |
| Text.LowerFirst | client/src/lib/localAI.ts:327 | lower-cases the first character and keeps the rest |
| Text.ReplaceAll | client/src/lib/localAI.ts:290-291 | a text shorter than the pattern is unchanged; a replacement as long as the pattern keeps the length, and a longer one never shortens the text |
| Text.GapsJoin | client/src/lib/localAI.ts:290-291 | joining the gaps between matches with the replacement gives the replaced text |
| Text.ReplaceAllSelf | client/src/lib/localAI.ts:290-291 | replacing a pattern by itself gives back the text |
| Text.GapsRejoin | client/src/lib/localAI.ts:290-291 | joining the gaps with the pattern gives back the text |
| Text.GapsLeftmost | client/src/lib/localAI.ts:290-291 | no gap holds the pattern, and none before a match holds it with all but the last character of that match, so every match is the leftmost after the previous one |
| Text.ReplaceAllGaps | client/src/lib/localAI.ts:290-291 | `replace(/pat/g, rep)` cuts the text at its leftmost non-overlapping matches: the same gaps joined with the pattern give the text and joined with the replacement give the result, and no gap holds the pattern |
| Text.ReplaceAllAfterFree | client/src/lib/localAI.ts:290-291 | text in front without the pattern's first character passes through replacement untouched |
| Text.ReplaceAllOne | client/src/lib/localAI.ts:290-291 | a single match with no other occurrence of the pattern's first character around it becomes the replacement |
| Text.ReplaceAllAbsent | client/src/lib/localAI.ts:290-291 | replacing a pattern that does not occur changes nothing |
| Text.ReplaceAllNonEmpty | client/src/lib/localAI.ts:290-291 | a non-empty text stays non-empty under replacement by a non-empty string |
| Seqs.CountWhere | client/src/lib/localAI.ts:306 | the number of entries that pass a test is at most the length |
| Seqs.CountWhereExtremes | client/src/lib/localAI.ts:306 | the count is 0 exactly when nothing passes and the length exactly when everything passes |
| Seqs.CountWhereSnoc | client/src/lib/localAI.ts:209-213 | appending an entry adds one to the count exactly when that entry passes |
| Seqs.CountPrefix | client/src/lib/localAI.ts:306 | the count over a prefix is the number of passing positions in it |
| Seqs.CountWhereIsCardinality | client/src/lib/localAI.ts:306 | the count is the number of passing positions |
| Seqs.Find | server/storage.ts:67-69 | `find`: None exactly when no entry passes; otherwise a passing entry with no passing entry before it |
| Seqs.Positions | server/storage.ts:85-87 | the positions of the passing entries: increasing, each passing, and every passing position listed |
| Seqs.Filter | server/storage.ts:85-87 | `filter`: as many entries as pass, each from the list and passing, and every passing entry included |
| Seqs.FilterSelects | server/storage.ts:85-87 | `filter` returns the entries at the passing positions, in increasing position order, so it keeps their order and their repeats |
| Seqs.FilterAppend | server/storage.ts:85-87 | filtering distributes over concatenation, so kept entries keep their order |
| Seqs.RunningMaxIsFirstMaximum | client/src/lib/localAI.ts:218-228 | a loop that replaces only on a strictly larger value ends on the largest value, on its start when that value is 0, and otherwise on the first entry reaching it |
| Seqs.RunningMaxStart | client/src/lib/localAI.ts:298-312 | the start of such a loop matters only when no value is positive |
| Tables.Rank | client/src/lib/localAI.ts:189-194 | each theme sits at its rank in the order grief, memories, comfort, connection |
| Tables.WarmResponses | client/src/lib/localAI.ts:7-18 | the ten shipped warm responses, all non-empty |
| Tables.WarmQuestions | client/src/lib/localAI.ts:19-28 | the eight shipped warm questions |
| Tables.ReflectiveResponses | client/src/lib/localAI.ts:31-42 | the ten shipped reflective responses, all non-empty |
| Tables.ReflectiveQuestions | client/src/lib/localAI.ts:43-52 | the eight shipped reflective questions |
| Tables.BalancedResponses | client/src/lib/localAI.ts:55-66 | the ten shipped balanced responses, all non-empty |
| Tables.BalancedQuestions | client/src/lib/localAI.ts:67-76 | the eight shipped balanced questions |
| Tables.HumorousResponses | client/src/lib/localAI.ts:79-90 | the ten shipped humorous responses, all non-empty |
| Tables.HumorousQuestions | client/src/lib/localAI.ts:91-100 | the eight shipped humorous questions |
| Tables.WiseResponses | client/src/lib/localAI.ts:103-114 | the ten shipped wise responses, all non-empty |
| Tables.WiseQuestions | client/src/lib/localAI.ts:115-124 | the eight shipped wise questions |
| Tables.GriefPrompts | client/src/lib/localAI.ts:131-142 | the ten shipped grief prompts, all non-empty |
| Tables.MemoriesPrompts | client/src/lib/localAI.ts:145-156 | the ten shipped memories prompts, all non-empty |
| Tables.ComfortPrompts | client/src/lib/localAI.ts:159-170 | the ten shipped comfort prompts, all non-empty |
| Tables.ConnectionPrompts | client/src/lib/localAI.ts:173-184 | the ten shipped connection prompts, all non-empty |
| Tables.GriefKeywords | client/src/lib/localAI.ts:190 | the ten grief keywords, all non-empty |
| Tables.MemoriesKeywords | client/src/lib/localAI.ts:191 | the nine memories keywords, all non-empty |
| Tables.ComfortKeywords | client/src/lib/localAI.ts:192 | the ten comfort keywords, all non-empty |
| Tables.ConnectionKeywords | client/src/lib/localAI.ts:193 | the nine connection keywords, all non-empty |
| Tables.PositiveWords | client/src/lib/localAI.ts:233 | the ten positive words, all non-empty |
| Tables.NegativeWords | client/src/lib/localAI.ts:234 | the ten negative words, all non-empty |
| Tables.WellFormedFor | client/src/lib/localAI.ts:5-194 | well-formed tables give every personality some non-empty responses and some questions, and every theme non-empty prompts and keywords |
| Tables.UniformFor | client/src/lib/localAI.ts:5-186 | tables of the shipped sizes give ten responses, eight questions and ten prompts for every choice |
| Tables.BraceFreeFor | client/src/lib/localAI.ts:5-186 | brace-free tables give brace-free pool templates for every choice |
| Tables.ShippedWellFormed | client/src/lib/localAI.ts:5-194 | every shipped template has non-empty responses and some questions; every shipped prompt, keyword and sentiment word is non-empty |
| Tables.ShippedUniform | client/src/lib/localAI.ts:5-186 | the shipped tables have ten responses and eight questions per personality and ten prompts per theme |
| Tables.ShippedBraceFree | client/src/lib/localAI.ts:5-186 | no shipped response or prompt contains `{`, so none holds `{name}` or `{topic}` (one lemma per string, combined per table) |
| LocalAI.Hits | client/src/lib/localAI.ts:209-213 | the hits of a keyword list count distinct list entries, at most one per entry |
| LocalAI.ThemeOf | client/src/lib/localAI.ts:197-229 | the detected theme has a count at least every theme's; comfort if that count is 0; otherwise every theme earlier in the order has a strictly smaller count |
| LocalAI.ThemeOfUnique | client/src/lib/localAI.ts:218-228 | those three properties single out one theme |
| LocalAI.DetectTheme | client/src/lib/localAI.ts:197-229 | the nested counting loops and the running-maximum loop return `ThemeOf` |
| LocalAI.ThemeOfIgnoresCase | client/src/lib/localAI.ts:198 | the theme does not depend on the case of the message |
| LocalAI.EmptyMessageTheme | client/src/lib/localAI.ts:216-218 | with non-empty keywords the empty message has count 0 for every theme and gets comfort |
| LocalAI.AnalyzeSentiment | client/src/lib/localAI.ts:232-253 | positive exactly when more positive words occur, negative exactly when more negative words occur, neutral exactly when the counts are equal |
| LocalAI.PickIndex | client/src/lib/localAI.ts:299 | `Math.floor(r * n)` for a draw in [0, 1) is an index below n, and is the floor of r * n |
| LocalAI.PersonalityKey | client/src/lib/localAI.ts:266 | the key is empty for an absent personality; otherwise it is the personality lower-cased, of the same length with no upper-case letter |
| LocalAI.ParsePersonality | client/src/lib/localAI.ts:266-267 | the lower-cased key selects the personality it names; a key naming none (absent, empty or unknown) selects balanced |
| LocalAI.ParsePersonalityName | client/src/lib/localAI.ts:266-267 | each personality is selected by its own name |
| LocalAI.ParsePersonalityIgnoresCase | client/src/lib/localAI.ts:266 | the personality does not depend on the case of the key |
| LocalAI.NameOrDefault | client/src/lib/localAI.ts:290 | the name put in is never empty, and is the companion name whenever that is non-empty |
| LocalAI.Topic | client/src/lib/localAI.ts:291 | the topic is the first 20 characters of the message, or all of it when shorter, followed by `...` |
| LocalAI.Fill | client/src/lib/localAI.ts:288-292 | a template that holds neither `{name}` nor `{topic}` is left unchanged |
| LocalAI.FillName | client/src/lib/localAI.ts:290 | a single `{name}` among text without braces becomes the name (or `Companion`), when the name has no brace |
| LocalAI.FillTopic | client/src/lib/localAI.ts:291 | a single `{topic}` among text without braces becomes the first 20 characters of the message and `...` |
| LocalAI.FillCanLeavePlaceholder | client/src/lib/localAI.ts:289-291 | filling `{n{name}e}` with the name `am` gives `{name}`: a name can complete a placeholder from the text around it |
| LocalAI.FillUnchanged | client/src/lib/localAI.ts:288-292 | filling a template without `{` leaves it unchanged |
| LocalAI.FillNonEmpty | client/src/lib/localAI.ts:288-292 | filling keeps a non-empty template non-empty |
| LocalAI.SubstitutedUnchanged | client/src/lib/localAI.ts:288-292 | a pool without braces comes out of the `map` unchanged |
| LocalAI.SubstitutedNonEmpty | client/src/lib/localAI.ts:288-292 | the `map` keeps every candidate non-empty |
| LocalAI.CandidatePoolUsable | client/src/lib/localAI.ts:276-292 | well-formed tables give a non-empty pool of non-empty candidates and a non-empty question list |
| LocalAI.CandidatePoolUnchanged | client/src/lib/localAI.ts:276-292 | with brace-free tables of the shipped sizes the pool is the theme prompts followed by the personality responses, 20 entries |
| LocalAI.ShippedCandidatePool | client/src/lib/localAI.ts:276-292 | with the shipped tables the pool is always those 20 templates, unchanged |
| LocalAI.SignificantWords | client/src/lib/localAI.ts:302 | every significant word is a token of the lower-cased message of length over 3 made of word characters, and every such token is one |
| LocalAI.SignificantWordsInOrder | client/src/lib/localAI.ts:302 | the significant words are those tokens taken at their positions in message order, repeats kept |
| LocalAI.Score | client/src/lib/localAI.ts:305-306 | a candidate's score is at most the number of significant words |
| LocalAI.ScorePositive | client/src/lib/localAI.ts:305-306 | a candidate scores exactly when some significant word occurs inside one of its lower-cased tokens |
| LocalAI.BaseReply | client/src/lib/localAI.ts:298-315 | the base reply is a pool candidate |
| LocalAI.BaseReplySelection | client/src/lib/localAI.ts:298-315 | if some candidate scores, the base reply is the first with the highest score; otherwise it is the fallback pick |
| LocalAI.BaseReplyUniqueMatch | client/src/lib/localAI.ts:304-312 | when exactly one candidate scores, it is the base reply |
| LocalAI.BaseReplyIgnoresInitialDraw | client/src/lib/localAI.ts:299 | the initial random pick never decides the base reply |
| LocalAI.SelectResponse | client/src/lib/localAI.ts:298-315 | the scoring loop and the fallback return `BaseReply` |
| LocalAI.AskThreshold | client/src/lib/localAI.ts:295 | the question threshold is a probability: 0.7 exactly when the message is shorter than 20 characters, 0.3 exactly otherwise |
| LocalAI.WithQuestion | client/src/lib/localAI.ts:318-322 | without asking, the reply is unchanged; asking appends a space and one of the personality's questions |
| LocalAI.PersonalisedFormsName | client/src/lib/localAI.ts:326-330 | both personalised forms contain the name |
| LocalAI.Personalise | client/src/lib/localAI.ts:325-331 | a reply that contains the name, or a draw of 0.3 or more, is left alone; the result is the reply, the name-prefixed form or the suffixed form; with a draw below 0.3 it contains the name; when it is personalised, the prefixed form is chosen exactly when the placement draw is below 0.5 |
| LocalAI.Body | client/src/lib/localAI.ts:266-322 | the reply before personalisation is a pool candidate, alone or followed by a space and one of the personality's questions; without a question it is a candidate; it is never empty |
| LocalAI.Reply | client/src/lib/localAI.ts:256-334 | the reply is never empty; with a personalise draw below 0.3 it contains the name; with a draw of 0.3 or more it is the reply before personalisation |
| LocalAI.ReplyShape | client/src/lib/localAI.ts:256-334 | every reply is a pool candidate, optionally with a question, then alone, name-prefixed or name-suffixed |
| LocalAI.ReplyEmptyName | client/src/lib/localAI.ts:325 | an empty name is never added: the reply is the candidate, with its question if one was asked |
| LocalAI.ReplyPlain | client/src/lib/localAI.ts:295-331 | without a question and without personalisation the reply is a pool candidate |
| LocalAI.ReplyIgnoresInitialDraw | client/src/lib/localAI.ts:299 | the reply does not depend on the initial draw |
| LocalAI.EmptyMessageReply | client/src/lib/localAI.ts:302-315 | an empty message gets comfort, has no significant words, and its base reply is the fallback pick |
| LocalAI.BuildResponsePool | client/src/lib/localAI.ts:276-292 | the pool is the prompts followed by the responses, filled in |
| LocalAI.GenerateLocalResponse | client/src/lib/localAI.ts:256-334 | the step-by-step generator returns `Reply` for the same tables, context and draws |
| LocalAI.GenerateShippedResponse | client/src/lib/localAI.ts:256-334 | with the shipped tables the generator returns `Reply` and a non-empty text |
| OrderedMaps.Get | server/storage.ts:63 | `get` finds a value exactly for a present key, and then the value stored under it |
| OrderedMaps.ListedKeysPresent | server/storage.ts:67 | every key in the order is present |
| OrderedMaps.Empty | server/storage.ts:50-52 | a new map is valid and maps no key |
| OrderedMaps.Values | server/storage.ts:67 | `values()` lists one value per key in the order, each the value of that key |
| OrderedMaps.ValuesListEntries | server/storage.ts:85 | every stored value is among the values |
| OrderedMaps.Put | server/storage.ts:75 | `set`: the key maps to the value, other keys are unchanged, a new key goes last, a present key keeps its place |
| OrderedMaps.IndexOf | server/storage.ts:102 | the first position of a present key |
| OrderedMaps.PutValues | server/storage.ts:102 | setting a new key appends its value; setting a present key replaces its value in place |
| OrderedMaps.Remove | server/storage.ts:107 | the order without the key: the same keys except it, never longer |
| OrderedMaps.RemoveDistinct | server/storage.ts:107 | removing a key keeps the keys free of repeats |
| OrderedMaps.RemoveAt | server/storage.ts:107 | removing a present key drops exactly its position |
| OrderedMaps.Delete | server/storage.ts:107 | `delete`: the key is absent, other keys are unchanged, the others keep their order |
| OrderedMaps.SkipOne | server/storage.ts:107 | a list one shorter that takes each entry from the same or the next position is the list without that position |
| OrderedMaps.DeleteValues | server/storage.ts:107 | deleting a present key removes exactly its value from the values |
| OrderedMaps.RemoveIncreasing | server/storage.ts:107 | removing a key keeps the keys increasing |
| Storage.NewCompanion | server/storage.ts:92 | the new record has the given id and exactly the inserted fields, and is the only such record |
| Storage.Merge | server/storage.ts:101 | each field of the updated companion is the update's value where the update carries one and the old value where it does not |
| Storage.MergeNothing | server/storage.ts:101 | an update with no fields leaves the companion unchanged |
| Storage.MergeIdempotent | server/storage.ts:101 | applying the same update twice is applying it once |
| Storage.MergeFull | server/storage.ts:101 | an update carrying every field turns any companion into the one it describes |
| Storage.AppendLargerKey | server/storage.ts:75 | storing a key above every present key keeps the order increasing |
| Storage.MemStorage.constructor | server/storage.ts:49-59 | three empty tables, every counter at 1, no id handed out |
| Storage.MemStorage.GetUser | server/storage.ts:62-64 | a found user is the one stored under the asked id, carries that id, and the id has been handed out; nothing is found exactly for an absent id |
| Storage.MemStorage.GetUserByUsername | server/storage.ts:66-70 | None exactly when no user has the username; otherwise the first such user in insertion order, stored under its own id |
| Storage.MemStorage.CreateUser | server/storage.ts:72-77 | the user gets the current counter as id, never handed out before; it is appended to the values and found by id; only that counter advances |
| Storage.MemStorage.GetCompanion | server/storage.ts:80-82 | a found companion is the one stored under the asked id, which has been handed out; nothing is found exactly for an absent id |
| Storage.MemStorage.GetCompanionsByUserId | server/storage.ts:84-88 | exactly the companions of the user: each returned one belongs to it, every one that does is returned, as many as there are, in insertion order with the positions they hold among all companions |
| Storage.MemStorage.CreateCompanion | server/storage.ts:90-95 | the companion gets the current counter as id, never handed out before; it is appended and found by id; only that counter advances |
| Storage.MemStorage.UpdateCompanion | server/storage.ts:97-104 | absent id: None and no change; present id: the overlaid record is stored under the same key and place and returned; other entries, tables and counters unchanged |
| Storage.MemStorage.DeleteCompanion | server/storage.ts:106-108 | true exactly when the id was present; afterwards it is absent; other companions, all conversations and all counters unchanged |
| Storage.MemStorage.GetConversation | server/storage.ts:111-113 | a found conversation is the one stored under the asked id, carries that id, and the id has been handed out; nothing is found exactly for an absent id |
| Storage.MemStorage.GetConversationByCompanionId | server/storage.ts:115-119 | None exactly when no conversation belongs to the companion; otherwise the first such in insertion order, stored under its own id |
| Storage.MemStorage.CreateConversation | server/storage.ts:121-126 | the conversation gets the current counter as id, never handed out before; it is appended and found by id; only that counter advances |
| Storage.MemStorage.UpdateConversation | server/storage.ts:128-139 | absent id: None and no change; present id: only the messages and the update time change, id and companion stay, same key and place; nothing else changes |

## Left out

- `createLocalMessage` (a random id from `nanoid` and the wall clock) is not modelled: it only calls foreign code.
- `Math.random` is not modelled as a generator. Each call is an injected real in [0, 1), and the probabilities 0.7, 0.3 and 0.5 appear only as thresholds on those reals, not as distributions.
- LocalAI.PickIndex: works on exact reals, not IEEE doubles, so for some draws it picks a neighbouring index. The double nearest 0.15 times 20 rounds to 3.0 in JavaScript, while its exact product is just below 3 and gives 2. Over all draws in [0, 1) every index below n can be picked in both, and no property here depends on which draw picks which index.
- Text.Lower: covers ASCII only. `toLowerCase` on other Unicode letters, and `\W` outside ASCII, are not modelled; JavaScript string length is taken as the number of characters.
- LocalAI.ParsePersonality: looks the key up among the five names only. A key such as `constructor`, which finds an inherited property of the template object, is not modelled.
- The `description` and `history` fields of the context are accepted by the source but never read, so `Context` leaves them out.
- The value of `analyzeSentiment` is computed by `GenerateLocalResponse` and never used, as in the source; no reply property depends on it.
- Text.ReplaceAll: the replacement text is inserted literally; the `$&`-style patterns that `String.prototype.replace` interprets are not modelled. No shipped template contains a placeholder, so this never applies to the shipped tables.
- LocalAI.Fill: its own contract covers only templates without placeholders. Replacement is stated by Text.ReplaceAllGaps for each of the two passes, and by FillName and FillTopic for a single placeholder. No property says that no placeholder remains, because a name can complete one (FillCanLeavePlaceholder).
- Storage.Merge: a field of the update explicitly set to `undefined` is treated as absent, while the object spread would copy `undefined` into the record.
- The store ids are integers; ids that are not integers are not modelled.
- `conversations.messages` is a JSON column in the schema; it is modelled as a sequence of messages.
- `sessionStore` and the `DatabaseStorage` class (drizzle and Postgres) are not part of this model, and neither is the rest of the application (routes, the language-model client, the user interface).
- The asynchronous `Promise` wrappers of the store are modelled as synchronous calls, and the update time of `updateConversation` is a parameter in place of `new Date().toISOString()`.
