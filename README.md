# StoryAdventureBot core, modelled in Dafny

StoryAdventureBot is a LINE chat bot. A group of players builds an
interactive story with it, one round at a time. A large language model
writes each round's narrative and three options, and the players pick one
option per round with buttons. This project models the bot's core and proves
properties of it:

- **The story-creation wizard** (`Creation`). A per-chat map of creation
  states. It steps from mode selection (group and room chats only), through
  the theme, the characters, the character assignments (role-playing only),
  the genre and the round count, to a confirmation. The confirmation either
  discards the entry or stores a new story and generates its first round.
  `Creation.Wizard` is a class whose `states` field the handlers update in
  place. Pure functions (`Handle`, `CharactersGiven`, `CharacterAssigned`,
  `RoundsGiven`) specify each step.
- **The choice engine** (`Interaction`). A button press goes through the
  guard chain: an in-progress story, the round, no choice yet, a valid
  index, and the role-playing turn. The choice is then written. After that
  comes either the next round, numbered one past the story's current round,
  or the ending, which completes the story. The stores are a `Models.Db`
  object whose story, round and API-log collections are updated in place.
- **The generator's pure parts** (`Generator`). These are the prompt
  sections with their conditions, the genre style-guide lookup, the cleaning
  of code fences, and the validation of the model's JSON reply with its
  fixed fallback. The completion service and `JSON.parse` are function
  parameters.
- **Story ids** (`StoryId`). The id is the base-36 text of the clock
  reading, then `-`, then the hexadecimal of eight random bytes. The
  validator checks `^[a-z0-9]+-[a-f0-9]{16}$`.
- **Message dispatch** (`MessageHandler`). Commands are matched on trimmed
  text; the load prefix is matched on the untrimmed text. The chat id is
  chosen by source type.
- **Story replay** (`StoryLoad`). The rejections come in a fixed order. The
  summary shows the last two rounds, with excerpts of 100 characters. The
  detail is pushed in batches of three rounds.
- **The rate limiter** (`RateLimiter`). A fixed-window table keyed by
  client, swept on every request.
- **The metrics collector** (`Metrics`). Counters that rise by one, a floor
  at zero, and a reset.
- **The housekeeping script** (`Cleanup`). Four deletion passes over
  stories, rounds and API logs, run in a fixed order, with counters.
- **The data model** (`StoryTypes`, `Models`). The enumerations, the schema
  validators and defaults, and the `findOne`/`find`/`sort` queries over
  in-memory sequences.

Support modules model the JavaScript built-ins the core relies on:

- `JsText`: `trim`, `split`, `join` and `startsWith`.
- `JsNumber`: the global `parseInt` and `Number.prototype.toString(radix)`.
- `OrderedMap`: a JavaScript `Map<string, string>` as an association list
  kept in insertion order.
- `Wrappers`: `Option`.

The outbound messages are datatypes that record the data and conditions of
each message; the fixed wording is not modelled. Stories reference each
other, and rounds reference their story, by `storyId`. That field is unique,
so it stands in for the database's `_id`.

Each state-changing method is proved against a specification function of the
old state. The `ensures` of `Interaction.HandleStoryChoice`, for example, is
`Interaction.ChoiceEffect`. Lemmas state what the specification functions
mean.

### Behaviour worth noting

- **Ending trigger.** The ending runs once `currentRound >= totalRounds`
  (`storyInteractionService.ts:79`).
- **Failed ending.** A failed ending sends the generic farewell and leaves
  the story in progress. The status becomes `completed` only after the
  ending text is generated and saved (`Interaction.EndingSpec`).
- **Missing completion.** A failed call or an empty completion from the
  generator throws, and no fallback round is stored. The story stays at its
  current round (`Generator.ResponseForSpec`,
  `Interaction.NextRoundNumbering`). The fallback content replaces only a
  reply that fails to parse or validate.
- **Theme.** The theme is accepted as given, empty text included
  (`storyCreationService.ts:93`).
- **Active-story guard.** Starting a wizard does not look for an
  in-progress story of the chat, and the `(chatId, status)` index is not
  unique, so a chat may hold two (`Models.ActiveStoryNotUnique`).
- **Consensus characters.** The stored story's character map is built only
  from the assignment map, so in consensus mode it is empty
  (`Creation.StoryFromStateSpec`).
- **Option count.** The stored round has no bound on its number of options.
  The generator's reply always has three, but an empty option passes the
  reply validation and is then refused by the round schema
  (`Generator.EmptyOptionAccepted`, `Models.RoundDocValid`).
- **Turn rule.** Any round of the active story that has no choice yet may
  be chosen, whatever its number (`Interaction.AnyOpenRoundAccepted`).
- **Character names.** A name the `characters` Map refuses as a key (one
  containing `.` such as `Dr. Who`, one starting with `$`, or a reserved
  name) makes the role-playing story fail to save: the creation reports an
  error and keeps the wizard entry (`Models.MapKeyExamples`,
  `Creation.StoryFromStateSpec`).
- **Load prefix.** The two commands are matched on the trimmed text, the
  load prefix on the untrimmed text, so leading white space turns a load
  request into story input (`messageHandler.ts:27-40`).

## Model

| member | source | states |
|---|---|---|
| StoryTypes.EnumerationsComplete | src/types/story.types.ts:1-3 | There are 3 statuses, 2 play modes and 7 genres, each genre with its own persisted name. |
| Models.NewStoryDefaults | src/models/story.model.ts:22-41 | A new story starts at round 0, in progress, with no characters and 50 rounds unless given. It passes validation exactly when its required strings are non-empty, its character names are keys a Mongoose Map accepts (no leading `$`, no `.`, not `__proto__`, `constructor` or `prototype`), and any given round count lies in [5, 100]. |
| Models.MapKeyExamples | src/models/story.model.ts:22-26 | A character named `Dr. Who`, `$hero`, `constructor`, `__proto__` or `prototype` is refused as a key of the `characters` Map; `Alice` and the empty name are accepted. |
| Models.FirstIndex | src/services/storyInteractionService.ts:19 | `findOne` answers with the first matching record in insertion order, or with nothing exactly when no record matches. |
| Models.RoundsOf | src/services/storyInteractionService.ts:108 | The story's rounds are exactly the stored rounds that reference it. |
| Models.RoundsOfCounts | src/services/storyInteractionService.ts:108 | `find({ story })` returns every stored copy of the story's rounds exactly as often as it is stored, and nothing of another story. |
| Models.InsertPermutes | src/services/storyLoadService.ts:30-32 | Inserting a round into a sorted list adds exactly that round, as a multiset. |
| Models.SortByNumber | src/services/storyLoadService.ts:30-32 | Sorting by round number gives ascending numbers and a permutation of the input. |
| Models.LastRounds | src/services/storyInteractionService.ts:108-114 | Sorting descending, taking `k` and reversing gives min(k, n) rounds. |
| Models.LastRoundsSpec | src/services/storyInteractionService.ts:108-114 | The last rounds are ascending and drawn from the input without repetition. No round left out is numbered above a round kept. |
| Models.Db.constructor | src/models/story.model.ts:59 | The three collections start as given. |
| Models.Db.InsertStory | src/models/story.model.ts:7-32 | Saving a new story succeeds exactly when it passes the schema validators (character names included) and its storyId is not yet taken. It appends the story and changes nothing else. |
| Models.Db.UpdateStory | src/models/story.model.ts:27-32 | Saving a stored story succeeds exactly when it passes validation. It replaces that story only. |
| Models.Db.InsertRound | src/models/round.model.ts:7-24 | Saving a new round succeeds exactly when its story reference, its content and each option are non-empty. It appends the round only. |
| Models.Db.UpdateRound | src/models/round.model.ts:7-24 | Saving a stored round succeeds exactly when it passes validation. It replaces that round only. |
| Models.StoryIndexAfterInsert | src/models/story.model.ts:7-12 | A story stored under a fresh id is the one `findOne({ storyId })` finds. |
| Models.ActiveStoryNotUnique | src/models/story.model.ts:56 | Two valid in-progress stories of one chat can be stored together; the index does not prevent it. |
| Models.DuplicateRoundNumberShadowed | src/models/round.model.ts:38 | A second round with the same story and number is accepted, and `findOne` keeps returning the first. |
| OrderedMap.Keys | src/services/storyInteractionService.ts:119 | `Array.from(map.keys())` gives the keys in insertion order, one per entry. |
| OrderedMap.Get | src/services/storyInteractionService.ts:57 | `get` finds nothing exactly when the key is absent; otherwise it finds that key's entry. |
| OrderedMap.GetAfterSet | src/services/storyCreationService.ts:165 | After `set(k, v)`, `k` reads back `v` and every other key reads its old value. |
| OrderedMap.KeysAfterSet | src/services/storyCreationService.ts:165 | `set` keeps the key order and appends a key not seen before. |
| OrderedMap.SetKeepsDistinct | src/services/storyCreationService.ts:165 | `set` keeps the keys distinct. |
| OrderedMap.SetNewKeyAppends | src/services/storyCreationService.ts:330-331 | Setting a new key appends its entry. |
| JsText.TrimSpec | src/services/messageHandler.ts:27 | The input is the trimmed text with white space around it. |
| JsText.TrimIsTrimmed | src/services/messageHandler.ts:27 | The trimmed text has no white space at either end. |
| JsText.TrimOfTrimmed | src/services/messageHandler.ts:27 | Trimming is idempotent on trimmed text. |
| JsText.TrimEmptyIff | src/services/storyCreationService.ts:116 | Text trims to the empty string exactly when it is all white space. |
| JsText.TrimSkipsLeadingSpace | src/services/messageHandler.ts:27 | Leading white space does not change the trim. |
| JsText.TrimDropsTrailingSpace | src/services/messageHandler.ts:27 | A trailing white-space character does not change the trim. |
| JsText.Split | src/services/storyCreationService.ts:116 | `split(',')` gives at least one piece, and no piece holds the separator. |
| JsText.JoinSplit | src/services/storyCreationService.ts:116 | Joining the pieces of a split with the separator gives the text back. |
| JsText.SplitNoSeparator | src/services/storyCreationService.ts:116 | Text without the separator splits into itself alone. |
| JsText.SplitAtFirst | src/services/storyCreationService.ts:116 | The first separator ends the first piece. |
| JsNumber.ToRadixRoundTrip | src/utils/storyId.ts:4 | Reading back the digits `toString(radix)` writes gives the number. |
| JsNumber.ToRadixLeadingDigit | src/utils/storyId.ts:4 | The number's text starts with `0` exactly when the number is 0. |
| JsNumber.DecimalParses | src/services/storyCreationService.ts:232 | `parseInt` reads a natural number's decimal text back as that number (exactly; see `JsNumber.ParseInt` under Left out). |
| JsNumber.IntTextParses | src/services/storyCreationService.ts:232 | `parseInt` reads any integer's text back as that integer, whatever its sign (exactly; see `JsNumber.ParseInt` under Left out). |
| JsNumber.ParseIntRefuses | src/services/storyCreationService.ts:232 | Text that starts with neither white space, a sign nor a digit is NaN. |
| JsNumber.ParseIntOfDecimalDigits | src/services/storyCreationService.ts:232 | Any run of decimal digits parses to its decimal value; a leading zero does not switch to octal. |
| StoryId.ValidateMatchesPattern | src/utils/storyId.ts:9-12 | The validator holds exactly when the text matches `^[a-z0-9]+-[a-f0-9]{16}$`, read as a non-empty lower-case alphanumeric run, a hyphen and sixteen lower-case hex digits. |
| StoryId.Hex | src/utils/storyId.ts:5 | Hex encoding writes two lower-case hex digits per byte. |
| StoryId.HexRoundTrip | src/utils/storyId.ts:5 | Hex encoding loses nothing: decoding gives the bytes back. |
| StoryId.GeneratedIdIsValid | src/__tests__/utils.test.ts:5-10 | Every generated id passes the validator and is longer than ten characters. |
| StoryId.GeneratedIdDecodes | src/utils/storyId.ts:3-7 | Before the hyphen, a generated id holds base-36 digits whose value is the clock reading. The last sixteen characters decode to the random bytes. |
| StoryId.GenerateInjective | src/utils/storyId.ts:3-7 | Equal ids come only from equal clock readings and equal random bytes. |
| StoryId.ValidatorExamples | src/__tests__/utils.test.ts:12-26 | The validator accepts `abc123-1234567890abcdef` and rejects `invalid`, `abc-123`, `123-abc`, the empty string and `abc123-invalid`. |
| Metrics.MetricsCollector.constructor | src/utils/metrics.ts:13-20 | Every counter starts at zero. |
| Metrics.MetricsCollector.IncrementStories | src/utils/metrics.ts:22-25 | The story total rises by one and nothing else changes. |
| Metrics.MetricsCollector.IncrementActiveStories | src/utils/metrics.ts:27-29 | The active count rises by one and nothing else changes. |
| Metrics.MetricsCollector.DecrementActiveStories | src/utils/metrics.ts:31-33 | The active count falls by one but never below zero, and nothing else changes. |
| Metrics.MetricsCollector.IncrementRounds | src/utils/metrics.ts:35-37 | The round total rises by one and nothing else changes. |
| Metrics.MetricsCollector.IncrementApiCalls | src/utils/metrics.ts:39-41 | The API-call count rises by one and nothing else changes. |
| Metrics.MetricsCollector.IncrementErrors | src/utils/metrics.ts:43-46 | The error count rises by one and nothing else changes. |
| Metrics.MetricsCollector.GetMetrics | src/utils/metrics.ts:48-50 | The snapshot holds the current values and changes nothing. |
| Metrics.MetricsCollector.Reset | src/utils/metrics.ts:52-62 | Every counter goes back to zero, and the reset time becomes the clock reading. |
| Metrics.SnapshotIsCopy | src/utils/metrics.ts:48-50 | Documents the spread copy `getMetrics` returns: a snapshot taken before an increment keeps the old value while the collector moves on (Dafny values never alias, so this holds by construction). |
| Segments.CaptionFits | src/services/storyCreationService.ts:463 | A caption fits in 20 characters. An option longer than 20 keeps its first 17 characters and gains `...`. The caption is the option itself exactly when the option fits. |
| Segments.ChoiceDataDecodes | src/services/storyCreationService.ts:464 | `choice_<round>_<index>_<option>` reads back as the round, the index and the whole option, underscores in the option included. |
| Segments.ChoiceDataInjective | src/services/storyCreationService.ts:464 | Distinct buttons never post the same data. |
| Segments.TurnFor | src/services/storyCreationService.ts:447-456 | The turn line names the next character exactly in role-playing mode with an assignment map. It names the player exactly when the map gives a non-empty one. |
| Segments.SegmentButtons | src/services/storyCreationService.ts:459-466 | There is one button per option, in order, lettered from `A`. Each caption fits in 20 characters, and each button's data reads back as its round, its index and its full option. |
| Generator.GuideGenre | src/services/openaiService.ts:131-143 | The style guide is the named genre's, or 寫實's for a name that is no genre. |
| Generator.GuideLookup | src/services/openaiService.ts:142 | Every genre has its own guide, and only names that are no genre fall back. |
| Generator.BuildStoryPrompt | src/services/openaiService.ts:76-129 | Building the prompt step by step gives the sections `PromptSections` describes. |
| Generator.PromptShape | src/services/openaiService.ts:93-112 | The prompt opens with identity, style and context, the characters joined by ", ", and ends with the `Task` section. It holds the history exactly when the history is non-empty, and the last action exactly when both the action and its character are non-empty. |
| Generator.RemoveAll | src/services/openaiService.ts:149-150 | Removing every occurrence of a pattern never lengthens the text. |
| Generator.RemoveAllAbsent | src/services/openaiService.ts:149-150 | Text without the pattern's first character passes unchanged. |
| Generator.CleanCompletion | src/services/openaiService.ts:148-151 | The cleaned completion is trimmed. |
| Generator.CleanFencedReply | src/services/openaiService.ts:148-151 | A reply wrapped in a ```` ```json ```` fence is cleaned to its trimmed body, and an unfenced reply is only trimmed. |
| Generator.ParseStoryResponseSpec | src/services/openaiService.ts:145-179 | The parsed reply always has exactly three options and non-empty text and next character. It is the parsed record exactly when that record is acceptable, and the fixed fallback otherwise. Fields are modelled as strings only (see Left out). |
| Generator.EmptyOptionAccepted | src/services/openaiService.ts:156-162 | The validation does not look inside the options: an empty option is accepted. |
| Generator.ResponseForSpec | src/services/openaiService.ts:39-73 | A generation fails exactly when the call fails or returns no (or empty) content. A missing completion is never replaced by the fallback. A successful generation has three options. |
| Generator.DefaultsLeaveSectionsOut | src/services/openaiService.ts:17-25 | Absent history, choice and previous character default to the empty string, which leaves their sections out. |
| Generator.GenerateStorySegment | src/services/openaiService.ts:16-74 | The result is the one `ResponseFor` gives for the defaulted parameters: `None` when the call throws, the parsed reply otherwise. |
| Creation.CleanNames | src/services/storyCreationService.ts:116 | The cleaned names are trimmed and non-empty, and there are no more of them than pieces. |
| Creation.ParseCharacters | src/services/storyCreationService.ts:116 | Every parsed name is trimmed and non-empty. |
| Creation.CleanNamesHaveNoComma | src/services/storyCreationService.ts:116 | Cleaning adds no separator that the pieces lack. |
| Creation.CleanNamesEmptyIff | src/services/storyCreationService.ts:116-118 | The list is empty exactly when every piece is white space only. |
| Creation.ParseCharactersSpec | src/services/storyCreationService.ts:116-124 | Every name is non-empty, trimmed and comma-free. There is none exactly when the text is commas and white space only. |
| Creation.ParseJoinedCharacters | src/services/storyCreationService.ts:116 | Parsing a list joined by ", " (the way the confirmation shows it) gives the same names back. |
| Creation.InitialState | src/services/storyCreationService.ts:12-31 | Group and room chats (ids starting `C` or `R`) start at mode selection. Any other chat starts at the theme in consensus mode. |
| Creation.RoundCount | src/services/storyCreationService.ts:232-234 | An accepted round count lies in [5, 100]. |
| Creation.HandleCharacters | src/services/storyCreationService.ts:116 | At its step, character text is parsed and handed to `CharactersGiven`. |
| Creation.CharactersGivenSteps | src/services/storyCreationService.ts:118-140 | Characters keep the step, or move it to the assignments or to the genre. |
| Creation.HandleAssignment | src/services/storyCreationService.ts:159-163 | At its step, an assignment is handed to `CharacterAssigned`. |
| Creation.HandleRounds | src/services/storyCreationService.ts:226-230 | At its step, round-count text is handed to `RoundsGiven`. |
| Creation.HandleIgnoresOtherSteps | src/services/storyCreationService.ts:159-163 | A handler acts only at its own step; elsewhere it changes nothing and replies nothing. |
| Creation.HandleAdvances | src/services/storyCreationService.ts:109-177 | At its step, a handler stays or moves forward by at most two steps. Nothing reaches the declared `completed` step. |
| Creation.CharacterInputMoves | src/services/storyCreationService.ts:128-140 | Character text keeps the step or moves to the assignments or the genre. |
| Creation.AssignmentMoves | src/services/storyCreationService.ts:168-176 | An assignment keeps the step or moves to the genre. |
| Creation.RoundsInputMoves | src/services/storyCreationService.ts:234-244 | Round-count text keeps the step or moves to confirmation. |
| Creation.CharacterInputSpec | src/services/storyCreationService.ts:116-140 | Characters are accepted exactly when the parsed list is non-empty. Role-playing then starts the assignments with an empty map at position 0; any other mode goes to the genre. |
| Creation.AssignmentSpec | src/services/storyCreationService.ts:165-176 | The supplied character and player are recorded and other assignments kept. The position rises by one, and the step moves to the genre exactly when the position reaches the number of characters. |
| Creation.RoundsInputAccepted | src/services/storyCreationService.ts:242-246 | An accepted count is stored and the step becomes confirmation. |
| Creation.RoundsInputRefused | src/services/storyCreationService.ts:234-240 | Any other text leaves the state unchanged and asks again. |
| Creation.RoundCountIgnoresSpace | src/services/storyCreationService.ts:232 | White space around the count is ignored. |
| Creation.RoundCountOfNumber | src/services/storyCreationService.ts:232-234 | An integer's text is accepted as that count exactly when it lies in [5, 100]. |
| Creation.RoundCountNotANumber | src/services/storyCreationService.ts:232-234 | Text whose first non-space character is neither a sign nor a digit is refused. |
| Creation.InitialStateWellFormed | src/services/storyCreationService.ts:15-31 | A fresh entry satisfies the invariant and has no assignments. |
| Creation.HandleKeepsWellFormed | src/services/storyCreationService.ts:63-247 | Every handler keeps the invariant: assignments exist only in role-playing mode, with distinct characters. |
| Creation.StoryFromStateSpec | src/services/storyCreationService.ts:327-343 | The built story starts at round 0, in progress, with the chosen settings. Its characters are the assignments, so a consensus story has none. It saves exactly when its ids are present, its round count lies in [5, 100] and every assigned name is an accepted Map key. |
| Creation.CopyAssignments | src/services/storyCreationService.ts:327-333 | Copying the assignments entry by entry into a fresh map gives the same map. |
| Creation.GenerateFirstStorySegment | src/services/storyCreationService.ts:384-435 | The effect is `FirstSegmentAfter`: an incomplete state or a missing story is only logged and changes nothing. A failed generation or a refused round save stores nothing and ends in the error push; a refused story save leaves round 1 stored. Otherwise round 1 is stored, the story moves to round 1 and the segment is sent. |
| Creation.FirstSegmentOfNewStory | src/services/storyCreationService.ts:345-419 | Right after the save, the first segment always finds the new story. The segment is sent exactly when the generator answers and round 1 passes validation; then round 1 is stored and the story is at round 1. Otherwise nothing further changes. |
| Creation.Wizard.constructor | src/services/storyCreationService.ts:10 | The wizard starts with no entries. |
| Creation.Wizard.StartStoryCreation | src/services/storyCreationService.ts:12-31 | The chat's entry becomes `InitialState`, replacing any earlier one, and the mode or theme prompt follows. |
| Creation.Wizard.HandleModeSelection | src/services/storyCreationService.ts:63-75 | A missing entry stays missing; a present one advances as `Handle` says. |
| Creation.Wizard.HandleThemeInput | src/services/storyCreationService.ts:86-98 | A missing entry stays missing; a present one advances as `Handle` says, with any theme accepted. |
| Creation.Wizard.HandleCharacterInput | src/services/storyCreationService.ts:109-141 | A missing entry stays missing; a present one advances as `Handle` says, using the parsed names. |
| Creation.Wizard.StoreCharacters | src/services/storyCreationService.ts:118-140 | Past the step guard, the entry becomes what `CharactersGiven` gives. |
| Creation.Wizard.HandleCharacterAssignment | src/services/storyCreationService.ts:159-177 | A missing entry stays missing; a present one advances as `Handle` says. |
| Creation.Wizard.HandleGenreSelection | src/services/storyCreationService.ts:204-215 | A missing entry stays missing; a present one advances as `Handle` says. |
| Creation.Wizard.HandleRoundsInput | src/services/storyCreationService.ts:226-247 | A missing entry stays missing; a present one advances as `Handle` says. |
| Creation.Wizard.ResetStoryCreation | src/services/storyCreationService.ts:375-378 | The chat's entry is removed and nothing else changes. |
| Creation.Wizard.CreateStory | src/services/storyCreationService.ts:319-373 | An incomplete state changes nothing. A refused save keeps the entry and reports failure. Otherwise the story is appended, the entry removed, both story counters rise, and the first segment has the effect `FirstSegmentAfter` gives on the collections with the story appended. |
| Creation.Wizard.SaveStory | src/services/storyCreationService.ts:335-350 | The save succeeds exactly when the built story is valid and its id is unused. Only then is the entry removed and both counters raised. |
| Creation.Wizard.HandleConfirmation | src/services/storyCreationService.ts:301-317 | The confirmation is ignored outside its step. A refusal removes the entry and changes nothing else. An acceptance creates the story under the generated id. |
| MessageHandler.ChatIdSpec | src/services/messageHandler.ts:48-59 | The chat is the user for a one-to-one chat, the group or room id otherwise, and `unknown` for any other source. |
| MessageHandler.DispatchSpec | src/services/messageHandler.ts:5-41 | Each of the five routes is taken exactly under its condition. The conditions exclude each other and cover every event, so exactly one handler runs. |
| MessageHandler.CommandsTolerateSpace | src/services/messageHandler.ts:27-33 | The two commands are recognised with white space around them. |
| MessageHandler.LoadPrefixRoutes | src/services/messageHandler.ts:34-36 | Text starting with the load prefix is a load request. |
| MessageHandler.LeadingSpaceDefeatsLoad | src/services/messageHandler.ts:34-39 | Leading white space defeats the load prefix, and the text becomes story input. |
| StoryLoad.LoadOrder | src/services/storyLoadService.ts:6-65 | Rejections come in order: malformed id, unknown story, no rounds. The detail goes to the story's chat exactly when there are more than three rounds, one message per three rounds rounded up. |
| StoryLoad.LoadedRoundsAreStored | src/services/storyLoadService.ts:30-32 | The rounds a load works on are the story's stored rounds in ascending number, each stored copy once, so the count in `LoadOrder` is the number of stored rounds of the story. |
| StoryLoad.HintIff | src/services/storyLoadService.ts:123-125 | The summary ends with the hint exactly when there are more than two rounds. |
| StoryLoad.CharacterLinesSpec | src/services/storyLoadService.ts:91-101 | Characters are listed in the map's order, each with its player exactly when one is set in role-playing mode. |
| StoryLoad.RecentIsLast | src/services/storyLoadService.ts:104 | The summary's rounds are the last min(2, n) by number: ascending, drawn from the story's rounds, with none left out numbered above one shown. |
| StoryLoad.ExcerptSpec | src/services/storyLoadService.ts:110-113 | The excerpt is the first 100 characters, with `...` exactly when the content is longer. |
| StoryLoad.SummaryChoiceIff | src/services/storyLoadService.ts:116-118 | A summary notes a choice exactly when one was made, and notes that choice. |
| StoryLoad.OptionLinesSpec | src/services/storyLoadService.ts:143-149 | Options are listed in order, the j-th under the j-th letter. |
| StoryLoad.DetailChoiceIff | src/services/storyLoadService.ts:151-156 | The detail shows the choice exactly when one was made, and the chooser exactly when both are set. |
| StoryLoad.LetterSpec | src/services/storyLoadService.ts:146 | Letters run from `A` one code point per position, so distinct positions get distinct letters. |
| StoryLoad.BatchesSpec | src/services/storyLoadService.ts:133-137 | The batches together are the rounds in order. Each holds one to three, the k-th starts at 3k, and there are n/3 of them rounded up. |
| StoryLoad.StridedSpec | src/services/storyLoadService.ts:135 | A stride-3 loop from `i` renders positions `i`, `i + 3`, and so on, as many as the thirds left, rounded up. |
| StoryLoad.DetailSpec | src/services/storyLoadService.ts:130-168 | The detail is one message per batch, in order; the k-th covers the rounds from position 3k. |
| StoryLoad.LoadStory | src/services/storyLoadService.ts:6-65 | The answer is the one `LoadOutcome` gives, so `LoadOrder` describes it. |
| StoryLoad.BuildStoryInfo | src/services/storyLoadService.ts:67-128 | Appending line by line gives `StoryInfo`. |
| StoryLoad.ListCharacters | src/services/storyLoadService.ts:91-101 | The loop appends exactly the character section. |
| StoryLoad.ListRecent | src/services/storyLoadService.ts:104-121 | The loop appends exactly the recent-rounds section. |
| StoryLoad.SummarizeRound | src/services/storyLoadService.ts:109-119 | One recent round's lines are its `RoundSummary`. |
| StoryLoad.SendDetailedStoryContent | src/services/storyLoadService.ts:130-168 | The stride-3 loop pushes exactly `DetailMessages`. |
| StoryLoad.BatchContent | src/services/storyLoadService.ts:136-159 | A batch's message is its range heading and then its rounds in full. |
| StoryLoad.DetailRounds | src/services/storyLoadService.ts:139-159 | The inner loop appends each round of the batch in full. |
| StoryLoad.DetailRound | src/services/storyLoadService.ts:140-158 | One round in full is its `RoundDetail`. |
| RateLimiter.CeilDivSpec | src/middleware/rateLimiter.ts:57 | `Math.ceil(a / b)` is the quotient rounded up. |
| RateLimiter.StepSpec | src/middleware/rateLimiter.ts:15-44 | Other clients survive exactly when their window has not ended, unchanged. The client's surviving window counts one more; otherwise a fresh window holds this request. So the reset branch never runs. |
| RateLimiter.DecisionSpec | src/middleware/rateLimiter.ts:47-67 | A request is refused exactly when the count passes 30, with the seconds left rounded up. Otherwise the remaining allowance is 30 less the count, never negative. |
| RateLimiter.RequestsAccumulate | src/middleware/rateLimiter.ts:44-60 | Refused requests count too: a request before the window ends adds one, so a refused client stays refused until the window ends. |
| RateLimiter.Limiter.constructor | src/middleware/rateLimiter.ts:11 | The table starts empty. |
| RateLimiter.Limiter.Handle | src/middleware/rateLimiter.ts:15-70 | The new table and the answer are what `Step` gives for the client key (`unknown` without an address). |
| RateLimiter.Limiter.Sweep | src/middleware/rateLimiter.ts:20-25 | The `forEach` deletes exactly the entries whose window ended before now. |
| Interaction.CheckChoice | src/services/storyInteractionService.ts:19-65 | An accepted press names a stored story and round, and an index within that round's options. |
| Interaction.Chosen | src/services/storyInteractionService.ts:68-69 | The written round has a choice. |
| Interaction.GuardOrder | src/services/storyInteractionService.ts:19-65 | Each rejection happens exactly when the earlier guards pass and its own fails: no active story, then no round, then a choice already made, then an index outside `[0, options.length)`, then a role-playing turn that belongs to another player, whose character and player the rejection names. |
| Interaction.AcceptedMeans | src/services/storyInteractionService.ts:19-65 | An accepted press names the chat's first in-progress story and the round with the pressed number. That round has no choice, a valid index and no other player's turn. |
| Interaction.TurnCheck | src/services/storyInteractionService.ts:56-65 | The turn check blocks exactly a role-playing round whose character has a non-empty assignee other than the actor. Consensus never blocks. |
| Interaction.RejectionChangesNothing | src/services/storyInteractionService.ts:19-65 | A turned-away press changes no record and pushes nothing. |
| Interaction.ChosenSpec | src/services/storyInteractionService.ts:68-70 | The choice is the option, or the button text when the option is empty, and the chooser is the actor. Nothing else in the round changes. |
| Interaction.ChoiceClosesRound | src/services/storyInteractionService.ts:37-44 | Once a choice is written, any later press on that round is refused as already chosen. |
| Interaction.AnyOpenRoundAccepted | src/services/storyInteractionService.ts:28-53 | Any open round of the active story may be chosen in consensus mode, whatever its number. |
| Interaction.NextRoundNumbering | src/services/storyInteractionService.ts:98-168 | The new round is numbered one past the story's current round, which then rises by exactly one. A failed generation stores nothing. |
| Interaction.EndingSpec | src/services/storyInteractionService.ts:213-261 | The ending never touches rounds. The story is completed exactly when the ending text is generated and saved; otherwise it stays as it was. |
| Interaction.ChoiceAccepted | src/services/storyInteractionService.ts:67-87 | An accepted press is handled by `AcceptedEffect` with the written round. |
| Interaction.AcceptedFollowUp | src/services/storyInteractionService.ts:67-87 | A refused round save is the error reply. Otherwise the choice is confirmed, and the ending runs exactly when the current round has reached the total. |
| Interaction.RecentRoundsSpec | src/services/storyInteractionService.ts:107-116 | The history uses at most k of the story's rounds, oldest first, and none left out is more recent than one used. |
| Interaction.HandleStoryChoice | src/services/storyInteractionService.ts:7-96 | The guards run in the source's order, and the records afterwards are what `ChoiceEffect` gives. |
| Interaction.ApplyChoice | src/services/storyInteractionService.ts:67-87 | The write and the following step have the effect `AcceptedEffect` gives. |
| Interaction.GenerateNextStorySegment | src/services/storyInteractionService.ts:98-169 | The effect is `NextSegmentAfter` of what the generator returns for three rounds of history. |
| Interaction.StoreNextRound | src/services/storyInteractionService.ts:132-154 | The round is stored, then the story moves; the effect is `NextSegmentAfter`. |
| Interaction.HandleStoryEnding | src/services/storyInteractionService.ts:213-262 | The effect is `EndingAfter` of what the generator returns for five rounds of history and the marked theme. |
| Interaction.CompleteStory | src/services/storyInteractionService.ts:240-250 | The story is completed only when the ending was generated and the save accepted. |
| Cleanup.KeptStoriesSpec | scripts/cleanup-database.ts:57-67 | A pass keeps a story exactly when it is not stale, and deletes the id of every stale one. |
| Cleanup.RoundFiltersSpec | scripts/cleanup-database.ts:64-86 | `deleteMany({ story })` keeps exactly the rounds of other stories; the orphan pass keeps exactly the rounds of stored stories. |
| Cleanup.RoundsWithoutUnion | scripts/cleanup-database.ts:62-64 | Deleting one story's rounds after others' is deleting the rounds of all of them. |
| Cleanup.RecentLogsSpec | scripts/cleanup-database.ts:98-104 | The log pass keeps a log exactly when it is not older than the cutoff. |
| Cleanup.CleanupRunSpec | scripts/cleanup-database.ts:15-51 | A run keeps exactly the stories that are neither completed and stale for 30 days nor cancelled and stale for 7. No in-progress story is deleted. The logs kept are those not older than 90 days, and no orphan round survives. |
| Cleanup.CleanupKeepsLiveRounds | scripts/cleanup-database.ts:53-133 | With story ids unique, a round survives a run exactly when it was stored and its story survives. |
| Cleanup.CountsSpec | scripts/cleanup-database.ts:53-133 | Every removed round is counted once, as orphaned or saved. The log counter is the number removed. The expired-story counter equals the number of stories the expired pass removes; the cancelled stories removed afterwards are counted nowhere. |
| Cleanup.CleanupStats.constructor | scripts/cleanup-database.ts:16-21 | All four counters start at zero. |
| Cleanup.CleanupDatabase | scripts/cleanup-database.ts:15-51 | The four passes run in the script's order; the result is `CleanupRun`. |
| Cleanup.CleanupExpiredStories | scripts/cleanup-database.ts:53-77 | The result is `ExpiredPass`: completed stories older than 30 days go, with their rounds and counters. |
| Cleanup.CleanupCancelledStories | scripts/cleanup-database.ts:111-134 | The result is `CancelledPass`: cancelled stories older than 7 days go, counted in `totalSaved` only. |
| Cleanup.DeleteStaleStories | scripts/cleanup-database.ts:62-76 | The loop leaves exactly the fresh stories and the rounds of no deleted story, and reports how many of each went. |
| Cleanup.DeleteIfStale | scripts/cleanup-database.ts:62-76 | One turn deletes the story exactly when it is stale, its rounds first. |
| Cleanup.DeleteRoundsOf | scripts/cleanup-database.ts:64 | `deleteMany({ story })` removes exactly that story's rounds and reports how many. |
| Cleanup.CleanupOrphanedRounds | scripts/cleanup-database.ts:79-96 | The result is `OrphanPass`: rounds of no stored story go, one count each. |
| Cleanup.DeleteOrphans | scripts/cleanup-database.ts:85-95 | The loop keeps exactly the rounds whose story is valid, and counts the rest. |
| Cleanup.DeleteIfOrphan | scripts/cleanup-database.ts:86-94 | One turn deletes the round exactly when its story is not valid. |
| Cleanup.CleanupOldApiLogs | scripts/cleanup-database.ts:98-109 | The result is `LogPass`: logs older than 90 days go, and `oldApiLogs` is set to, not increased by, the number deleted. |

## Left out

- LINE messaging (`replyMessage`, `pushMessage`), reply tokens, and failures of a reply or push. The model records which message is sent and what it holds, not its delivery. The fixed wording of prompts and messages is also left out.
- The completion service's HTTP call. It is the `api` function parameter, and `JSON.parse` is the `parse` parameter; `None` stands for a thrown parse.
- `setTimeout` delays and concurrent event handling. Each handler is one sequential step, so the read-then-write race on `userChoice` between two presses cannot be expressed.
- Mongoose mechanics. The collections are in-memory sequences, a save is the schema check, and `_id` is the story's `storyId`. A database error other than a refused validation is not modelled, and neither are the catch branches that report one.
- Floating point: the cost in `logApiCost` (`src/services/openaiService.ts:181-224`) and the rates in `logSummary`. The API cost log is not written by the model.
- Clocks and randomness. `Date.now`, `randomBytes` and `toLocaleString` are parameters (`now`, `random`, `formatDate`). The cleanup cutoffs are `now - days × 86400000`, so daylight-saving shifts of `setDate` are not modelled.
- Text is sequences of Unicode code points; JavaScript lengths count UTF-16 units. `Caption`, `Excerpt` and the `substring` calls therefore count characters outside the Basic Multilingual Plane as one. `String.fromCharCode` beyond the surrogate range is not reached by any modelled input.
- `Models.SortByNumber`: orders equal round numbers by insertion, one of the orders the database may return.
- `generateCleanupReport` (`scripts/cleanup-database.ts:136-189`), which only counts records.
- The stub handlers that `MessageHandler` routes to, the postback and webhook plumbing, the logger and the health check. `MessageHandler.HandleMessage` stops at the route.
- `Creation.Wizard.CreateStory`: takes the generated id as a parameter. `HandleConfirmation` draws it from `StoryId.GenerateStoryId(now, random)`.
- `Interaction.HandleStoryChoice`: the next-round and ending steps run right after the press, not after a one-second timer.
- `Generator.ParseStoryResponseSpec`: the parsed record's fields are modelled as a string, an array of strings and a string. A truthy non-string value (a number, `true`, an object) or a non-string option, which the `as OpenAIStoryResponse` cast lets through unchanged, is not modelled, so the "non-empty text" guarantee covers string replies only.
- `JsNumber.ParseInt`: returns the exact, unbounded integer, where JavaScript's `parseInt` returns a double that is rounded above 2^53 and is `Infinity` for digit strings of about 309 digits or more. For the 5 to 100 round-count check this makes no difference: every such value is far outside the range and is refused either way.
