# Tenchu Shiren quiz and missions rules, in Dafny

This project models the rule logic of the browser game *Tenchu Shiren*. It covers:

- **The quiz session** (`game.js`). The module-level `playerName`, `currentQuestionIndex` and `score` become fields of the class `Game.Quiz`. Which box of the game screen is showing becomes the field `screen`. A ghost history `outcomes` records whether each answer was correct. The six entry points `setPlayerName`, `startGame`, `selectAnswer`, `nextQuestion`, `proceed` and `hideSupporterBox` are methods that keep the invariant `Valid()`. `showQuestion` and `showResult` are the screen updates those steps end with; they change only `screen`. The invariant says:
  - the name is never empty or padded;
  - the score counts the correct outcomes;
  - a question box only ever shows indices 0 to 4;
  - the result box shows exactly when the index has reached 5; every other box has an index below 5.

  `PlaySession` drives a whole session and proves the final score and tier. The tier chosen in `showResult` is the function `ResultTier`.
- **The question pool** (`questions.js`). It is a constant sequence, with lemmas for the facts the quiz loop needs: ten entries, four distinct options, the answer among them, and a known type.
- **The mission rules** (`missions.js`):
  - the `getAvailableMissions` filter, as a loop proved against the specification function `FilterAvailable`, with its callback and its prerequisite loop;
  - `checkMissionRequirements`;
  - the default fill of `loadPlayerInventory`;
  - the initialisation in `updateMissionStats`;
  - the captions `getStatusText` and `getButtonText`, and `estimateMissionLength`;
  - `formatItemName`;
  - the spotted / missing-scene dispatch that opens `showMissionScene`.
- **The commentator lookups** (`character-comments.js`): `getCharacterComment`, `getCharacterPortrait` and `getCharacterDisplayName` over constant tables, each with its fallback to `rikimaru` / `"Master"`.
- **The supporter list** (`supporters.js`): the class `Supporters.SupporterList`, whose guarded `addSupporter` appends in place, and `getSupporterCount`.

The JavaScript built-ins the core relies on are modelled in `JsText`: `trim`, `toUpperCase`, `split`, `join`, `indexOf` and first-letter capitalisation. Absent values (`undefined`, `null`, a missing field) are `Optional.Option`.

Some inputs are parameters of the model:

- Random draws:
  - the 20% interstitial draw is a boolean;
  - the comment pick takes a real draw in [0, 1).
- `playerStats`, `missionStatus` and the result of `findScene`, which are defined outside the shown files.
- The globals `missions` (which `loadMissions` fills from missions.json), `currentMission` and `missionState.spotted`. They are declared in missions.js, and the modelled functions only read them.
- The inventory read from storage is an optional map.

The model follows game.js as written:

- The questions are asked in pool order. Nothing is shuffled.
- Every question has exactly four options.
- The tier depends on the score of the session alone. There is no cumulative rank engine.
- The interstitial probability is the fixed 20% draw of `nextQuestion`.

## Model

| member | source | states |
|---|---|---|
| Questions.PoolSize | questions.js:1-19 | the pool has ten entries |
| Questions.PoolWellFormed | questions.js:3-18 | every entry has a known type, exactly four pairwise-distinct options, and its answer among them |
| Questions.ExactlyOneCorrectOption | questions.js:3-18 | exactly one option of every entry equals its answer |
| Game.PoolCoversSession | game.js:8 | the pool holds at least `questionsPerSession` (5) entries, so `questions[index]` for index 0..4 is in bounds |
| Game.ResultTier | game.js:213-227 | the tier from the percentage: GRANDMASTER exactly at 100%, ELITE NINJA from 80% below that, NOVICE from 40% up to 80%, THUG below 40%, each as an if-and-only-if in integers |
| Game.RankLabelsDistinct | game.js:215-227 | each tier has its own rank label and its own title |
| Game.ResultTierTable | game.js:213-227 | the tier for each session score: 5 GRANDMASTER, 4 ELITE NINJA, 3 and 2 NOVICE, 1 and 0 THUG |
| Game.ResultTierMonotone | game.js:213-227 | for scores 0..5, a higher score never gives a lower tier |
| Game.ResultText | game.js:217-226 | every tier's result text contains the player's name |
| Game.Quiz.constructor | game.js:5-8 | the initial state: name "Ninja", index 0, score 0, the pool as the question list |
| Game.Quiz.SetPlayerName | game.js:107-111 | the trimmed input becomes the name unless it is all whitespace, in which case the old name stays; then a game starts at question 0 with score 0 |
| Game.Quiz.StartGame | game.js:113-120 | index and score reset to 0, the name is kept, question 0 is shown |
| Game.Quiz.ShowQuestion | game.js:122-123 | shows `questions[index]`, for an index below `questionsPerSession` (0..4), which both callers, `startGame` and `proceed`, respect |
| Game.Quiz.SelectAnswer | game.js:139-146 | the score rises by exactly one if and only if `selected === correct`; the index is kept; the feedback for that outcome is shown |
| Game.Quiz.NextQuestion | game.js:170-180 | on a drawn shoutout with a non-empty supporter list, the interstitial is shown and nothing advances; otherwise the index advances by exactly one; since a valid supporter list is never empty, a drawn shoutout always shows the interstitial when the list exists |
| Game.Quiz.Proceed | game.js:182-190 | the index advances by exactly one; the result is shown if and only if the new index is at least 5, and otherwise the question at the new index is shown |
| Game.Quiz.HideSupporterBox | game.js:203-206 | dismissing the interstitial advances the index by exactly one, like `proceed` |
| Game.Quiz.ShowResult | game.js:208-231 | the result shows the tier of the current score, that tier's rank and title, and its text for the current name |
| Game.Quiz.PlaySession | game.js:113-206 | a full session ends with index 5, a score between 0 and 5 equal to the number of choices that matched their question's answer, and the result for that score |
| JsText.TrimResult | game.js:108 | the trimmed name has no whitespace at either end, and it is empty if and only if the input is all whitespace |
| JsText.TrimStart | game.js:108 | the leading part of `trim`: the result is a suffix of the input, everything removed is whitespace, and the result does not start with whitespace |
| JsText.TrimEnd | game.js:108 | the trailing part of `trim`: the result is a prefix of its input, everything removed is whitespace, and the result does not end with whitespace |
| Missions.AllPrerequisitesCompleted | missions.js:85-89 | the prerequisite loop returns true if and only if every prerequisite's status is 'completed' |
| Missions.MissionPassesFilter | missions.js:68-92 | the filter callback, with its early returns, agrees with `IsAvailable` (rank, then replay, then coins and prerequisites) |
| Missions.GetAvailableMissions | missions.js:64-93 | the filter loop computes `FilterAvailable`: the missions passing the callback, in list order |
| Missions.FilterIsSubsequence | missions.js:68-92 | the result is a subsequence of the mission list, in its original order |
| Missions.FilterMembership | missions.js:68-92 | a mission is returned if and only if it is in the list and passes the callback |
| Missions.RankAboveNeverOffered | missions.js:65-71 | a mission whose required-rank index exceeds the player's is never returned, whatever its status |
| Missions.UnknownRanks | missions.js:65-71 | an unknown required rank (index -1) always passes the rank check; an unknown player rank fails it against every known required rank |
| Missions.ReplayAlwaysOffered | missions.js:74-77 | a completed or failed mission that passes the rank check is always returned |
| Missions.NewMissionGates | missions.js:80-89 | any other mission is left out when it has a truthy coin minimum above the player's coins, or a prerequisite that is not completed |
| Missions.CheckMissionRequirements | missions.js:619-643 | false without a current mission; otherwise true if and only if the rank, coin and prerequisite checks all pass, with no replay bypass |
| Missions.RequirementsAgreeWithFilter | missions.js:619-643 | what `checkMissionRequirements` accepts, the filter offers; for a mission neither completed nor failed the two agree |
| Missions.LoadPlayerInventory | missions.js:39-57 | every default item has a count; saved counts are unchanged; extra saved keys are kept; any added key is a default item with count 0; with nothing saved the inventory is the default one |
| Missions.UpdateMissionStats | missions.js:569-586 | afterwards a missions record exists: the zeroed one if there was none, otherwise the unchanged old one; rank and coins are untouched |
| Missions.UpdateMissionStatsIdempotent | missions.js:569-586 | initialising twice is the same as once |
| Missions.GetStatusText | missions.js:593-601 | the table's caption for the four known statuses, the upper-cased status otherwise |
| Missions.StatusTextIsUpperCased | missions.js:593-601 | for every status except 'in-progress', the caption is exactly the upper-cased status |
| Missions.StatusTextHasNoLower | missions.js:593-601 | the status caption never contains a lower-case letter |
| Missions.GetButtonText | missions.js:603-611 | the table's caption for the four known statuses, 'START MISSION' otherwise |
| Missions.ButtonTextIsKnown | missions.js:603-611 | the button caption is always one of the four table captions, and an unknown status reads like 'new' |
| Missions.EstimateMissionLength | missions.js:589-591 | the number of scenes of the story, or 5 without a story |
| Missions.FormatItemName | missions.js:613-617 | split on '_', capitalise each piece and join with ' ' equals `FormatFrom`, a single left-to-right character pass |
| Missions.FormatItemNameSpec | missions.js:613-617 | the name keeps its length; each '_' becomes one space; the first character of every piece is upper-cased and every other character is kept; no '_' is left; the spaces grow by exactly the number of underscores |
| JsText.SplitJoin | missions.js:613-617 | joining the pieces of a split with the separator gives back the original string |
| JsText.SplitPieces | missions.js:613-617 | `split` gives one more piece than there are separators, and no piece contains the separator |
| Missions.ShowMissionSceneStep | missions.js:460-470 | spotted always ends the mission in failure, before any lookup; it ends in success if and only if not spotted and the scene is missing; otherwise the found scene is rendered |
| CharacterComments.PoolsHoldFive | character-comments.js:4-53 | every character has five correct and five incorrect lines |
| CharacterComments.ResolveCharacter | character-comments.js:57-59 | a character the table has is used; any other falls back to 'rikimaru' |
| CharacterComments.PickIndex | character-comments.js:62 | `Math.floor(draw * length)` for a draw in [0, 1) is a valid index |
| CharacterComments.GetCharacterComment | character-comments.js:56-63 | the line comes from the resolved character's correct pool when the answer was correct, and from its incorrect pool otherwise |
| CharacterComments.UnknownCharacterFallsBack | character-comments.js:57-59 | an unknown character comments exactly as 'rikimaru' for every draw |
| CharacterComments.CommentRevealsOutcome | character-comments.js:4-53 | no correct line of any character equals any incorrect line |
| CharacterComments.GetCharacterPortrait | character-comments.js:66-73 | the character's portrait, or rikimaru's for an unknown character |
| CharacterComments.PortraitFollowsComments | character-comments.js:56-73 | portrait and comments fall back together, to the same resolved character |
| CharacterComments.GetCharacterDisplayName | character-comments.js:76-83 | the capitalised identifier for the three known characters, "Master" otherwise |
| Supporters.InitialSupportersNamed | supporters.js:4-53 | the initial list has eight entries, all with non-empty names |
| Supporters.SupporterList.constructor | supporters.js:4-53 | the list starts as the eight initial supporters, so the count is 8 |
| Supporters.SupporterList.AddSupporter | supporters.js:56-63 | returns true if and only if the argument is present with a truthy name; then the argument is appended as the last element, earlier elements are unchanged and the count rises by exactly one; otherwise the list and the count are unchanged; the initial eight always stay at the front |
| Supporters.SupporterList.GetSupporterCount | supporters.js:86-88 | the count is the length of the list and never below 8, because entries are only ever appended |

## Left out

- `vfx.js`: canvas particle drawing and animation timing, with no rule logic.
- Display code in `game.js`:
  - particles and the slash effect;
  - `hideAllScreens`, `showPlayerNameScreen`, `showInfo`, `showSupporters` and `backToMenu`;
  - the text and portrait rendering in `showQuestion`, `showCharacterFeedback` and `showSupporterShoutout`.

  `screen` records only which box of the game screen is showing and what it shows.
- Game.Quiz.SelectAnswer: the commentator and comment picks of `showCharacterFeedback` (game.js:145), with the `characters` table of game.js:12-37, are random display choices and are not modelled. Neither is the `triggerSlash()` effect of game.js:143.
- Game.Quiz.NextQuestion: the supporter and commentator picks of `showSupporterShoutout` are random display choices and are not modelled.
- Game.ResultTier: the percentage `score / 5 * 100` is a floating-point value. The model compares `score * 100` with the thresholds times 5 instead. For the scores 0..5 a session can reach, the two give the same tier.
- Rendering in `missions.js`: `updateMissionsList`, `showMissionBriefing`, `showItemsScreen`, the body of `showMissionScene` and the `showInventoryStats` alert.
- Storage and network:
  - `loadMissions`, `savePlayerInventory`, `savePlayerStats`;
  - the `localStorage` read and `JSON.parse` of `loadPlayerInventory`, including a parse error.
- Missions.LoadPlayerInventory: saved counts are modelled as integers. A parsed value of another JSON type is not modelled. The method returns the new `playerInventory` instead of assigning the global.
- Missions.UpdateMissionStats: returns the updated `playerStats` value instead of writing `playerStats.missions` in place. The call to `savePlayerStats` is left out.
- Names used but not defined in the shown files are not part of this model: `sortMissions`, `findScene`, `getSceneIndex`, `loadSceneOptions`, `loadAvailableItems`, `startMission` and `endMission`. `findScene`'s result and the outcome passed to `endMission` are parameters or results here.
- A supporter's `name` is modelled as an optional string. A truthy name of another type (a number, an object), which `addSupporter` accepts, is not modelled.
- A mission's `requirements.minCoins` is modelled as an optional integer. Its truthiness is "present and non-zero"; non-numeric values are not modelled.
- JsText.ToUpper: only the ASCII letters a-z are upper-cased. JavaScript's full Unicode case mapping, which can change a string's length, is not modelled. This affects `getStatusText` and `formatItemName` only for non-ASCII input.
- Object-literal lookups such as `texts[status]` and `characterComments[character]` also find inherited `Object.prototype` names like `constructor`. The model treats only the table's own keys as present.
- `supporters.js` `updateSupportersList`: it only renders the list.
