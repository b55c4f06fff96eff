# Koine Greek games: vocabulary expansion and performance statistics

This project models the two pieces of logic of a browser application that
drills Koine Greek noun morphology.

- **The second-declension vocabulary** (module `SecondDeclension`, file
  `second_declension.dfy`). `ToQuestions` turns a record of the nine inflected
  forms of a masculine second-declension noun (`Forms`) into nine quiz
  questions, one per field. Each question is
  a prompt (the form) and an answer (genders, number, cases). The nominative
  and vocative plural share one form, so they share one question whose answer
  lists both cases. `SecondDeclensionWords` is the constant table of thirteen
  words built with `ToQuestions`. It is copied form by form from the source.
  Its head words are written there apart from the forms, so "the head word is
  the first prompt" is a proved fact, not a construction. The `Answer` and
  `Question` types of `src/types/nominalForms.ts` are declared in this module.
- **The performance-statistics tracker** (module `PerformanceStats`, file
  `performance_stats.dfy`). It keeps a map from `"<gameId>|<question>"` to
  `{seen, correct}` counters. The map is stored as text under the
  local-storage key `koine:question-stats:v1`. The pure part is on values:
  `BuildStatKey`, `DefaultStat`, `Record` (one read-modify-write), `LoadFrom`
  and `SaveTo`. The stateful part is the class `StatsTracker`. Its field
  `window` is the browser's local storage, or `None` when no browser window
  exists. Its methods `LoadAnswerStats`, `SaveAnswerStats` and
  `RecordQuestionOutcome` follow the source statement by statement.
  `RecordQuestionOutcome`'s contract ties the new storage to `Record` of the
  old statistics.
- `wrappers.dfy` holds the `Option` datatype.

JSON parsing and serialization are not modelled. A tracker is built with two
function values, `decode` and `encode`. `decode` answers `None` where
`JSON.parse` would throw. The statements about reading back what was written
assume that `decode` undoes `encode` and that no encoding is the empty string
(`RoundTrips`). `JSON.stringify` of an object always gives text starting with
`{`, so that second condition holds.

## Model

| member | source | states |
|---|---|---|
| `SecondDeclension.ToQuestions` | src/data/secondDeclensionWords.ts:21-60 | every paradigm expands to exactly nine questions |
| `SecondDeclension.ToQuestionsSlots` | src/data/secondDeclensionWords.ts:22-59 | the prompts are the nine form fields in declared order (nomSg, genSg, datSg, accSg, vocSg, nomVocPl, genPl, datPl, accPl); every answer's genders are exactly `["masculine"]`; questions 0-4 are singular and 5-8 plural; each answer has one case, in the order nominative, genitive, dative, accusative, vocative, except question 5, which has nominative and vocative |
| `SecondDeclension.ToQuestionsCoversEachCellOnce` | src/data/secondDeclensionWords.ts:22-58 | for every number and case, exactly one question accepts that cell when it is one of the ten singular/plural × five-case cells, and no question accepts any other cell |
| `SecondDeclension.TableShape` | src/data/secondDeclensionWords.ts:62-258 | the table has 13 entries; each has nine questions and its first prompt equals its `nominativeSingular` |
| `SecondDeclension.TablePromptsDistinct` | src/data/secondDeclensionWords.ts:62-258 | within every entry the nine prompts are pairwise distinct |
| `PerformanceStats.DefaultStat` | src/utils/performanceStats.ts:10-12 | a fresh statistic has been seen zero times and is consistent (0 <= correct <= seen) |
| `PerformanceStats.BuildStatKey` | src/utils/performanceStats.ts:38-40 | the key is the game identifier, then `|`, then the question text, with nothing else |
| `PerformanceStats.StatKeyRoundTrip` | src/utils/performanceStats.ts:38-40 | when the game identifier holds no `|`, splitting the key at its first `|` gives back the game identifier and the question |
| `PerformanceStats.StatKeySplitInverse` | src/utils/performanceStats.ts:38-40 | every string holding a `|` is the key of the two parts around its first `|` |
| `PerformanceStats.StatKeyInjective` | src/utils/performanceStats.ts:38-40 | for game identifiers without `|`, two keys are equal if and only if both game and question are equal |
| `PerformanceStats.StatKeyAmbiguous` | src/utils/performanceStats.ts:38-40 | a `|` inside a game identifier lets two different (game, question) pairs share a key |
| `PerformanceStats.Record` | src/utils/performanceStats.ts:47-55 | after one outcome the recorded key is present; an absent key becomes {seen 1, correct 1 or 0}; a present key's `seen` grows by exactly 1 and its `correct` by 1 exactly when the answer was right; every other key keeps its value and no key is lost or added |
| `PerformanceStats.RecordKeepsConsistent` | src/utils/performanceStats.ts:49-54 | if every entry has 0 <= correct <= seen before an outcome, every entry still has it afterwards |
| `PerformanceStats.RecordIsMonotone` | src/utils/performanceStats.ts:49-55 | no counter of any key ever decreases |
| `PerformanceStats.RecordAllTally` | src/utils/performanceStats.ts:42-58 | N outcomes for one key (N may be 0), k of them right, add exactly N to `seen` and k to `correct` of that key, counting an absent key as {0, 0}, and leave all other keys unchanged |
| `PerformanceStats.RecordAllFromAbsent` | src/utils/performanceStats.ts:42-58 | from a key never recorded, N outcomes with k right answers give exactly {seen N, correct k} |
| `PerformanceStats.RecordAllOrderIrrelevant` | src/utils/performanceStats.ts:42-58 | any reordering of the same outcomes gives the same statistics map |
| `PerformanceStats.SaveTo` | src/utils/performanceStats.ts:31-36 | writing stores the encoding of the map under the statistics key, touches no other key of local storage, and writes nothing when there is no browser window |
| `PerformanceStats.LoadAfterSave` | src/utils/performanceStats.ts:14-36 | loading after saving gives back the saved statistics in a browser, and the empty map without one |
| `PerformanceStats.StatsTracker.LoadAnswerStats` | src/utils/performanceStats.ts:14-29 | the loaded map is exactly what the current storage reads as under `LoadFrom` |
| `PerformanceStats.LoadFrom` | src/utils/performanceStats.ts:14-29 | a parse failure is caught and reads as the empty map; so do a missing browser window, a missing key and empty stored text; otherwise the result is the decoded map |
| `PerformanceStats.StatsTracker.SaveAnswerStats` | src/utils/performanceStats.ts:31-36 | the stored text becomes the encoding of the map and nothing else in storage changes; without a window nothing is written |
| `PerformanceStats.StatsTracker.RecordQuestionOutcome` | src/utils/performanceStats.ts:42-58 | the storage afterwards is the old storage with the statistics replaced by `Record` of the old statistics for key `gameId|question`; without a window it stays absent; consistency of all counters is preserved |
| `PerformanceStats.TwoOutcomes` | src/utils/performanceStats.ts:42-58 | on a tracker whose browser store starts empty, a right then a wrong answer to the same question leave the stored statistics holding {seen 2, correct 1} under `second-declension-flash-cards|ἄνθρωπος` |

## Left out

- The route table (`src/router/index.ts`) is not part of this model. It only configures a routing library and has no logic of its own.
- Vue components and views are not part of this model. They are user interface.
- JSON syntax is not modelled. `JSON.parse` and `JSON.stringify` are foreign calls, so they are the `decode` and `encode` parameters of a tracker.
- The unchecked cast of the parsed value to a statistics map is left out. A top-level `null` throws at line 49; a number, string or boolean throws at line 55; an array silently loses the outcome; misshapen entries are not modelled either: a `null` entry reads as the default at line 49; a number, string or boolean entry throws at line 51; an array entry loses the outcome; string counters are joined, not added, at lines 51-53; a missing counter becomes `NaN`, written as `null`. In the model `decode` yields a map or `None`.
- Write failures of local storage (quota exceeded) are left out. The source does not handle them.
- `PerformanceStats.StatsTracker.LoadAnswerStats`: errors from accessing local storage itself are not modelled. Where the browser denies storage, reading `window.localStorage` at lines 19 and 35 throws outside the `try`, and the error escapes `loadAnswerStats`, `saveAnswerStats` and `recordQuestionOutcome`; the model only catches parse failures, as the source does.
- Races between two tabs doing the read-modify-write at once are left out. The model is single-threaded, as the source assumes.
- The two ways storage can be missing (`typeof window === "undefined"` and a missing key) are modelled as a missing `window` and a missing key. Both read as the empty map, as in the source.
- Counters are unbounded integers. JavaScript numbers lose integer precision above 2^53, a count no quiz reaches.
- The source mutates the stored statistic object in place before writing it back. The model works on values. The map that is written is the same either way, so aliasing is not modelled.
- `PerformanceStats.StatKeyRoundTrip` and `PerformanceStats.StatKeyInjective` require a game identifier without `|`. The source does not enforce this; `PerformanceStats.StatKeyAmbiguous` shows what happens otherwise.
