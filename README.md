# A verified model of the quiz core

The quiz walks a player through six phases: intro → name → questions ⇄
cutscene → loading → result → intro. It asks twelve fixed questions of three
kinds: a multiple choice whose options carry a hidden tag, free text, and a
1..10 slider. At the end it scores the answers into a categorical analysis
(trust, attachment, tone, comfort in silence, importance) and picks one of
five short poems.

This project models those parts in Dafny and proves what they promise:

- `GameTypes` (src/types/game.ts) holds the records: question, answer and
  game state.
- `QuestionCatalog` (src/data/questions.ts) holds the twelve-question catalog
  as a constant, with lemmas on its shape.
- `ResultScreen` holds the scoring engine `analyzeAnswers` and the
  first-match poem selector `getPoetryResult`. The poem selector is proved
  equal to a generic decision list over its five rules. It also holds the
  `emotionalDistance` and `perception` report fields.
- `GameContainer` holds the phase state machine.
  - `Step` gives each handler's meaning on the pair (game state, cutscene
    counter).
  - `Game` is a class whose fields hold that pair, with one method per
    handler. Each method is proved to perform `Step` in place.
  - `Inv` is the reachable-state invariant. Every handler invoked from its
    own screen preserves it.
  - Whole-run lemmas show that twelve answers pass exactly two cutscenes.
- `QuestionScreen` holds the question screen's local input state (a class),
  the per-type answer construction `BuildAnswer`, and the `canProceed` gate.
- `NameEntry` holds the name form: the trim guard of its submit and the
  disabled state of its button.
- `JsStrings` holds `String.prototype.trim` (over the ECMAScript whitespace
  code points) and `Array.prototype.join`.
- `SessionProperties` ties the parts together:
  - it checks the scoring tag sets against the catalog;
  - it wires the two forms to the container's handlers.

A missing scale answer, or an answer of 0, counts as 5, because the code
(ResultScreen.tsx:35-36) uses `|| 5`.

`QuestionCatalog.Catalog` is a constant that transcribes the twelve questions of
src/data/questions.ts:3-126, with every id, type, prompt, subtext, option and
hidden tag as written there. What the rest of the model relies on is proved
about it by the `QuestionCatalog` lemmas in the table below.

The container's handlers check neither the phase nor the answer. They rely
on only the current phase's screen raising events. `Step` therefore applies
any event in any state, as the code does. `Enabled` states which events the
screen of the current phase can raise, and the invariant is proved for those.
A screen that is still playing its exit animation can also raise events; the
model leaves those out (see "## Left out").

## Model

| member | source | states |
|---|---|---|
| JsStrings.LeadingWhitespace | src/components/game/NameEntry.tsx:14-15 | the count of leading characters `trim()` drops: all of them whitespace, and followed by a non-whitespace character or the end |
| JsStrings.TrailingWhitespace | src/components/game/NameEntry.tsx:14-15 | the count of trailing characters `trim()` drops: all of them whitespace, and preceded by a non-whitespace character or the start |
| JsStrings.Trim | src/components/game/NameEntry.tsx:14-15 | `trim()` returns a slice of the input whose dropped margins are all whitespace; it has no whitespace at either end and is empty exactly when the input is all whitespace |
| JsStrings.TrimOfTrimmed | src/components/game/NameEntry.tsx:15 | trimming a string with no surrounding whitespace leaves it unchanged |
| JsStrings.TrimIdempotent | src/components/game/NameEntry.tsx:15 | trimming the trimmed name again changes nothing |
| JsStrings.Join | src/components/game/ResultScreen.tsx:130 | the joined length is the total element length plus one separator between each pair of neighbours |
| JsStrings.JoinSnoc | src/components/game/ResultScreen.tsx:130 | joining one more element appends the separator and then that element |
| JsStrings.JoinEmptyIff | src/components/game/ResultScreen.tsx:130 | when no element is empty, the join is empty exactly when the list is empty |
| QuestionCatalog.CatalogSize | src/data/questions.ts:3-126 | the catalog has exactly twelve questions |
| QuestionCatalog.IdsDistinct | src/data/questions.ts:3-126 | no two questions share an id |
| QuestionCatalog.AllWellShaped | src/data/questions.ts:3-126 | choice questions carry options and no scale labels, scale questions carry labels and no options, text questions carry neither |
| QuestionCatalog.ChoiceQuestions | src/data/questions.ts:10-115 | exactly the seven questions at positions 1, 2, 3, 5, 6, 8 and 10 are choice questions; each has four options with ids a..d and pairwise-distinct hidden tags |
| QuestionCatalog.NamedQuestions | src/data/questions.ts:3-126 | first_memory, one_word and unsaid are text questions, and silence_together and final_truth are scale questions, each at the position the constants name |
| ResultScreen.Tagged | src/components/game/ResultScreen.tsx:14 | an answer contributes to scoring exactly when its hidden meaning is present and not the empty string, the only falsy string |
| ResultScreen.HiddenValues | src/components/game/ResultScreen.tsx:13-15 | the hidden values are no longer than the answers and none is empty; a tag is among them exactly when some answer carries it |
| ResultScreen.HiddenValuesAppend | src/components/game/ResultScreen.tsx:13-15 | extraction distributes over concatenation, so it keeps answer order: it is the subsequence of the tags |
| ResultScreen.HiddenValuesSnoc | src/components/game/ResultScreen.tsx:13-15 | one more answer adds its tag at the end when it has a non-empty one, and nothing otherwise |
| ResultScreen.NoTagsNoHiddenValues | src/components/game/ResultScreen.tsx:13-15 | answers without tags give no hidden values |
| ResultScreen.NoTagsNoHiddenValuesConverse | src/components/game/ResultScreen.tsx:13-15 | non-empty hidden values come from some tagged answer |
| ResultScreen.CountIn | src/components/game/ResultScreen.tsx:20-21 | a set's count is at most the number of values, and it is zero exactly when no value lies in the set |
| ResultScreen.CountInAppend | src/components/game/ResultScreen.tsx:20-21 | counting distributes over concatenation |
| ResultScreen.Find | src/components/game/ResultScreen.tsx:35-41 | `find` returns nothing exactly when no answer has the id; otherwise it returns an answer with that id, and no earlier answer has the id |
| ResultScreen.FindIsFirst | src/components/game/ResultScreen.tsx:35-41 | `find` returns the answer at the first position holding the id |
| ResultScreen.TrustOf | src/components/game/ResultScreen.tsx:44 | high iff trust > distrust, mixed iff they are equal, guarded iff trust < distrust |
| ResultScreen.AttachmentOf | src/components/game/ResultScreen.tsx:45 | strong iff the attachment count is at least 2 |
| ResultScreen.ToneOf | src/components/game/ResultScreen.tsx:46 | positive, complex or conflicted iff the positive count is >, = or < the negative count |
| ResultScreen.ComfortOf | src/components/game/ResultScreen.tsx:47 | very comfortable iff score ≥ 7, somewhat iff 4 ≤ score < 7, uncomfortable iff score < 4 |
| ResultScreen.ImportanceOf | src/components/game/ResultScreen.tsx:48 | very important iff score ≥ 8, moderately iff 5 ≤ score < 8, peripheral iff score < 5 |
| ResultScreen.ScaleScore | src/components/game/ResultScreen.tsx:35-36 | the score of a scale question is never 0: it is 5 when the question has no answer, and a 0 answer reads as 5 |
| ResultScreen.TextAnswer | src/components/game/ResultScreen.tsx:39-41 | the text of a question is "" when it has no answer, and otherwise the string of its first answer |
| ResultScreen.AnalyzeAnswers | src/components/game/ResultScreen.tsx:12-54 | the analysis keeps the hidden values in answer order; trust, attachment and tone are each an iff over the tag-set counts of those values |
| ResultScreen.NoTagsNeutral | src/components/game/ResultScreen.tsx:44-46 | with no tagged answer: no hidden values, mixed trust, moderate attachment, complex tone |
| ResultScreen.MissingScaleDefaults | src/components/game/ResultScreen.tsx:35-48 | each scale field on its own: without a silence_together answer comfort is somewhat comfortable, and without a final_truth answer importance is moderately important, since the default is 5 |
| ResultScreen.ScaleFromFirstAnswer | src/components/game/ResultScreen.tsx:35-48 | each scale field on its own is the bucket of the first numeric answer to its question, with the falsy 0 read as the default 5 |
| ResultScreen.TextFromFirstAnswer | src/components/game/ResultScreen.tsx:39-51 | rawMemory, emotionWord and unspokenThought are the text of the first answer with id first_memory, one_word and unsaid respectively |
| ResultScreen.MissingTextEmpty | src/components/game/ResultScreen.tsx:39-51 | each text field on its own: without a first_memory, one_word or unsaid answer, rawMemory, emotionWord or unspokenThought respectively is empty |
| ResultScreen.GetPoetryResult | src/components/game/ResultScreen.tsx:56-116 | the result is one of the five outcomes, and every poem has exactly four lines |
| ResultScreen.FirstMatch | src/components/game/ResultScreen.tsx:56-116 | a decision list returns either its default or the outcome of one of its rules |
| ResultScreen.FirstMatchAt | src/components/game/ResultScreen.tsx:56-116 | a decision list returns the outcome of the first rule that holds |
| ResultScreen.FirstMatchNone | src/components/game/ResultScreen.tsx:107-115 | a decision list returns its default when no rule holds |
| ResultScreen.PoetryResultIsDecisionList | src/components/game/ResultScreen.tsx:56-116 | the poem selector equals the decision list Anchor, Distant Star, Thorn and Rose, Unfinished Letter with default Quiet Thread |
| ResultScreen.AnchorBeatsDistantStar | src/components/game/ResultScreen.tsx:59-81 | when the Anchor and Distant Star conditions both hold, the result is The Anchor |
| ResultScreen.GuardedIsDistantStar | src/components/game/ResultScreen.tsx:59-81 | guarded trust always gives The Distant Star |
| ResultScreen.PoetryTitles | src/components/game/ResultScreen.tsx:56-116 | each title is chosen exactly when its rule holds and no earlier rule does |
| ResultScreen.EmotionalDistance | src/components/game/ResultScreen.tsx:129 | "close" iff attachment is strong, otherwise "moderate" |
| ResultScreen.Perception | src/components/game/ResultScreen.tsx:130 | the perception is the hidden values joined with ", "; its meaning is stated by the lemma in the next row |
| ResultScreen.PerceptionEmptyIff | src/components/game/ResultScreen.tsx:13-130 | the perception is empty exactly when no answer carries a tag |
| GameContainer.Step | src/components/game/GameContainer.tsx:24-85 | the meaning of each handler on the pair (game state, cutscene counter), applied in any state as the handlers do; its properties are the lemmas in the next rows |
| GameContainer.Enabled | src/components/game/GameContainer.tsx:90-127 | the events the screen of the current phase can raise: each handler only from its own phase, a name only when non-empty, an answer only to the question on screen |
| GameContainer.Inv | src/components/game/GameContainer.tsx:12-85 | the reachable-state invariant: answers follow the catalog ids in order, the counter equals the cutscene indices passed, and each phase fixes how the name, index and answer count relate |
| GameContainer.AnswerTransition | src/components/game/GameContainer.tsx:36-67 | the answer is appended at the end and the name kept; then exactly one of three things happens: at an index in {4, 8} below 12 the phase becomes cutscene, the index advances and the counter grows by 1; at index 12 or beyond the phase becomes loading and the index stays; otherwise the index advances and phase and counter stay |
| GameContainer.CompletionsOnlyMovePhase | src/components/game/GameContainer.tsx:69-75 | cutscene-complete only sets the phase to questions, and loading-complete only sets it to result |
| GameContainer.RestartIsInitial | src/components/game/GameContainer.tsx:77-85 | restart from any session gives exactly the initial session: empty name, intro, index 0, no answers, counter 0 |
| GameContainer.InitialInv | src/components/game/GameContainer.tsx:15-22 | the initial session satisfies the invariant |
| GameContainer.StepPreservesInv | src/components/game/GameContainer.tsx:24-85 | every handler raised by the screen of the current phase keeps the invariant. The invariant says: answers follow the catalog in order; the counter equals the cutscene indices passed; in questions and cutscene, answer count == index < 12; in loading and result, 12 answers |
| GameContainer.AnswerPreservesInv | src/components/game/GameContainer.tsx:36-67 | submitting the current question's answer keeps the invariant |
| GameContainer.QuestionIndexInRange | src/components/game/GameContainer.tsx:98-101 | while questions or a cutscene show, the index is in range and equals the number of answers |
| GameContainer.LoadingHasAllAnswers | src/components/game/GameContainer.tsx:53-58 | in loading and result there is one answer per catalog question, in catalog order |
| GameContainer.CutscenesUpToNext | src/components/game/GameContainer.tsx:12-43 | the cutscene count grows by one exactly when the next index shows a cutscene |
| GameContainer.CutscenesUpToClosedForm | src/components/game/GameContainer.tsx:12 | with twelve questions, the cutscenes up to index i are those at 4 and 8 that i has reached |
| GameContainer.PlayAnswers | src/components/game/GameContainer.tsx:36-71 | any run of answers, each cutscene finished before the next, appends exactly those answers in order and keeps the name |
| GameContainer.PlayToLoading | src/components/game/GameContainer.tsx:36-71 | answering every remaining question ends in loading with those answers appended and the index on the last question; the counter grows by the number of cutscene indices passed |
| GameContainer.StartAndName | src/components/game/GameContainer.tsx:24-34 | start followed by a name submission opens question 0 with that name |
| GameContainer.FullGame | src/components/game/GameContainer.tsx:12-71 | twelve answers from the first question pass exactly two cutscenes and end in loading with all twelve answers in order |
| GameContainer.Game.constructor | src/components/game/GameContainer.tsx:15-22 | a new container holds the initial session, which satisfies the invariant |
| GameContainer.Game.CurrentQuestion | src/components/game/GameContainer.tsx:101 | the question on screen is the first one not yet answered |
| GameContainer.Game.HandleStart | src/components/game/GameContainer.tsx:24-26 | performs the start step in place, keeping the invariant when raised from the intro |
| GameContainer.Game.HandleNameSubmit | src/components/game/GameContainer.tsx:28-34 | performs the name step in place, keeping the invariant for a non-empty name on the name screen |
| GameContainer.Game.HandleAnswer | src/components/game/GameContainer.tsx:36-67 | performs the answer step in place, keeping the invariant for the current question's answer |
| GameContainer.Game.HandleCutsceneComplete | src/components/game/GameContainer.tsx:69-71 | performs the cutscene-complete step in place, keeping the invariant |
| GameContainer.Game.HandleLoadingComplete | src/components/game/GameContainer.tsx:73-75 | performs the loading-complete step in place, keeping the invariant |
| GameContainer.Game.HandleRestart | src/components/game/GameContainer.tsx:77-85 | resets to the initial session, which satisfies the invariant |
| QuestionScreen.FindOption | src/components/game/QuestionScreen.tsx:27 | returns nothing exactly when no option has the id; otherwise it returns the first option with it |
| QuestionScreen.BuildAnswer | src/components/game/QuestionScreen.tsx:23-43 | the answer always carries the question's id. Choice: the value is the selected id or ""; the tag is present exactly when an option has that id, and is then that option's hidden value. Text: the raw text and no tag. Scale: the slider number and no tag |
| QuestionScreen.ChoiceAnswerCarriesTag | src/components/game/QuestionScreen.tsx:26-32 | picking an option records its id and its hidden tag |
| QuestionScreen.QuestionInput.constructor | src/components/game/QuestionScreen.tsx:19-21 | nothing selected, no text, slider at 5 |
| QuestionScreen.QuestionInput.SelectOption | src/components/game/QuestionScreen.tsx:119 | clicking an option selects its id, leaves the rest and keeps the slider in 1..10 |
| QuestionScreen.QuestionInput.SetText | src/components/game/QuestionScreen.tsx:141 | typing sets the text, leaves the rest and keeps the slider in 1..10 |
| QuestionScreen.QuestionInput.SetScale | src/components/game/QuestionScreen.tsx:159-164 | the slider sets a value in 1..10 and leaves the rest |
| QuestionScreen.QuestionInput.CanProceed | src/components/game/QuestionScreen.tsx:51-54 | a choice proceeds iff an option is selected, a text iff it is not blank, and a scale always |
| QuestionScreen.QuestionInput.HandleSubmit | src/components/game/QuestionScreen.tsx:23-49 | emits the answer built from the input as it was, then resets to no selection, empty text and slider 5; a scale answer is a number in 1..10 |
| QuestionScreen.QuestionInput.ClickContinue | src/components/game/QuestionScreen.tsx:193-195 | a disabled button emits nothing and changes nothing; an enabled one submits; the slider stays in 1..10 and a scale answer sent is a number in 1..10 |
| NameEntry.NameForm.constructor | src/components/game/NameEntry.tsx:10 | the name starts empty |
| NameEntry.NameForm.SetName | src/components/game/NameEntry.tsx:53 | typing sets the name |
| NameEntry.NameForm.HandleSubmit | src/components/game/NameEntry.tsx:12-17 | nothing is submitted iff the name is blank; otherwise the trimmed name, which is non-empty with no surrounding whitespace |
| NameEntry.NameForm.SubmitDisabled | src/components/game/NameEntry.tsx:68 | the button is disabled exactly when the name is blank |
| SessionProperties.TrustTagsInCatalog | src/components/game/ResultScreen.tsx:18 | every trust tag is the hidden value of some catalog option |
| SessionProperties.DistrustTagsInCatalog | src/components/game/ResultScreen.tsx:19 | every distrust tag is the hidden value of some catalog option |
| SessionProperties.AttachmentTagsInCatalog | src/components/game/ResultScreen.tsx:24 | every attachment tag is the hidden value of some catalog option |
| SessionProperties.PositiveTagsInCatalog | src/components/game/ResultScreen.tsx:29 | every positive tag is the hidden value of some catalog option |
| SessionProperties.NegativeTagsInCatalog | src/components/game/ResultScreen.tsx:30 | every negative tag is the hidden value of some catalog option |
| SessionProperties.ScoringTagsInCatalog | src/components/game/ResultScreen.tsx:18-30 | every tag the five scoring sets count is the hidden value of some catalog option |
| SessionProperties.SubmitNameForm | src/components/game/GameContainer.tsx:94-96 | the name form feeding the container: a blank name leaves the session unchanged; otherwise the new session is exactly the name step with the trimmed name, so the name is stored and the questions begin; the invariant holds |
| SessionProperties.ContinueQuestion | src/components/game/GameContainer.tsx:98-105 | the question screen feeding the container: a disabled continue leaves session and input unchanged; otherwise the new session is exactly the answer step with the answer built from the input as it was, the input is reset to no selection, empty text and slider 5, and the invariant holds |

## Left out

- Rendering, animation and layout are not modelled. This covers all of SketchElements.tsx and IntroScreen.tsx, and the framer-motion props.
- Timers are not modelled. The timeouts of CutsceneScreen.tsx and LoadingScreen.tsx appear only as the `CutsceneComplete` and `LoadingComplete` events.
- The cutscene text that `phase % 3` picks is rendering only, so it is left out.
- The result screen's reporting is left out because it is I/O or reads the wall clock. This covers the `console.log` calls, the `localStorage` read-append-write and the ISO timestamp. The `hiddenFeelings` and `overallInsight` strings are left out because they only format fields that are modelled.
- React's `useState`/`useMemo`/`useCallback` mechanics are not modelled. The `setCutscenePhase` inside the state updater (GameContainer.tsx:43) is modelled as one increment per cutscene; a double invocation under strict mode is framework behaviour.
- `e.preventDefault()` in the name form is browser behaviour, so it is left out.
- GameContainer.Enabled: events from a screen that is leaving are not modelled. The container wraps its screens in `<AnimatePresence mode="wait">` (GameContainer.tsx:89), so the old screen stays on screen, and clickable, for its 0.6 s exit (QuestionScreen.tsx:59-61) before the next one appears. `Enabled`, and so every invariant proof, assumes that only the current phase's screen raises events. This excludes the double submit of a scale question: after the first Continue the slider is reset to 5 (QuestionScreen.tsx:48) and `canProceed` stays true (QuestionScreen.tsx:54), so a second click during the exit would send the same question's answer again. `handleAnswer` would append it and skip the next question, which breaks the catalog order `Inv` states (on final_truth it would leave 13 answers). The handlers themselves are modelled as written, in `Step`, for any event in any state.
- The unused `detachmentIndicators` set (ResultScreen.tsx:25) is left out; nothing reads it.
- ResultScreen.ScaleScore: the code's `as number || 5` is only a type cast. A non-empty string stored under a scale id would reach the numeric comparisons and be coerced to a number. The model reads any non-numeric value as the default 5 and does not model JavaScript's string-to-number coercion.
- ResultScreen.TextAnswer: a non-zero number stored under a text id would be kept as a number by `as string || ''`. The model reads it as "". The question screen never produces either mismatch, since it builds a number only for scale questions and a string only for the others.
- JsStrings.IsWhitespace lists the ECMAScript WhiteSpace and LineTerminator code points as fixed by current Unicode. Changes to the space-separator category in other Unicode versions are not modelled.
- The answer values that scoring reads are not tied to a completed game's catalog positions by a lemma. `GameContainer.LoadingHasAllAnswers` gives the order of ids, and `ResultScreen.FindIsFirst` gives the lookup from a position.
