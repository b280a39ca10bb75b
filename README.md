# Student mental-health companion: verified model of the session core

The application is a single React component (`src/App.js`). A student fills in a
profile, then reaches a home dashboard from which they can log moods, write journal
entries, take the PHQ-9 depression questionnaire and start an anonymous support
call. A mental-health risk level (low, moderate or high) is derived from what they
have recorded. This project models the part of the component that is not
presentation. That part is a session store, the handlers that change it, the
risk-scoring function, the PHQ-9 questionnaire state machine with its severity bands,
the screen and tab routing, and a few pure formatting helpers. It then proves what
these promise.

Modules:

- `Optional` is the `Option` datatype.
- `Ledger` holds the mood and journal entry records, the default journal title, the
  "three most recent, newest first" view and the 100-character content preview.
- `Text` covers JavaScript's `String.prototype.trim` (with its whitespace set), the
  decimal rendering of a natural number, `padStart`, and the `MM:SS` call timer
  format.
- `Risk` is the risk prediction. It keeps the moods in 1..5 and averages them, using
  3 when there are none. It adds the weighted PHQ-9 total and the low-engagement
  weight, then compares the sum with the thresholds 15 and 8. Arithmetic is exact
  (`real`). The module also proves the cleared-denominator integer form of the
  comparison.
- `Assessment` is the PHQ-9 questionnaire. It has nine answer slots, the current
  question index and the latest total, plus the `handleAnswer` transition, runs of
  answers, and the severity labels with the published cut-points 0–4, 5–9, 10–14,
  15–19 and 20–27.
- `Navigation` covers the screen and tab names and the view dispatch
  (`renderCurrentScreen`), including its fallbacks. It also has the buttons that
  move between screens and tabs, as a pure step function over intents.
- `App` contains the class `MentalHealthApp`. Its fields are the component's state
  and its methods are the handlers; each method requires the view that shows its
  button. Its validity invariant says several things:
  - routing stays on known names;
  - the questionnaire keeps its shape, and at question 0 its total is the sum of the
    slots;
  - a profile is stored exactly when onboarding is over, and only a complete one;
  - stored moods are in 1..5;
  - journal entries are non-blank and titled.

  The risk status is a function of the state, not a stored field, because the
  component recomputes it whenever the ledgers or the total change.

The component itself differs from a plain reading of its intent in four places, and
the model follows the component:

- `saveMood` does no range check. Moods are in 1..5 only because the five buttons
  produce `index + 1`.
- A journal entry's id is the clock value, so ids are not assumed unique.
- The profile gate tests each field for being a non-empty string, without trimming,
  so whitespace-only fields pass.
- The PHQ-9 answers are not cleared when a run completes, and leaving the
  questionnaire does not reset its index.

## Model

| member | source | states |
|---|---|---|
| Ledger.EntryTitle | src/App.js:307 | a saved journal title is never empty; a non-empty title is kept as typed, and an empty one becomes "Journal Entry" |
| Ledger.Reverse | src/App.js:279 | the result has the same length as the input and holds its elements in reverse order |
| Ledger.Recent | src/App.js:279 | `slice(-3).reverse()` holds min(3, n) entries, and position k is the (k+1)-th newest entry |
| Ledger.Preview | src/App.js:365 | content of at most 100 characters is shown unchanged; longer content shows exactly its first 100 characters followed by "...", 103 characters in all |
| Text.Trim | src/App.js:304 | trimming yields the empty (falsy) string exactly when every character is JavaScript whitespace, i.e. the text is blank; otherwise the result starts and ends with non-whitespace |
| Text.NatToString | src/App.js:483 | `toString` of a natural number gives non-empty decimal digits whose value is the number, with no leading zero |
| Text.PadStart | src/App.js:483 | `padStart` gives length max(width, len); the original string is the suffix and everything before it is the fill character |
| Text.FormatTime | src/App.js:480-484 | `formatTime(s)` is MM:SS, with at least two digits before the colon and exactly two after; the seconds part is below 60, and minutes·60 + seconds = s; minutes are padded only up to two digits, so a longer minute count has no leading zero |
| Risk.ValidEntries | src/App.js:46 | the filter keeps only entries whose mood lies in 1..5 and never grows the list |
| Risk.ValidEntriesAppend | src/App.js:46 | the filter distributes over concatenation, so it keeps ledger order: filtering a ledger is filtering each part and joining the results |
| Risk.ValidEntriesCount | src/App.js:46 | every entry with a mood in 1..5 is kept exactly as often as it occurs in the ledger, and no other entry is kept |
| Risk.AverageMood | src/App.js:48-49 | the average over valid moods lies in 1..5, and it is the neutral 3 when there are none |
| Risk.MoodWeight | src/App.js:51 | the mood weight `(5 - avg) * 2` lies between 0 and 8 |
| Risk.TotalScore | src/App.js:52-55 | the mood and journaling weights add between 0 and 10 to the PHQ-9 weight `phq9Score * 0.5` |
| Risk.Classify | src/App.js:57-59 | exactly one level: high iff the total is at least 15, moderate iff it is in [8, 15), low iff it is below 8 |
| Risk.CalculateMentalHealthPrediction | src/App.js:44-60 | the level is never below the one the PHQ-9 weight alone would give; with no valid mood and a PHQ-9 total of 0 or less it is low |
| Risk.PredictionThresholds | src/App.js:51-59 | exactly one level is returned: high iff total ≥ 15, moderate iff 8 ≤ total < 15, low iff total < 8 |
| Risk.NoDataIsLow | src/App.js:46-59 | with no valid mood and PHQ-9 total 0, the total is 6 (fewer than three journal entries) or 4, and the level is low |
| Risk.IntegerClassification | src/App.js:46-59 | with n > 0 valid moods summing to S, level high iff 4(5n−S) + n·phq + (journals<3 ? 4n : 0) ≥ 30n, moderate iff it lies in [16n, 30n), low iff it is below 16n |
| Risk.Phq9Monotone | src/App.js:52-59 | raising the PHQ-9 total never lowers the level |
| Risk.LowerMoodMonotone | src/App.js:46-59 | lowering any valid mood to another valid value never lowers the level |
| Risk.JournalingMonotone | src/App.js:53-59 | more journal entries never raise the level |
| Risk.ModerateScenario | src/App.js:44-60 | moods [1,1,2,1,2], PHQ-9 total 10 and one journal entry give total 14.2, which is moderate |
| Risk.HighScenario | src/App.js:44-60 | the same moods with PHQ-9 total 20 give total 19.2, which is high |
| Assessment.Sum | src/App.js:387 | the `reduce` over option values (0..3) lies between 0 and 3 per slot |
| Assessment.Answer | src/App.js:379-391 | an answer keeps nine slots and keeps the index within 0..8 |
| Assessment.InitialValid | src/App.js:12-14 | the initial questionnaire (nine zero slots, index 0, total 0) satisfies the invariant |
| Assessment.AnswerPreservesValid | src/App.js:379-391 | an answer writes the score into the current slot and leaves the others unchanged; before the last question the index advances and the total is kept; at the last question the index returns to 0 and the total becomes the sum of all nine slots; the invariant (index 0..8, answers 0..3, total 0..27) is kept |
| Assessment.CompleteRun | src/App.js:380-388 | nine answers in 0..3 from question 0 leave the slots equal to those answers and the index at 0, with the total their sum, whatever the slots held before; the total lies in 0..27 |
| Assessment.ExampleRun | src/App.js:379-391 | answering 0,1,2,3,0,1,2,3,0 from question 0 stores total 12 |
| Assessment.SeverityOf | src/App.js:452-456 | for a total in 0..27 the label is the published band that holds it |
| Assessment.SeverityMatchesPublishedBands | src/App.js:452-456 | for totals 0..27 the label is Minimal, Mild, Moderate, Moderately severe or Severe exactly when the total is in 0–4, 5–9, 10–14, 15–19 or 20–27 |
| Assessment.SeverityMonotone | src/App.js:452-456 | a higher total never gets a milder label |
| Assessment.ScorePanel | src/App.js:446-457 | the score panel is shown exactly when the total is positive, and then it shows the severity label of that total |
| Assessment.AllZeroRunLooksUnassessed | src/App.js:12-14 | a completed run of nine "Not at all" answers leaves the state equal to the initial one, so no score panel is shown |
| Navigation.Render | src/App.js:851-881 | the onboarding view is shown exactly on the onboarding screen; the status and counselor views only on the main screen; a view with a back button exactly on a feature screen |
| Navigation.Step | src/App.js:72-77 | only an intent whose button is shown (`Offered`: submit on onboarding, feature cards on the home dashboard, back on detail views, tabs on the main screen) changes the screen or tab; on the onboarding screen a submit leads to the main screen with the tab unchanged exactly when all four profile fields are non-empty (`IsComplete`); from known names it only leads to known names |
| Navigation.WellFormedRendersByName | src/App.js:851-881 | on known screen and tab names, the home dashboard is rendered exactly for the main screen with the home tab |
| Navigation.UnknownTabRendersHome | src/App.js:856-866 | on the main screen an unknown tab renders the home dashboard |
| Navigation.RunPreservesWellFormed | src/App.js:7-8 | any sequence of button presses keeps screen and tab among the names the app assigns |
| Navigation.LeaveOnboardingOnlyBySubmit | src/App.js:72-77 | the onboarding screen is left only by a submit with all four fields non-empty, which leads to the main screen |
| Navigation.OnboardingGate | src/App.js:72-77 | from the initial state, with no complete submit, every sequence of presses leaves the state at the initial one |
| Navigation.TabChangesOnlyOnMain | src/App.js:818-833 | the tab changes only on the main screen, only through a tab button, and only to a known tab key |
| Navigation.BackReturnsToMain | src/App.js:228 | every detail screen's back button returns to the main screen with the tab unchanged |
| Navigation.DetailScreensOnlyFromHome | src/App.js:141-145 | a detail screen is entered only from the home dashboard, through its own feature card |
| App.MentalHealthApp.MentalHealthStatus | src/App.js:62-64 | the status is never below what the latest PHQ-9 total alone gives, and it is low before any mood or assessment has been recorded |
| App.MentalHealthApp.constructor | src/App.js:7-16 | the initial session is on onboarding with the home tab; it has empty ledgers, the initial questionnaire, no call and status low |
| App.MentalHealthApp.HandleSubmit | src/App.js:72-77 | a complete form is stored and the screen becomes main; an incomplete one changes nothing |
| App.MentalHealthApp.OpenFeature | src/App.js:142-145 | a feature card shows its screen, and that screen's own state starts fresh |
| App.MentalHealthApp.GoBack | src/App.js:400 | "Back to Home" shows the main screen with the tab unchanged and questionnaire progress kept |
| App.MentalHealthApp.SelectTab | src/App.js:833 | a tab button sets the tab to its key |
| App.MentalHealthApp.SelectMood | src/App.js:242 | mood button i selects mood i+1, keeping the selection in 1..5 |
| App.MentalHealthApp.EditNotes | src/App.js:261 | the notes field holds what was typed |
| App.MentalHealthApp.SaveMood | src/App.js:211-220 | exactly one entry with the selected mood and notes is appended, earlier entries are unchanged, and the selection resets to 3 with empty notes |
| App.MentalHealthApp.EditTitle | src/App.js:335 | the title field holds what was typed |
| App.MentalHealthApp.EditEntry | src/App.js:342 | the entry field holds what was typed |
| App.MentalHealthApp.SaveJournal | src/App.js:303-314 | a non-blank draft appends exactly one entry, with the default title when the title is empty, and clears the draft; a blank draft changes nothing |
| App.MentalHealthApp.HandleAnswer | src/App.js:379-392 | an option button moves the questionnaire as `Assessment.Answer` does |
| App.MentalHealthApp.StartCall | src/App.js:486-489 | offered only while no call is active (the Start button); starting a call makes it active with duration 0 |
| App.MentalHealthApp.EndCall | src/App.js:491-494 | offered only during a call (the End button); ending a call makes it inactive with duration 0 |
| App.MentalHealthApp.Tick | src/App.js:470-478 | a timer tick adds one second only while a call is active on the call screen |
| App.SessionStatus | src/App.js:62-64 | in a session every stored mood counts, so the status is the integer threshold comparison over the whole mood ledger |

## Left out

- Markup, styling, the `recharts` charts, the `lucide-react` icons and every `alert()` are presentation or foreign library calls.
- `Date.now`, `toLocaleDateString` and `toLocaleTimeString` read the clock and the locale. Dates, timestamps and journal ids are parameters of `SaveMood` and `SaveJournal`.
- The `setInterval` timer is modelled as the explicit event `Tick`. Scheduling and `clearInterval` are not modelled.
- The counselor chat (`sendMessage` and its `setTimeout` plus `Math.random` auto-reply) involves timers and randomness and is not modelled.
- The counselor profile constants and the PHQ-9 question and option texts are static data. Only their counts (nine questions, four options scored 0..3) are modelled.
- The status screen's average mood is display-only `toFixed(1)` formatting. It uses its own filter and default, and is labelled "last 7 days" while averaging the whole history. It is not the scoring average and is not modelled.
- The home dashboard's latest-mood emoji is display only.
- Risk scoring is computed with exact rationals, where the component uses IEEE-754 doubles. The two agree on the level for any realistic ledger. A total exactly on 8 or 15 needs an average that is a multiple of 1/4, which the double division gives exactly, and every later step is exact too. Any other total is at least 1/(2n) from a threshold for n valid moods, while the rounding error is about 1e-14, so a disagreement would need around 10^13 mood entries.
- Lengths, substrings and trimming work on characters. JavaScript counts UTF-16 code units, so text outside the Basic Multilingual Plane can be measured differently.
- React's state batching and effect scheduling are not modelled. Each handler applies all of its updates at once.
- Screen-local state that React re-creates when a screen is shown is modelled as fields reset by `OpenFeature`. Re-renders that do not change the screen are not modelled.
- The profile form fields are modelled as a whole form passed to `HandleSubmit`, not keystroke by keystroke.
