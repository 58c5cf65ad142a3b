# Timed Python quiz: session state machine, scoring, result row and leaderboard

This project models the core of a single-page quiz application. A candidate
enters a name on the landing page. They then answer a fixed bank of 26
multiple-choice Python questions one at a time. At the end they see a summary
whose result row is appended to a results sheet. The landing page also shows
the five best stored scores.

The model has five modules:

- `Bank` holds the 26 questions exactly as the application lists them, plus
  the counting facts about them. The bank cycles through Tracing, Debug, DS and
  Concept. Every item has difficulty 3. One DS item stores an answer that its
  options do not offer.
- `Engine` is the session as a value (`Session`). It has the three button
  handlers as transitions: `Start`, `Submit` and `ReEnter`. It also has the
  page dispatch (`PageOf`), runs of user actions and the invariant of every
  reachable session (`Inv`).
- `SessionState` is the page's session store as a class, `QuizSession`. Its
  fields are updated in place by the handlers, and each method is proved to
  follow the matching `Engine` transition.
- `Results` covers accuracy, XP, the skills column (comma-joined category
  names, with its inverse), the eleven-cell result row and its inverse, and
  the facts about a completed session's record.
- `Leaderboard` models the fail-soft load, the order by score (highest
  first), the first five rows, and the panel that says there is no data when
  there are no rows.

Some decisions about what the code means:

- **Buttons only exist on their own page.** The page shows the landing view
  when neither `started` nor `complete` is set. It shows the quiz when only
  `started` is set, and the summary when `complete` is set. A button that is
  not on screen cannot be pressed, so each transition leaves the session
  unchanged on any other page.
- **"No selection" follows Python truthiness.** The guard `if ans:` treats
  both `None` and the empty string as no selection (`Engine.Selected`).
- **The radio widget limits what can be submitted.** It only offers the
  current question's options. Runs of actions are therefore restricted to
  what the widget can produce (`Engine.FromWidget`, `Engine.WidgetRun`). The
  bounds `correct <= 25` and `DS <= 5` depend on this. A raw string "append"
  would otherwise score the unanswerable item.
- **The question index is always below 26.** `q_index` is the subset type
  `QuestionIndex`: on the last question the index stays at 25 and `complete`
  is set instead.
- **The transitions take the bank as a parameter.** The page always uses
  `Bank.Questions`. The lemmas hold for any bank with its layout
  (`Bank.Layout`), and `Bank.BankLayout` proves that the real bank has it.

What the code does in places where a reader might expect otherwise:

- **Item 10 is unanswerable.** A quiz item would normally offer its stored
  answer among its options. Item 10 (app.py:151) stores `"append"` but offers
  `"append()"`, so it can never be scored. The model assumes nothing about
  answers being among options.
- **The index stays at 25.** After the last question the index is not
  advanced to 26. It stays at 25 and `complete` is set (app.py:192-196).
- **A submit in the wrong phase is a no-op.** Off the quiz page the submit
  button is not drawn, so nothing happens. No error is raised.
- **Reset is only on the results page.** The only way back is the re-entry
  button drawn on the summary page (app.py:271-273).
- **The leaderboard sorts by `Score`.** It does not sort by XP. The sort is
  pandas' default, unstable sort (app.py:221), and each card labels that
  score "XP" (app.py:226).

## Model

| member | source | states |
|---|---|---|
| Bank.OrderIndex | app.py:126 | The position of each category within the tally's key order Tracing, Debug, Concept, DS. |
| Bank.BankShape | app.py:140-167 | The bank holds exactly 26 items, and every item has difficulty 3. |
| Bank.ItemTenUnanswerable | app.py:151 | Item 10 is a DS item. Its stored answer is "append" while its options offer "append()", so it is not answerable. |
| Bank.AnswerableBelowTen | app.py:141-150 | Items 0 to 9 each offer their stored answer among their options. |
| Bank.AnswerableEleven | app.py:152-159 | Items 11 to 18 each offer their stored answer among their options. |
| Bank.AnswerableNineteen | app.py:160-166 | Items 19 to 25 each offer their stored answer among their options. |
| Bank.CategoryCycleStart | app.py:141-151 | Items 0 to 3 are Tracing, Debug, DS and Concept, and items 4 to 10 repeat the category four places earlier. |
| Bank.CategoryCycleRest | app.py:152-166 | Items 11 to 25 repeat the category four places earlier. |
| Bank.BankLayout | app.py:141-166 | The bank has the layout the counting arguments use: 26 items of difficulty 3, categories cycling with period four, and only item 10 unanswerable. |
| Bank.QuizBank | app.py:140-167 | The bank the page serves is the listed bank, and it has that layout. |
| Bank.LayoutRotation | app.py:141-166 | In a bank with that layout, item i belongs to the i-th category of the four-step cycle. |
| Bank.ScorableIsCategoryCount | app.py:141-166 | In such a bank the only item lost to scoring is the DS item at position 10; among the first k items, all but that one can be scored. |
| Bank.LayoutCounts | app.py:141-166 | Such a bank can score 7 Tracing, 7 Debug, 6 Concept and only 5 DS answers: 25 in all. |
| Bank.ScorableCounts | app.py:141-166 | The same counts hold for the listed bank. |
| Engine.PageOf | app.py:200-234 | No contract; it is the page dispatch of lines 200, 230 and 234. `Engine.StartEffect`, `Engine.SubmitEffect` and `Engine.ResultsAbsorbing` state which page each button acts on. |
| Engine.Start | app.py:207-214 | No contract; `Engine.StartEffect` states its effect. |
| Engine.Grade | app.py:188-191 | Keeps a count for every category; `Engine.SubmitEffect` and `Engine.GradeKeepsTallyBound` state its effect. |
| Engine.Advance | app.py:192-196 | No contract; `Engine.SubmitEffect` and `Engine.AcceptedSubmitsAdvance` state its effect. |
| Engine.Submit | app.py:186-197 | Keeps a count for every category; `Engine.SubmitEffect` and `Engine.SubmitPreservesInv` state its effect. |
| Engine.ReEnter | app.py:271-273 | No contract; `Engine.ResultsAbsorbing` states its effect. |
| Engine.Initial | app.py:123-128 | The initial record has a count for every category and renders the landing page. |
| Engine.InitialState | app.py:123-128 | The initial record satisfies the session invariant and is not started. It is not complete, is at index 0 with zero score, zero correct and every tally zero, and has an empty name and no start time. |
| Engine.StartEffect | app.py:207-214 | An empty name, or a press off the landing page, changes nothing. Otherwise the record gets the name, `started` and the start time, moves to the quiz page, and keeps every counter. |
| Engine.SubmitEffect | app.py:186-197 | With no selection, or off the quiz page, nothing changes. Otherwise an exact match adds 10 times the difficulty to the score, and one to the correct count and to that category only; any other choice changes no count. Then the index moves on by one, or on the last question the quiz completes with the index kept at 25. |
| Engine.ResultsAbsorbing | app.py:234-273 | On the summary page only the re-entry button has an effect, and it restores the initial record. |
| Engine.GradeKeepsTallyBound | app.py:188-191 | Grading item k keeps each category's tally within the number of scorable items among the first k + 1, when a match is only possible on an answerable item. |
| Engine.SubmitPreservesInv | app.py:186-197 | A submission the widget can produce keeps the session invariant. That invariant covers the flags, page, name and clock, and has the tally summing to the correct count, score equal to 30 per correct answer, and each tally within its category's scorable items so far. |
| Engine.StepPreservesInv | app.py:186-273 | Every action the page can produce (start, submit, re-entry) keeps the invariant. |
| Engine.RunPreservesInv | app.py:186-273 | The invariant holds after any sequence of actions the page can produce. |
| Engine.InvBounds | app.py:141-197 | Under the invariant the four tallies sum to the correct count, which is at most the number answered, which is at most 26. The score is 30 per correct answer, at most 25 answers are correct, at most 5 are DS, and the score is at most 750. |
| Engine.AcceptedSubmitsAdvance | app.py:192-196 | From question i, j accepted submissions keep the quiz at question i + j while i + j < 26, and reach the summary exactly when i + j = 26. |
| Engine.ExactlyNToComplete | app.py:192-214 | After a named start, 25 accepted submissions leave the quiz running and the 26th completes it. |
| Engine.ReachableBounds | app.py:123-197 | Every session reached from the first run by actions the page can produce satisfies the invariant, with at most 25 correct answers and at most 5 DS answers. |
| Engine.FirstAnswerScenario | app.py:186-214 | Starting as "Ada" and answering the first question correctly gives score 30, one correct answer, question index 1 and one Tracing point. |
| Results.Accuracy | app.py:252 | No contract; `Results.AccuracyRange` states its value and range. |
| Results.Xp | app.py:253 | No contract; `Results.RowColumns` and `Results.CompletedResult` state XP as score plus accuracy. |
| Results.AchievedSkills | app.py:263 | No contract; `Results.AchievedSkillsExact` states which categories it lists and in what order. |
| Results.Join | app.py:263 | No contract; `Results.SplitJoin` and `Results.JoinSplit` relate it to splitting at commas. |
| Results.SkillsCsv | app.py:263 | No contract; `Results.SkillsCsvRoundTrip` states that it reads back to the achieved categories. |
| Results.MakeResult | app.py:251-265 | No contract; `Results.RowColumns` and `Results.CompletedResult` state its fields. |
| Results.ToRow | app.py:255-265 | No contract; `Results.RowColumns` states the column order, and `Results.FromRowToRow` and `Results.ToRowFromRow` its inverse. |
| Results.AccuracyRange | app.py:252 | Accuracy times 26 is 100 times the correct count. It is 0 exactly with no correct answer and 100 exactly with all 26, lies in [0, 100], and strictly grows with the correct count. |
| Results.Scoring | app.py:263 | The filtered list holds exactly the categories of the given list whose count is positive. |
| Results.ScoringAscending | app.py:263 | Filtering keeps the key order of the tally. |
| Results.AchievedSkillsExact | app.py:263 | The achieved list names exactly the categories with a positive count, each once, in the order Tracing, Debug, Concept, DS. It is empty exactly when all counts are zero. |
| Results.SplitJoin | app.py:263 | Splitting a comma-join of comma-free pieces at commas gives back the pieces. |
| Results.JoinSplit | app.py:263 | Joining the pieces of any split with commas gives back the text. |
| Results.SkillsCsvRoundTrip | app.py:263 | Reading the skills column back gives the achieved categories, and the column is empty exactly when no category scored. |
| Results.FromRowToRow | app.py:255-265 | Every result record survives being written as an eleven-cell row and read back. |
| Results.ToRowFromRow | app.py:255-265 | A row that reads back as a record is exactly that record's row. |
| Results.RowColumns | app.py:251-265 | The row has eleven cells in the fixed order: name, score, accuracy, time, the Debug, Tracing, Concept and DS counts, XP (score plus accuracy), the skills column and the timestamp. |
| Results.CompletedResult | app.py:251-265 | For a completed session the four counts sum to the correct count, at most 25 are correct and at most 5 are DS, and accuracy is below 100. XP is 30 per correct answer plus the accuracy. The skills column names exactly the scoring categories and is empty exactly when nothing was correct. |
| Leaderboard.Load | app.py:114-120 | No contract; `Leaderboard.PanelShowsTopFive` states that a failing store gives no rows. |
| Leaderboard.Head | app.py:222 | No contract; `Leaderboard.HeadIsTop` states its length, order and that it keeps the top rows. |
| Leaderboard.LeaderboardPanel | app.py:217-227 | No contract; `Leaderboard.PanelShowsTopFive` states what it shows. |
| Leaderboard.Insert | app.py:221 | Inserting into a list ordered by score keeps it ordered, adds exactly the one row, and starts the result with either the new row or the old first row. |
| Leaderboard.SortByScore | app.py:221 | The result is ordered by score, highest first, and is a permutation of the stored rows. |
| Leaderboard.HeadIsTop | app.py:222 | The first five of an ordered list are min(5, n) rows, still ordered, taken from the list, and no later row scores above any of them. |
| Leaderboard.PanelShowsTopFive | app.py:217-222 | The panel reports no data exactly when the store fails or is empty. Otherwise it shows min(5, n) cards, between 1 and 5, ordered by score, each a stored row, and no row left out scores above any card shown. |
| Leaderboard.ScoresIndependentOfTies | app.py:221 | Any two score orders of the same rows have the same score in every position, so the unspecified tie order can change the names shown but not the scores. |
| SessionState.QuizSession.constructor | app.py:123-128 | A new session store holds the initial record, served by the listed bank, and satisfies the invariant. |
| SessionState.QuizSession.Reinitialise | app.py:123-128 | Every field is set to its initial value. |
| SessionState.QuizSession.Initiate | app.py:207-214 | The fields change as `Engine.Start` prescribes, and the invariant is kept. |
| SessionState.QuizSession.GradeAnswer | app.py:188-191 | The fields change as `Engine.Grade` prescribes: an exact match adds the points and one to the correct count and the category, and anything else changes nothing. |
| SessionState.QuizSession.AdvanceQuestion | app.py:192-196 | The fields change as `Engine.Advance` prescribes: the next index, or on the last question complete and no longer started. |
| SessionState.QuizSession.Execute | app.py:186-197 | The fields change as `Engine.Submit` prescribes, and the invariant is kept. |
| SessionState.QuizSession.ReEntry | app.py:271-273 | The fields change as `Engine.ReEnter` prescribes (the initial record on the summary page, otherwise unchanged), and the invariant is kept. |

## Left out

- Rendering: the styling, the terminal-style question box, the progress bar,
  the timer display and the radar chart are not modelled. They only display
  state.
- The results-sheet connection is not modelled, because it is a network call
  into a foreign library. Saving a row is represented only by the row it
  would append (`Results.ToRow`).
- Reading the sheet is modelled as a `Leaderboard.Store` that either fails or
  yields rows. Every failure gives no rows.
- Leaderboard rows keep only the two columns the panel reads, `Name` and
  `Score`. The stored header names are not part of this model.
- The clock is not modelled. The start time, the elapsed whole seconds and
  the timestamp text are parameters, so `int(...)` truncation and
  `datetime.now()` formatting are not modelled. `st_autorefresh` is left out.
- Results.Accuracy: kept as the exact rational `correct / 26 * 100`. Python's
  `round(..., 2)` and float arithmetic are not modelled, so XP is exact too.
- The page saves its row again every time the summary page is redrawn. The
  model builds the record once and does not count saves.
- The `rank-1` highlight of a leaderboard card is not modelled. It tests the
  row's original position, not its rank.
- Leaderboard.SortByScore: it is one particular order by score. Pandas' sort
  is not stable, so the model claims no order among equal scores. Only the
  properties in `PanelShowsTopFive` and `ScoresIndependentOfTies` are stated.
- The "Identity Required." warning for an empty name is output only. The
  model keeps just the fact that the session is unchanged.
- Engine.ResultsAbsorbing: saving the row (app.py:255) has no error handling,
  so a failing sheet stops the summary page before the re-entry button at
  app.py:271 is drawn, and the session cannot be left. The model assumes the
  save succeeds and the button is always there.
- SessionState.QuizSession.ReEntry: deleting every key and reinstalling the
  initial values on the next page run is modelled as one assignment of the
  initial record.
- SessionState.QuizSession.Execute: it requires the selection to come from
  the radio widget, which offers only the current options. A submitted
  string outside them is not modelled.
