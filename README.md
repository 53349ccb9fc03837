# Test-system pages, modelled in Dafny

This project models the decision logic of two pages of a small browser-based
test-taking application, with the rendering, routing and browser storage
taken away.

- **The test-taking page** (`TestTaking`) is one respondent's session over a
  fixed list of questions. Its state is the index of the question on screen,
  the answers by question id, the seconds left (starting at 3600) and a
  finished flag. A countdown tick, next/previous navigation with clamping,
  and three answer handlers change that state: single choice, multiple-choice
  check/uncheck, and number text. The page also renders an `HH:MM:SS` clock,
  a progress bar, a finish button on the last question, and a warning under
  five minutes. Answers are a tagged datatype: `Single(choice)`,
  `Multi(selected)` or `Num(raw)`.
- **The administrator's catalogue** (`AdminPanel`) is a list of tests plus a
  draft form. Creating a test appends a record made from the draft. Its id is
  `test-` followed by its 1-based position, zero-padded to at least three
  digits. The form is then reset. Adding a question appends a blank
  single-choice question to the draft.
- **Decimal text** (`Decimal`) models JavaScript's `String(n)` and
  `padStart`, along with reading a digit string back into its number. Both
  the clock and the ids are built from these.

Each page's state is a class (`TestTaking.Session`, `AdminPanel.Catalogue`).
Its handlers are methods whose postconditions state the whole new state. Their
partner is the class invariant `Valid()`, which every handler keeps. The
pure helpers are functions. The clock, the ids and the multiple-choice
filter are each proved against a partner:

- the clock display against a parser that reads it back (round trip);
- the ids against the number their digits denote (injectivity, hence
  distinct ids);
- the multiple-choice filter against multisets and concatenation (what is
  removed and that order is kept).

`NextIndex`, `PreviousIndex`, `Progress` and `ShowsLowTimeWarning` have no
separate partner. Their contracts state their properties directly: the range,
the clamping, the bounds and the reading of the clock.

Behaviour one might expect but the code lacks:

- No handler checks the finished flag. Once it is set, the page only hides
  its controls.
- `handleFinish` does not stop the countdown.
- Checking an option appends it without looking for an earlier copy. Checking
  twice records it twice (`CheckTwiceDuplicates`).

The countdown is modelled as one method call per second. `Session.Valid()`
requires a session whose clock reads 0 to be finished, and `Session.Tick`
ensures that a tick at 0 changes nothing. So the model does not need to know
that the source stops the interval there.

## Model

| member | source | states |
|---|---|---|
| `Decimal.NatToString` | src/pages/AdminPanel.tsx:54 | `String(n)` of a whole number is a non-empty digit string with no leading zero unless n is 0 |
| `Decimal.NatToStringValue` | src/pages/AdminPanel.tsx:54 | the digits of `String(n)` denote n again |
| `Decimal.PadStart` | src/pages/TestTaking.tsx:73 | `padStart(width, c)`: length is the larger of width and the input's length, the input is kept as the suffix, and every added character is c |
| `Decimal.LeadingZeros` | src/pages/TestTaking.tsx:73 | zeros put in front of a digit string do not change the number it denotes |
| `Decimal.ZeroPaddedValue` | src/pages/AdminPanel.tsx:54 | zero-padding a number's decimal form to any width keeps it a digit string denoting the same number |
| `Decimal.TwoDigitsBelowHundred` | src/pages/TestTaking.tsx:73 | a number below 100, padded to two, is exactly two characters |
| `TestTaking.Pad2` | src/pages/TestTaking.tsx:73 | a clock field padded to two is at least two characters, and exactly two below 100 |
| `TestTaking.FormatTime` | src/pages/TestTaking.tsx:69-74 | the display is at least 8 characters and exactly 8 below 100 hours, with ':' at the two fixed separator positions |
| `TestTaking.ClockFields` | src/pages/TestTaking.tsx:70-72 | minutes and seconds are below 60, and h*3600 + m*60 + s gives back the seconds |
| `TestTaking.ParseJoined` | src/pages/TestTaking.tsx:73 | a display joined from an hours field of two or more digits and two-digit minutes and seconds below 60 reads back as those three fields |
| `TestTaking.FormatTimeRoundTrip` | src/pages/TestTaking.tsx:69-74 | for every whole number of seconds, reading the display back gives those seconds |
| `TestTaking.FormatTimeInjective` | src/pages/TestTaking.tsx:69-74 | two different times never show the same display |
| `TestTaking.FormatOneHour` | src/pages/TestTaking.tsx:45 | the starting clock of 3600 seconds shows "01:00:00" |
| `TestTaking.ShowsLowTimeWarning` | src/pages/TestTaking.tsx:151-152 | the warning shows exactly when the display reads zero hours and fewer than 5 minutes |
| `TestTaking.NextIndex` | src/pages/TestTaking.tsx:96-100 | the next index stays in range, stays put exactly at the last question, and otherwise is one more |
| `TestTaking.PreviousIndex` | src/pages/TestTaking.tsx:102-106 | the previous index stays in range, stays put exactly at the first question, and otherwise is one less |
| `TestTaking.PreviousThenNext` | src/pages/TestTaking.tsx:96-106 | away from the first question, going back and then on returns to the same question |
| `TestTaking.Progress` | src/pages/TestTaking.tsx:112 | the progress percentage lies in (0, 100] and is 100 exactly on the last question |
| `TestTaking.ProgressIncreases` | src/pages/TestTaking.tsx:112 | a later question always shows more progress |
| `TestTaking.RemoveAll` | src/pages/TestTaking.tsx:87 | filtering out an option leaves no copy of it, and every other option keeps its number of copies |
| `TestTaking.RemoveAllConcat` | src/pages/TestTaking.tsx:87 | filtering a concatenation filters each part in turn, so the kept options keep their relative order |
| `TestTaking.RemoveAllAbsent` | src/pages/TestTaking.tsx:87 | filtering out an option that is not there leaves the list unchanged |
| `TestTaking.Toggled` | src/pages/TestTaking.tsx:80-90 | checking appends the option at the end, so the list grows by exactly one and keeps its prefix; unchecking removes every copy and keeps the count of every other option |
| `TestTaking.CheckThenUncheck` | src/pages/TestTaking.tsx:80-90 | checking an option that was not checked, then unchecking it, restores the list |
| `TestTaking.CheckTwiceDuplicates` | src/pages/TestTaking.tsx:83 | checking twice records the option twice: no de-duplication |
| `TestTaking.Session.constructor` | src/pages/TestTaking.tsx:43-46 | a session starts on the first question with no answers, 3600 seconds, and not finished |
| `TestTaking.Session.OffersFinish` | src/pages/TestTaking.tsx:240-250 | the finish button replaces the next button exactly where next would do nothing, that is on the last question |
| `TestTaking.Session.Tick` | src/pages/TestTaking.tsx:55-64 | above one second the clock loses one; at one or less it drops to 0 and the session finishes; at 0 nothing changes; the clock never rises, the flag is never cleared, and the warning once shown stays |
| `TestTaking.Session.TickFor` | src/pages/TestTaking.tsx:55-64 | after n ticks the clock is the old time minus n, floored at 0; the session is finished exactly when it was already, or when at least one tick came and n reached the old time |
| `TestTaking.HourRunsOut` | src/pages/TestTaking.tsx:45-64 | from a fresh, unfinished clock, 3600 ticks leave 0 seconds and a finished session, whatever question is on screen; question and answers are untouched |
| `TestTaking.Session.HandleSingleChoice` | src/pages/TestTaking.tsx:76-78 | the current question's answer becomes exactly the chosen value, replacing any earlier one; all other ids keep their answers |
| `TestTaking.Session.HandleMultipleChoice` | src/pages/TestTaking.tsx:80-90 | the current question's list becomes its earlier list (empty if none) toggled by the option; all other ids keep their answers |
| `TestTaking.Session.HandleNumberInput` | src/pages/TestTaking.tsx:92-94 | the current question's answer becomes exactly the raw text; all other ids keep their answers |
| `TestTaking.Session.HandleNext` | src/pages/TestTaking.tsx:96-100 | the index moves on as `NextIndex` says and stays in range; nothing else changes |
| `TestTaking.Session.HandlePrevious` | src/pages/TestTaking.tsx:102-106 | the index moves back as `PreviousIndex` says and stays in range; nothing else changes |
| `TestTaking.AnswerFirstTwo` | src/pages/TestTaking.tsx:21-39 | on the page's own questions, answering the first, moving on and checking, unchecking and re-checking options on the second leaves exactly those two answers, in check order, on question 2 |
| `TestTaking.WalkMockQuestions` | src/pages/TestTaking.tsx:21-39 | a full pass over the page's own three questions ends on the last one with the finish button offered, the three answers recorded by id, the session finished and the clock untouched |
| `TestTaking.Session.HandleFinish` | src/pages/TestTaking.tsx:108-110 | the finished flag is set and nothing else changes, so the countdown keeps its state |
| `AdminPanel.TestId` | src/pages/AdminPanel.tsx:54 | the id starts with "test-" and is at least 8 characters, since the number is padded to three digits |
| `AdminPanel.TestIdDigits` | src/pages/AdminPanel.tsx:54 | the characters after "test-" are digits that denote the position |
| `AdminPanel.TestIdInjective` | src/pages/AdminPanel.tsx:54 | different positions never share an id |
| `AdminPanel.TestIdExamples` | src/pages/AdminPanel.tsx:28 | position 1 gives the seed id "test-001", 42 gives "test-042", and 1000 gives "test-1000" with nothing cut off |
| `AdminPanel.SeedWellNumbered` | src/pages/AdminPanel.tsx:26-35 | the seed test's id "test-001" is the id of position 1 |
| `AdminPanel.AppendWellNumbered` | src/pages/AdminPanel.tsx:54-61 | appending a test whose id is that of the next position keeps every id equal to its position's id |
| `AdminPanel.DistinctIds` | src/pages/AdminPanel.tsx:54-61 | when every id encodes its position, no two tests share an id |
| `AdminPanel.Catalogue.constructor` | src/pages/AdminPanel.tsx:26-43 | the catalogue starts with the seed test, numbered as position 1, and the empty form |
| `AdminPanel.Catalogue.QuestionCount` | src/pages/AdminPanel.tsx:181 | the displayed question count is the draft's number of questions, never zero |
| `AdminPanel.Catalogue.EditTitle` | src/pages/AdminPanel.tsx:165 | only the draft's title changes |
| `AdminPanel.Catalogue.EditDuration` | src/pages/AdminPanel.tsx:175 | only the draft's duration changes |
| `AdminPanel.Catalogue.EditStartDate` | src/pages/AdminPanel.tsx:190 | only the draft's start date changes |
| `AdminPanel.Catalogue.EditEndDate` | src/pages/AdminPanel.tsx:200 | only the draft's end date changes |
| `AdminPanel.Catalogue.AddQuestion` | src/pages/AdminPanel.tsx:45-50 | exactly one blank single-choice question with four empty options is appended; the other draft fields and the tests are untouched |
| `AdminPanel.Catalogue.CreateTest` | src/pages/AdminPanel.tsx:52-69 | one test is appended at the end, with earlier tests unchanged. It takes the draft's title, duration and dates, has 0 students, and its id encodes its position. The form is reset to the empty one, and all ids stay distinct |

## Left out

- The access-key check when the test page mounts (src/pages/TestTaking.tsx:49-53) is left out. Without a stored key it redirects to the login page. The model's session stands for a mount that found a key. src/pages/Login.tsx is not part of this model.
- Timer scheduling is left out: `setInterval`, `clearInterval` and the effect cleanup on unmount. One tick is one call of `Session.Tick`; real time is not modelled.
- `TestTaking.Session.HandleMultipleChoice`: if the earlier value for the question is not a list, the model treats it as no selection. The page never records such a value for a multiple-choice question. For a non-empty string, JavaScript would instead spread its characters into the list when checking. When unchecking, it would throw a TypeError, because a string has no `filter` (src/pages/TestTaking.tsx:87).
- `TestTaking.FormatTime`: the source takes a JavaScript number. Only whole, non-negative seconds are modelled, which are the only values the clock holds.
- `Math.round` of the progress percentage (src/pages/TestTaking.tsx:164) is floating-point rounding. The model keeps the exact real.
- `parseInt` on the duration input (src/pages/AdminPanel.tsx:175) can give NaN. The model takes the duration as an integer from the caller.
- The draft's question-type select, question text and option inputs (src/pages/AdminPanel.tsx:226-252) are not wired to state, so they change nothing. The students tab (src/pages/AdminPanel.tsx:270-303) is fixed markup.
- Screenshot and copy deterrence (src/components/ProtectedContent.tsx) is left out. It registers and removes browser event listeners and has no data contract.
- All rendering, styling, icons and navigation calls are left out.
