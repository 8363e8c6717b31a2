# Multiplication drill: a verified model of the game logic

The drill shows a multiplication problem, `num1 x num2 = ?`, and gives the
player a number of seconds to answer. The time depends on the current
streak of correct answers (10, 8, 6 or 5 seconds from a streak of 0, 5, 10
or 15 on). A correct answer extends the streak and raises the level's
record when it beats it. The record is saved in the browser's storage. A
wrong answer or a time-up ends the streak. After each graded answer a
feedback delay runs, and then the next problem comes. Problems are drawn at
random from the ranges of one of five levels. The draw retries up to 50
more times to avoid the four most recent problems. An options dialog pauses
the countdown and lets the player resume or change level. A keypad and the
answer field feed the answer text. Its length is capped at six characters,
and it is read with `trim` and `parseInt`.

The project has two layers:

- **Value layer.** `GameModel` holds the session as a value (`Session`,
  one field per module-level variable of the page). It has one function per
  function and event handler of the script, and a dispatcher `Step` over all
  events. `GameProperties` proves what the handlers promise about those
  functions:
  - one invariant that every event keeps;
  - the timer, time-up, pause and resume behaviour;
  - the outcomes of a submission;
  - problem generation;
  - the level resets;
  - that no record is ever lowered.

  The helper modules are:
  - `Config`: the constants;
  - `Tiers`: the streak-tier lookup;
  - `AnswerText`: `trim` and `parseInt`;
  - `Problems`: the retry loop and the history;
  - `Scores`: loading and saving the record.
- **Object layer.** `Quiz.Game` is the script itself: a class whose fields
  are the module-level variables, with one method per function and handler,
  updating those fields in place. Every method's postcondition gives the
  whole new `Session` of the object: for the script's functions and
  handlers it is the matching `GameModel` function of the old one, and for
  the small setters it is the old one with the fields they assign replaced.
  Every event handler is also proved to keep the invariant `Valid()`.

Scheduling is made explicit:

- A running countdown interval is the flag `timerRunning`; each of its ticks
  is the event `TimerTicked` / `Game.TimerCountdown`.
- A pending feedback timeout is the flag `feedbackPending`; its expiry is
  `FeedbackDelayExpired` / `Game.FeedbackTimeout`.
- `Math.random` is an oracle. The caller passes `draws`, the candidate pairs
  in the order the retry loop would draw them, all inside the level's ranges.

Three behaviours of the script are kept as written:

- When the feedback delay expires while the options dialog has paused the
  game, the next problem appears and the input is enabled, but no countdown
  starts (`FeedbackExpiredWhilePaused`).
- The validation messages ("enter an answer", "numbers only") do not
  schedule a feedback delay, so the next submission is evaluated at once
  (`SubmitInvalid`, `SubmitEmpty`).
- The feedback delay does not stop a graded problem from being graded
  again. After a correct answer, the player can open and close the options
  dialog during the delay, which restarts the old countdown and enables the
  input. Any edit of the field then cancels the pending delay
  (script.js:124-127, 360, 373), and submitting the same text grades the
  same problem correct a second time: the streak grows by two
  (`RegradeAfterDialog`).

The `GameModel` functions carry no contracts of their own. What they
compute is stated by the `Quiz.Game` methods that implement them and by the
lemmas below.

## Model

| member | source | states |
|---|---|---|
| Tiers.TierIndexBelow | script.js:189-193 | the backward scan stops at a row whose threshold is at most the streak, and every later row's threshold is above it; -1 when no row matches |
| Tiers.TimeForStreak | script.js:188-195 | the time allotted is always one of the table's times, between 5 and 10 seconds |
| Tiers.GetTimeForCurrentStreak | script.js:188-195 | the backward loop over the tier table returns the time of the highest tier whose threshold is at most the streak |
| Tiers.TierIndexUnique | script.js:189-193 | any row with the scan's two defining properties is the row the scan returns |
| Tiers.SomeTierMatches | script.js:9-14 | because the first tier's threshold is 0, a non-negative streak always matches a tier and the fallback is never used |
| Tiers.TimeForStreakTable | script.js:9-14 | the lookup is exactly: 10 s below a streak of 5, 8 s up to 9, 6 s up to 14, 5 s from 15 on |
| Tiers.TimeNeverIncreases | script.js:9-14 | a longer streak never gets more time |
| Tiers.TierExamples | script.js:188-195 | streak 2 gives 10 s, 5 gives 8 s, 7 gives 8 s, 15 gives 5 s |
| AnswerText.TrimStart | script.js:301 | removes exactly the leading white space: the result is a suffix, everything dropped is white space, and the result starts with none |
| AnswerText.TrimEnd | script.js:301 | removes exactly the trailing white space: the result is a prefix, everything dropped is white space, and the result ends with none |
| AnswerText.DigitRun | script.js:316 | the length of the maximal run of leading decimal digits |
| AnswerText.ParseInt | script.js:316-317 | `parseInt` gives a number exactly when, after leading white space and one optional sign, a digit follows; otherwise NaN (`None`) |
| AnswerText.ReadNumber | script.js:316 | the same condition for text with no leading white space |
| AnswerText.NatDecimal | script.js:316 | the decimal numeral of a natural number is non-empty and all digits |
| AnswerText.NatDecimalValue | script.js:316 | the digits of a numeral read back as the number |
| AnswerText.DigitRunOfDigits | script.js:316 | a digit string followed by a non-digit has a digit run of exactly its length |
| AnswerText.ParseIntOfDigits | script.js:316 | an optional `-` or `+` sign, digits, then a non-digit: the result is the signed value of the digits, and the rest is ignored |
| AnswerText.ParseIntOfDecimal | script.js:316 | the numeral of any integer followed by text that does not start with a digit parses back to that integer (round trip) |
| AnswerText.ReadDecimal | script.js:301-316 | the numeral of any integer, trimmed and parsed as the submit handler does, is that integer |
| AnswerText.ParseIntRejectsEmpty | script.js:316-317 | the empty text is NaN |
| AnswerText.ParseIntRejectsLetters | script.js:316-317 | "abc" is NaN |
| AnswerText.ParseIntRejectsLoneSign | script.js:316-317 | a lone minus sign is NaN |
| AnswerText.ParseIntNegative | script.js:316 | "-7" is -7 |
| AnswerText.ParseIntPlusIgnored | script.js:316 | a leading `+` is accepted and ignored: "+12" reads as "12", the value of its digits |
| Problems.ProductIsMultiplication | script.js:273 | the repeated-addition product equals `a * b` for all integers |
| Problems.AnswerIsProduct | script.js:273 | the stored answer of a problem is `num1 * num2` |
| Problems.DrawsFrom | script.js:249-268 | from attempt `i` on, the loop consumes draws up to the first one not in the history, or stops once the counter passes 50; all skipped draws were recent |
| Problems.DrawProblem | script.js:244-268 | the do-while loop makes between 1 and 51 attempts, returns the last draw, which lies in the level's ranges and is not recent unless all 51 draws were used, and every earlier draw was recent |
| Problems.FreshWhenAvailable | script.js:255-266 | when any of the 51 draws the loop may consume is not recent, the accepted problem is not recent |
| Problems.PushHistory | script.js:276-279 | the new pair is first, the old entries follow in order, and the length grows by one only below four |
| Problems.PushHistoryKeepsBounds | script.js:276-279 | the history never exceeds four entries, and its entries stay in the level's ranges |
| Scores.ZeroScores | script.js:114 | a record of five zeros |
| Scores.LoadedScores | script.js:98-115 | the stored array when it is an array of five entries, five zeros otherwise |
| Scores.StoredAfterLoad | script.js:107-111 | an invalid stored value is removed, a valid one kept |
| Scores.SaveThenLoad | script.js:98-121 | saving the loaded record and loading it again gives the same record |
| GameProperties.InitialKeepsInv | script.js:39-50 | the page's initial state, after `init`, satisfies the session invariant |
| GameProperties.HandleTimeUpKeepsInv | script.js:216-238 | time-up keeps the invariant |
| GameProperties.StartTimerKeepsInv | script.js:197-212 | starting the timer during play keeps the invariant |
| GameProperties.ResumeKeepsInv | script.js:163-176 | resuming keeps the invariant |
| GameProperties.GenerateKeepsInv | script.js:241-297 | a new problem restores the invariant, including the link between the current problem, the history and the answer |
| GameProperties.AskAgainKeepsInv | script.js:308-325 | a validation message keeps the invariant |
| GameProperties.GradeKeepsInv | script.js:327-352 | grading keeps the invariant, including streak at most the level's record |
| GameProperties.CheckAnswerKeepsInv | script.js:300-353 | a submission keeps the invariant |
| GameProperties.SubmitKeepsInv | script.js:308-352 | each branch of a submission past the guard keeps the invariant |
| GameProperties.TickKeepsInv | script.js:178-186 | a tick keeps the invariant |
| GameProperties.OpenOptionsKeepsInv | script.js:388 | opening the options dialog keeps the invariant |
| GameProperties.InitialLevelSelectKeepsInv | script.js:394-404 | entering a level keeps the invariant |
| GameProperties.ModalLevelSelectKeepsInv | script.js:406-417 | choosing a level in the dialog keeps the invariant |
| GameProperties.FeedbackExpiredKeepsInv | script.js:347-352 | the end of the feedback delay keeps the invariant |
| GameProperties.PressKeyKeepsInv | script.js:357-364 | a keypad button keeps the invariant |
| GameProperties.EditAnswerKeepsInv | script.js:366-377 | typing keeps the invariant |
| GameProperties.PressEnterKeepsInv | script.js:379-385 | the Enter key keeps the invariant |
| GameProperties.StepKeepsInv | script.js:357-417 | every event the page can deliver keeps the invariant: playing means a current problem at the head of the history with its product as answer, the time left lies within the allotted tier time, a running countdown has time left, outside play nothing is scheduled and the input is disabled, the history holds at most four problems of the current level, the answer has at most six characters, and the pause flag is set only while the dialog is open |
| GameProperties.StartTimerFresh | script.js:197-201 | a fresh start allots the tier time for the current streak and runs the countdown |
| GameProperties.StartTimerKeepsTime | script.js:202-211 | a restart without reset keeps the remaining time and runs the countdown, or handles time-up when no time is left |
| GameProperties.TickCountsDown | script.js:178-186 | each tick takes one second off; at zero the countdown stops and time-up runs |
| GameProperties.TimeUpGuard | script.js:217 | outside play, or with a time-up already shown, time-up changes nothing |
| GameProperties.TimeUpEffect | script.js:219-237 | otherwise it stops the timer, clears the pause, disables the input, shows time-up, ends the streak and schedules the feedback delay, and changes nothing else |
| GameProperties.TimeUpOnce | script.js:217 | time-up is idempotent: a second one changes nothing |
| GameProperties.PauseThenResume | script.js:156-176 | opening and closing the dialog with time left resumes where the countdown was, with the same streak and feedback |
| GameProperties.ResumeAtZero | script.js:171-174 | resuming with no time left is a time-up |
| GameProperties.ResumeGuard | script.js:164 | resume does nothing unless the dialog paused the game during play |
| GameProperties.SameLevelOnlyResumes | script.js:414-416 | choosing the current level in the dialog only closes it and resumes |
| GameProperties.GenerateOnlyWhilePlaying | script.js:242 | outside play no problem is generated |
| GameProperties.GenerateProblem | script.js:249-289 | the new problem is within the level's ranges, its answer is the product, it is not recent unless the draws ran out, it heads the history, and the answer text and feedback are cleared and the input enabled |
| GameProperties.GenerateStartsTimer | script.js:290-291 | unless paused, the new problem gets a fresh countdown for the current streak |
| GameProperties.FeedbackExpiredWhilePaused | script.js:290-295 | a problem generated while the dialog pauses the game enables the input but starts no countdown, and the old remaining time stays |
| GameProperties.InitialLevelResets | script.js:394-404 | entering a level gives streak 0, no pause, a one-problem history within the level, and a fresh 10-second countdown; records are untouched |
| GameProperties.LevelChangeResets | script.js:408-413 | choosing another level in the dialog is the same fresh start, with the dialog closed |
| GameProperties.SubmitIgnored | script.js:302 | while a feedback delay is pending or no time is left, a submission changes nothing |
| GameProperties.SubmitInvalid | script.js:316-325 | non-numeric text shows the info message, clears the field, resumes the countdown where it was and schedules no feedback delay; streak, records, problem and times are unchanged |
| GameProperties.SubmitEmpty | script.js:308-315 | empty text shows the info message, keeps the field, resumes the countdown and schedules no feedback delay |
| GameProperties.AskAgainEffect | script.js:308-325 | a validation message with time left changes only the label, the running flag, the input state and, for non-numeric text, the field |
| GameProperties.SubmitCorrect | script.js:327-336 | a correct answer extends the streak by one, raises and persists the level's record exactly when it is beaten, leaves other levels alone, and schedules the feedback delay with the input disabled |
| GameProperties.SubmitWrong | script.js:337-342 | a wrong answer ends the streak, keeps every record and the stored copy, and schedules the feedback delay |
| GameProperties.CorrectThenNext | script.js:327-352 | after a correct answer and the delay, the next problem's countdown is the tier time for the longer streak |
| GameProperties.CorrectLeavesProblem | script.js:327-352 | a correct answer leaves the problem, its answer, the field's text, the time left, the dialog and the game state as they were |
| GameProperties.GradeLeavesProblem | script.js:327-342 | grading, correct or wrong, leaves the problem, its answer, the field's text, the time left, the dialog and the game state as they were |
| GameProperties.DialogDuringDelay | script.js:388-390 | opening and closing the dialog during the feedback delay, then editing the field, cancels the delay, clears the feedback, runs the countdown and enables the input, and changes nothing else |
| GameProperties.RegradeAfterDialog | script.js:300-353 | after a correct answer, the dialog and an edit that leaves the same text, the same problem is graded correct again and the streak has grown by two |
| GameProperties.FifthCorrectAnswer | script.js:9-14 | typing the answer's numeral at streak 4 gives streak 5 and an 8-second next question |
| GameProperties.TimerLeavesScores | script.js:149-238 | the timer functions and time-up leave the records and storage alone |
| GameProperties.GenerateLeavesScores | script.js:241-297 | problem generation leaves the records and storage alone |
| GameProperties.GradeKeepsRecords | script.js:327-342 | grading never lowers a record, changes at most the current level's, and persists any change |
| GameProperties.CheckAnswerKeepsRecords | script.js:300-353 | the same for a whole submission |
| GameProperties.UnchangedScoresKeepRecords | script.js:117-121 | unchanged records are kept records |
| GameProperties.StepKeepsRecords | script.js:300-417 | no event lowers a record, only the current level's record can change, and a changed record is persisted |
| GameProperties.OtherStepsLeaveScores | script.js:357-417 | every event other than a submission leaves the records and the stored copy as they were |
| GameProperties.ScreenStepsLeaveScores | script.js:387-417 | the screen and dialog buttons leave the records and storage alone |
| GameProperties.CallbackStepsLeaveScores | script.js:178-186 | the countdown tick and the end of the feedback delay leave the records and storage alone |
| GameProperties.LevelEntryLeavesScores | script.js:394-404 | entering a level with a well-formed record leaves the records and storage alone |
| GameProperties.LevelChangeLeavesScores | script.js:406-417 | choosing a level in the dialog leaves the records and storage alone |
| Quiz.Game.constructor | script.js:39-50 | the page's globals start as declared; then `init` loads the scores, shows the start screen and disables the input, reaching the invariant |
| Quiz.Game.DisableInput | script.js:134-138 | only the input becomes disabled |
| Quiz.Game.EnableInput | script.js:140-144 | only the input becomes enabled |
| Quiz.Game.ResetFeedbackAndStyle | script.js:123-131 | the pending feedback delay is cancelled and the label cleared |
| Quiz.Game.LoadHighScores | script.js:98-115 | the record becomes the stored array when valid; otherwise the stored value is removed and the record reset to zeros |
| Quiz.Game.ReloadMalformedScores | script.js:400 | the scores are reloaded exactly when the record does not have five entries |
| Quiz.Game.SaveLevelHighScore | script.js:117-121 | the whole record is stored when the level is valid |
| Quiz.Game.StopQuestionTimer | script.js:149-154 | only the countdown is cancelled |
| Quiz.Game.PauseQuestionTimer | script.js:156-161 | the pause flag is set, the countdown cancelled and the input disabled |
| Quiz.Game.ResumeQuestionTimer | script.js:163-176 | the state after `resumeQuestionTimer`, as `GameModel.Resume` gives it |
| Quiz.Game.StartQuestionTimer | script.js:197-212 | the state after `startQuestionTimer`, as `GameModel.StartTimer` gives it |
| Quiz.Game.TimerCountdown | script.js:178-186 | one tick, keeping the invariant |
| Quiz.Game.HandleTimeUp | script.js:216-238 | the state after `handleTimeUp`, guard included |
| Quiz.Game.GenerateNewProblem | script.js:241-297 | the retry loop, then the new problem, only while playing |
| Quiz.Game.PresentProblem | script.js:270-295 | the accepted pair becomes the current problem; field, feedback, input and timer are set up |
| Quiz.Game.SetProblem | script.js:271-279 | the factors, the answer and the history are updated |
| Quiz.Game.RememberProblem | script.js:276-279 | `unshift` then at most one `pop` |
| Quiz.Game.ClearInput | script.js:284-286 | field and feedback cleared, input enabled |
| Quiz.Game.CheckAnswer | script.js:300-353 | the guard, then the empty, non-numeric and graded outcomes |
| Quiz.Game.AskAgain | script.js:308-325 | the validation-message branches |
| Quiz.Game.Grade | script.js:327-352 | the correct and wrong branches, with the record update and the feedback delay |
| Quiz.Game.RaiseRecord | script.js:334 | the level's record becomes the streak |
| Quiz.Game.ShowFeedback | script.js:310 | only the feedback label's style changes |
| Quiz.Game.SetStreak | script.js:332 | only the streak changes |
| Quiz.Game.ClearAnswer | script.js:322 | only the answer field is emptied |
| Quiz.Game.SetAnswer | script.js:361-362 | only the answer field's text changes |
| Quiz.Game.StartFeedbackDelay | script.js:346-347 | only the feedback delay becomes pending |
| Quiz.Game.ClearFeedbackDelay | script.js:348 | only the pending feedback delay is cleared |
| Quiz.Game.FeedbackTimeout | script.js:347-352 | the delay expires; the next problem comes while playing; the invariant is kept |
| Quiz.Game.StartButtonClicked | script.js:387 | the start button leads to level selection, keeping the invariant |
| Quiz.Game.HandleInitialLevelSelect | script.js:394-404 | the level-entry resets, the score check and a new problem, keeping the invariant |
| Quiz.Game.SetGameState | script.js:396 | only the game state changes |
| Quiz.Game.CloseDialog | script.js:407 | only the dialog is hidden |
| Quiz.Game.EnterLevel | script.js:395-399 | level, streak, pause flag and history are reset |
| Quiz.Game.OptionsButtonClicked | script.js:388 | during play, pause and open the dialog, keeping the invariant |
| Quiz.Game.CloseOptionsClicked | script.js:389-390 | close the dialog and resume, keeping the invariant |
| Quiz.Game.HandleModalLevelSelect | script.js:406-417 | a different level restarts with a new problem, the same level resumes; the invariant is kept |
| Quiz.Game.KeypadClicked | script.js:357-364 | digits are appended up to six characters, backspace removes the last one, OK submits; ignored while the input is disabled; the invariant is kept |
| Quiz.Game.AnswerInput | script.js:366-377 | the typed text replaces the field, cut to six characters, feedback cleared; ignored while disabled; the invariant is kept |
| Quiz.Game.AnswerEnterPressed | script.js:379-385 | Enter submits during play while the input is enabled; the invariant is kept |

## Left out

- The page's DOM is not modelled: screens, labels, texts, CSS classes other than the feedback label's style, the timer bar and its percentage, the score labels and the level buttons. Only the label's style class is modelled (`Feedback`), since time-up's guard reads it.
- Console logging and input focus are not modelled. They have no effect on the game state.
- Touch-device detection is not modelled. The model is the non-touch page, where the answer field is never read-only, so the read-only branch of the input handler (script.js:367-371) is left out.
- Timers are not modelled as real time. The interval and the timeout are flags, and their callbacks are events. The 1000 ms delay and tick constants therefore do not appear, and neither does the order in which the browser would interleave callbacks.
- `Math.random` and `randomInRange` are not modelled: the draws are an oracle parameter, required to lie in the level's ranges.
- The stored record is modelled as `Option<seq<int>>`. A missing key, unparsable JSON and a non-array are all `None`. The JSON text, and arrays of five entries that are not numbers, are not modelled.
- The answer's length is counted in characters, not in UTF-16 code units.
- `Problems.Answer` is written as repeated addition, so that the session proofs face no nonlinear arithmetic. `Problems.ProductIsMultiplication` proves that it equals `num1 * num2`. JavaScript's floating-point numbers are not modelled: all the products here are small integers.
- Events are delivered only when the page can deliver them (`GameModel.Enabled`). The start button works only on the start screen, a level button only on its own screen or in the open dialog, a tick only while the countdown runs, and the delay expiry only while it is pending. Keypad digit buttons carry a digit.
- Storage calls are taken not to throw. `localStorage.getItem` (script.js:99) sits outside the `try`, and `setItem` in `saveLevelHighScore` (script.js:119) is not caught. A throw at script.js:335 would end `checkAnswer` after the record was raised but before the feedback delay is scheduled. The model does not capture that path.
- Level buttons beyond the five levels, and keypad buttons with other keys, are not modelled.
