/**
 * What the handlers of the drill promise, proved about the session model:
 * the invariant every event keeps, the time-up guard, the timer bounds,
 * pause and resume, rejected and accepted submissions, high-score
 * monotonicity, problem generation and the level resets.
 */
module GameProperties {
  import opened Wrappers
  import opened Config
  import opened Tiers
  import opened AnswerText
  import opened Problems
  import opened GameModel

  // ---------------------------------------------------------------------------
  // The invariant

  lemma InitialKeepsInv(stored: Option<seq<int>>)
    ensures Inv(Initial(stored))
  {
    assert IsTierTime(TIME_PER_STREAK[0].time);
  }

  lemma HandleTimeUpKeepsInv(s: Session)
    requires Inv(s)
    ensures Inv(HandleTimeUp(s))
  {
  }

  lemma StartTimerKeepsInv(s: Session, resetTime: bool)
    requires Inv(s) && s.state == Playing && !s.timerWasPaused
    ensures Inv(StartTimer(s, resetTime))
  {
  }

  lemma ResumeKeepsInv(s: Session)
    requires Consistent(s)
    ensures Inv(Resume(s))
  {
  }

  lemma GenerateKeepsInv(s: Session, draws: seq<Pair>)
    requires Core(s) && (s.timerWasPaused ==> s.optionsOpen) && ValidDraws(s.level, draws)
    ensures Inv(GenerateNewProblem(s, draws))
  {
    if s.state == Playing {
      var p := draws[DrawCount(s.history, draws) - 1];
      PushHistoryKeepsBounds(s.level, s.history, p);
    }
  }

  lemma AskAgainKeepsInv(t: Session, clearAnswer: bool)
    requires Inv(t) && t.state == Playing && !t.timerWasPaused
    ensures Inv(AskAgain(t, clearAnswer))
  {
    StartTimerKeepsInv(t.(feedback := Info), false);
  }

  lemma GradeKeepsInv(t: Session, v: int)
    requires Inv(t) && t.state == Playing
    ensures Inv(Grade(t, v))
  {
    if v == t.correctAnswer {
      var u := t.(feedback := Correct).(streak := t.streak + 1);
      if u.streak > u.highScores[u.level] {
        RaiseRecordKeepsInv(u);
      } else {
        assert Inv(u);
      }
    }
  }

  /** Beating the record: the streak becomes the record, which keeps the invariant. */
  lemma RaiseRecordKeepsInv(u: Session)
    requires Inv(u.(streak := 0)) && u.state == Playing && u.streak > u.highScores[u.level]
    ensures Inv(SaveLevelHighScore(RaiseRecord(u)).(feedbackPending := true))
  {
  }

  lemma CheckAnswerKeepsInv(s: Session)
    requires Inv(s) && s.state == Playing
    ensures Inv(CheckAnswer(s))
  {
    if !(s.feedbackPending || s.remaining <= 0) {
      var t := s.(timerRunning := false, timerWasPaused := false, inputEnabled := false);
      assert Inv(t);
      SubmitKeepsInv(t, Trim(s.answer));
    }
  }

  lemma SubmitKeepsInv(t: Session, text: string)
    requires Inv(t) && t.state == Playing && !t.timerWasPaused
    ensures Inv(Submit(t, text))
  {
    if text == "" {
      AskAgainKeepsInv(t, false);
    } else if ParseInt(text).None? {
      AskAgainKeepsInv(t, true);
    } else {
      GradeKeepsInv(t, ParseInt(text).value);
    }
  }

  lemma TickKeepsInv(s: Session)
    requires Inv(s) && s.timerRunning
    ensures Inv(Tick(s))
  {
  }

  lemma OpenOptionsKeepsInv(s: Session)
    requires Inv(s)
    ensures Inv(OpenOptions(s))
  {
  }

  lemma InitialLevelSelectKeepsInv(s: Session, level: nat, draws: seq<Pair>)
    requires Inv(s) && s.state == LevelSelect && ValidDraws(level, draws)
    ensures Inv(InitialLevelSelect(s, level, draws))
  {
    GenerateKeepsInv(CheckScores(EnterLevel(s, level).(state := Playing)), draws);
  }

  lemma ModalLevelSelectKeepsInv(s: Session, level: nat, draws: seq<Pair>)
    requires Inv(s) && s.optionsOpen && ValidDraws(level, draws)
    ensures Inv(ModalLevelSelect(s, level, draws))
  {
    if level != s.level {
      GenerateKeepsInv(EnterLevel(s.(optionsOpen := false), level), draws);
    } else {
      ResumeKeepsInv(s.(optionsOpen := false));
    }
  }

  lemma FeedbackExpiredKeepsInv(s: Session, draws: seq<Pair>)
    requires Inv(s) && s.feedbackPending && ValidDraws(s.level, draws)
    ensures Inv(FeedbackExpired(s, draws))
  {
    GenerateKeepsInv(s.(feedbackPending := false), draws);
  }

  lemma PressKeyKeepsInv(s: Session, key: Key)
    requires Inv(s)
    ensures Inv(PressKey(s, key))
  {
    if key.Ok? && s.inputEnabled {
      CheckAnswerKeepsInv(s);
    }
  }

  lemma EditAnswerKeepsInv(s: Session, value: string)
    requires Inv(s)
    ensures Inv(EditAnswer(s, value))
  {
  }

  lemma PressEnterKeepsInv(s: Session)
    requires Inv(s)
    ensures Inv(PressEnter(s))
  {
    if s.inputEnabled && s.state == Playing {
      CheckAnswerKeepsInv(s);
    }
  }

  /** Every event the page can deliver keeps the invariant. */
  lemma StepKeepsInv(s: Session, e: Event)
    requires Inv(s) && Enabled(s, e)
    ensures Inv(Step(s, e))
  {
    match e
    case StartClicked =>
    case InitialLevelChosen(level, draws) => InitialLevelSelectKeepsInv(s, level, draws);
    case OptionsClicked => OpenOptionsKeepsInv(s);
    case OptionsClosed => ResumeKeepsInv(s.(optionsOpen := false));
    case ModalLevelChosen(level, draws) => ModalLevelSelectKeepsInv(s, level, draws);
    case TimerTicked => TickKeepsInv(s);
    case FeedbackDelayExpired(draws) => FeedbackExpiredKeepsInv(s, draws);
    case KeyPressed(key) => PressKeyKeepsInv(s, key);
    case AnswerEdited(value) => EditAnswerKeepsInv(s, value);
    case EnterPressed => PressEnterKeepsInv(s);
  }

  // ---------------------------------------------------------------------------
  // Timer

  /** A fresh start allots the tier time for the current streak and runs the countdown. */
  lemma StartTimerFresh(s: Session)
    ensures var r := StartTimer(s, true);
      && r.questionTime == TimeForStreak(s.streak) && r.remaining == r.questionTime
      && r.timerRunning && r.streak == s.streak && r.feedback == s.feedback
  {
  }

  /**
   * A restart without reset keeps the remaining time (clamped at zero) and the
   * allotted time; with no time left it handles time-up instead of running.
   */
  lemma StartTimerKeepsTime(s: Session)
    ensures var r := StartTimer(s, false);
      && (s.remaining > 0 ==> r == s.(timerRunning := true))
      && (s.remaining <= 0 ==> r == HandleTimeUp(s.(timerRunning := false, remaining := 0)))
  {
  }

  /** Each tick takes exactly one second; the countdown stops, and time-up runs, at zero. */
  lemma TickCountsDown(s: Session)
    requires Inv(s) && s.timerRunning
    ensures var r := Tick(s);
      && r.remaining == s.remaining - 1 && 0 <= r.remaining < r.questionTime
      && r.questionTime == s.questionTime
      && (r.remaining > 0 ==> r == s.(remaining := s.remaining - 1))
      && (r.remaining == 0 ==> r == HandleTimeUp(s.(remaining := 0, timerRunning := false)))
  {
  }

  // ---------------------------------------------------------------------------
  // Time-up

  /** Outside play, or with a time-up already shown, time-up changes nothing. */
  lemma TimeUpGuard(s: Session)
    requires s.state != Playing || s.feedback == TimeUp
    ensures HandleTimeUp(s) == s
  {
  }

  /** Otherwise it ends the streak, stops the timer, clears the pause and leaves one feedback delay pending. */
  lemma TimeUpEffect(s: Session)
    requires s.state == Playing && s.feedback != TimeUp
    ensures var r := HandleTimeUp(s);
      && r.streak == 0 && !r.timerRunning && !r.timerWasPaused && !r.inputEnabled
      && r.feedbackPending && r.feedback == TimeUp
      && r == s.(streak := 0, timerRunning := false, timerWasPaused := false, inputEnabled := false,
                 feedbackPending := true, feedback := TimeUp)
  {
  }

  /** Time-up cannot fire twice for one question. */
  lemma TimeUpOnce(s: Session)
    ensures HandleTimeUp(HandleTimeUp(s)) == HandleTimeUp(s)
  {
  }

  // ---------------------------------------------------------------------------
  // Pause and resume

  /** Opening and closing the options dialog with time left resumes exactly where the countdown was. */
  lemma PauseThenResume(s: Session)
    requires Inv(s) && s.state == Playing && s.remaining > 0
    ensures var r := CloseOptions(OpenOptions(s));
      && r.remaining == s.remaining && r.questionTime == s.questionTime
      && r.timerRunning && r.inputEnabled && !r.timerWasPaused && !r.optionsOpen
      && r.streak == s.streak && r.feedback == s.feedback && r.feedbackPending == s.feedbackPending
  {
  }

  /** Resuming with no time left is the same as a natural time-up. */
  lemma ResumeAtZero(s: Session)
    requires s.timerWasPaused && s.state == Playing && s.remaining == 0
    ensures Resume(s) == HandleTimeUp(s.(timerWasPaused := false))
  {
  }

  /** Resume does nothing unless a pause is in effect during play. */
  lemma ResumeGuard(s: Session)
    requires !(s.timerWasPaused && s.state == Playing)
    ensures Resume(s) == s
  {
  }

  /** Choosing the current level in the dialog only resumes. */
  lemma SameLevelOnlyResumes(s: Session, draws: seq<Pair>)
    requires MAX_DRAWS <= |draws|
    ensures ModalLevelSelect(s, s.level, draws) == Resume(s.(optionsOpen := false))
  {
  }

  // ---------------------------------------------------------------------------
  // Problem generation

  /** Outside play no problem is generated. */
  lemma GenerateOnlyWhilePlaying(s: Session, draws: seq<Pair>)
    requires MAX_DRAWS <= |draws| && s.state != Playing
    ensures GenerateNewProblem(s, draws) == s
  {
  }

  /**
   * The new problem's factors lie in the level's ranges and its answer is
   * their product; it is not a recent problem unless all draws were used;
   * the history is the new pair followed by the old entries, at most four.
   */
  lemma GenerateProblem(s: Session, draws: seq<Pair>)
    requires Core(s) && s.state == Playing && ValidDraws(s.level, draws)
    ensures var r := GenerateNewProblem(s, draws);
      var p := Pair(r.num1, r.num2);
      && InLevel(s.level, p) && r.correctAnswer == r.num1 * r.num2
      && (p !in s.history || DrawCount(s.history, draws) == MAX_DRAWS)
      && r.history == PushHistory(s.history, p) && |r.history| <= PROBLEM_HISTORY_SIZE
      && r.answer == "" && !r.feedbackPending && r.feedback == NoFeedback && r.inputEnabled
      && r.streak == s.streak && r.highScores == s.highScores
  {
    var p := draws[DrawCount(s.history, draws) - 1];
    PushHistoryKeepsBounds(s.level, s.history, p);
    AnswerIsProduct(p);
  }

  /** The next problem gets a fresh timer, unless the options dialog paused the game. */
  lemma GenerateStartsTimer(s: Session, draws: seq<Pair>)
    requires s.state == Playing && !s.timerWasPaused && MAX_DRAWS <= |draws|
    ensures var r := GenerateNewProblem(s, draws);
      r.timerRunning && r.questionTime == TimeForStreak(s.streak) && r.remaining == r.questionTime
  {
  }

  /**
   * The delay expiring while the dialog has paused the game re-enables the
   * input but starts no timer: the previous question's remaining time stays.
   */
  lemma FeedbackExpiredWhilePaused(s: Session, draws: seq<Pair>)
    requires Inv(s) && s.feedbackPending && s.timerWasPaused && ValidDraws(s.level, draws)
    ensures var r := FeedbackExpired(s, draws);
      && r.inputEnabled && !r.timerRunning && r.timerWasPaused
      && r.remaining == s.remaining && r.questionTime == s.questionTime
  {
  }

  // ---------------------------------------------------------------------------
  // Level entry and level change

  /** Entering a level starts a fresh game: no streak, no pause, one-problem history, full time. */
  lemma InitialLevelResets(s: Session, level: nat, draws: seq<Pair>)
    requires Inv(s) && s.state == LevelSelect && ValidDraws(level, draws)
    ensures var r := InitialLevelSelect(s, level, draws);
      && r.state == Playing && r.level == level && r.streak == 0 && !r.timerWasPaused
      && r.history == [Pair(r.num1, r.num2)] && InLevel(level, r.history[0])
      && r.timerRunning && r.questionTime == 10 && r.remaining == 10
      && r.highScores == s.highScores
  {
    TimeForStreakTable(0);
  }

  /** Choosing another level in the dialog is the same fresh start, not a resume. */
  lemma LevelChangeResets(s: Session, level: nat, draws: seq<Pair>)
    requires Inv(s) && s.optionsOpen && level != s.level && ValidDraws(level, draws)
    ensures var r := ModalLevelSelect(s, level, draws);
      && r.state == Playing && r.level == level && r.streak == 0 && !r.timerWasPaused && !r.optionsOpen
      && r.history == [Pair(r.num1, r.num2)] && InLevel(level, r.history[0])
      && r.timerRunning && r.questionTime == 10 && r.remaining == 10
      && r.highScores == s.highScores
  {
    TimeForStreakTable(0);
  }

  // ---------------------------------------------------------------------------
  // Submitting an answer

  /** While a feedback delay is pending or no time is left, a submission is ignored. */
  lemma SubmitIgnored(s: Session)
    requires s.level < |s.highScores|
    requires s.feedbackPending || s.remaining <= 0
    ensures CheckAnswer(s) == s
  {
  }

  /**
   * Empty or non-numeric text shows a validation message and restarts the
   * timer where it was: no score, problem or time changes, and no feedback
   * delay is set, so the next submission is evaluated.
   */
  lemma SubmitInvalid(s: Session)
    requires Inv(s) && s.state == Playing && !s.feedbackPending && s.remaining > 0
    requires ParseInt(Trim(s.answer)).None?
    ensures var r := CheckAnswer(s);
      && r.streak == s.streak && r.highScores == s.highScores && r.stored == s.stored
      && r.num1 == s.num1 && r.num2 == s.num2 && r.correctAnswer == s.correctAnswer
      && r.history == s.history
      && r.questionTime == s.questionTime && r.remaining == s.remaining
      && r.timerRunning && r.inputEnabled && !r.timerWasPaused
      && r.feedback == Info && !r.feedbackPending
      && (Trim(s.answer) != "" ==> r.answer == "")
  {
    var t := s.(timerRunning := false, timerWasPaused := false, inputEnabled := false);
    var text := Trim(s.answer);
    assert CheckAnswer(s) == Submit(t, text);
    assert Submit(t, text) == AskAgain(t, text != "");
    AskAgainEffect(t, text != "");
  }

  /** A validation message changes only the label, the running flag, the input state and, maybe, the text. */
  lemma AskAgainEffect(t: Session, clearAnswer: bool)
    requires t.remaining > 0
    ensures AskAgain(t, clearAnswer)
      == t.(feedback := Info, timerRunning := true, inputEnabled := true,
            answer := if clearAnswer then "" else t.answer)
  {
  }

  /** The empty text is one of the invalid ones. */
  lemma SubmitEmpty(s: Session)
    requires Inv(s) && s.state == Playing && !s.feedbackPending && s.remaining > 0
    requires Trim(s.answer) == ""
    ensures var r := CheckAnswer(s);
      && r.streak == s.streak && r.highScores == s.highScores
      && r.questionTime == s.questionTime && r.remaining == s.remaining && r.timerRunning
      && r.feedback == Info && !r.feedbackPending && r.answer == s.answer
  {
    var t := s.(timerRunning := false, timerWasPaused := false, inputEnabled := false);
    assert CheckAnswer(s) == AskAgain(t, false);
  }

  /**
   * A correct answer extends the streak and raises the level's record to it
   * when it is beaten, persisting the record; other levels are untouched.
   */
  lemma SubmitCorrect(s: Session)
    requires Inv(s) && !s.feedbackPending && s.remaining > 0
    requires ParseInt(Trim(s.answer)) == Some(s.correctAnswer)
    ensures var r := CheckAnswer(s);
      && r.streak == s.streak + 1
      && |r.highScores| == NUM_LEVELS
      && r.highScores[s.level] == (if s.streak + 1 > s.highScores[s.level] then s.streak + 1 else s.highScores[s.level])
      && (forall l :: 0 <= l < NUM_LEVELS && l != s.level ==> r.highScores[l] == s.highScores[l])
      && r.stored == (if s.streak + 1 > s.highScores[s.level] then Some(r.highScores) else s.stored)
      && r.feedback == Correct && r.feedbackPending && !r.timerRunning && !r.inputEnabled
      && r.remaining == s.remaining && r.num1 == s.num1 && r.num2 == s.num2
      && r.state == s.state && !r.timerWasPaused
  {
    var t := s.(timerRunning := false, timerWasPaused := false, inputEnabled := false);
    assert CheckAnswer(s) == Submit(t, Trim(s.answer));
    assert Submit(t, Trim(s.answer)) == Grade(t, s.correctAnswer);
  }

  /** A wrong answer ends the streak and keeps every record. */
  lemma SubmitWrong(s: Session, v: int)
    requires Inv(s) && !s.feedbackPending && s.remaining > 0
    requires ParseInt(Trim(s.answer)) == Some(v) && v != s.correctAnswer
    ensures var r := CheckAnswer(s);
      && r.streak == 0 && r.highScores == s.highScores && r.stored == s.stored
      && r.feedback == Incorrect && r.feedbackPending && !r.timerRunning && !r.inputEnabled
  {
    var t := s.(timerRunning := false, timerWasPaused := false, inputEnabled := false);
    assert CheckAnswer(s) == Submit(t, Trim(s.answer));
    assert Submit(t, Trim(s.answer)) == Grade(t, v);
  }

  /**
   * Five correct answers in a row from a streak of four: the streak is five
   * and the next question gets 8 seconds (the tier boundary at five).
   */
  lemma FifthCorrectAnswer(s: Session, draws: seq<Pair>)
    requires Inv(s) && s.state == Playing && s.streak == 4
    requires !s.feedbackPending && s.remaining > 0
    requires s.answer == Decimal(s.correctAnswer)
    requires ValidDraws(s.level, draws)
    ensures var r := FeedbackExpired(CheckAnswer(s), draws);
      r.streak == 5 && r.timerRunning && r.questionTime == 8 && r.remaining == 8
  {
    ReadDecimal(s.correctAnswer);
    CorrectThenNext(s, draws);
    TimeForStreakTable(5);
  }

  /** After a correct answer and the feedback delay, the next question is timed for the longer streak. */
  lemma CorrectThenNext(s: Session, draws: seq<Pair>)
    requires Inv(s) && s.state == Playing && !s.feedbackPending && s.remaining > 0
    requires ParseInt(Trim(s.answer)) == Some(s.correctAnswer)
    requires MAX_DRAWS <= |draws|
    ensures var r := FeedbackExpired(CheckAnswer(s), draws);
      r.streak == s.streak + 1 && r.timerRunning
      && r.questionTime == TimeForStreak(s.streak + 1) && r.remaining == r.questionTime
  {
    SubmitCorrect(s);
    var c := CheckAnswer(s);
    GenerateStartsTimer(c.(feedbackPending := false), draws);
  }

  /** A correct answer leaves the problem, the text, the time left and the dialog as they were. */
  lemma CorrectLeavesProblem(s: Session)
    requires s.level < |s.highScores| && !s.feedbackPending && s.remaining > 0
    requires ParseInt(Trim(s.answer)) == Some(s.correctAnswer)
    ensures var c := CheckAnswer(s);
      && c.num1 == s.num1 && c.num2 == s.num2 && c.correctAnswer == s.correctAnswer
      && c.answer == s.answer && c.remaining == s.remaining && c.optionsOpen == s.optionsOpen
      && c.state == s.state
  {
    var t := s.(timerRunning := false, timerWasPaused := false, inputEnabled := false);
    assert CheckAnswer(s) == Submit(t, Trim(s.answer));
    assert Submit(t, Trim(s.answer)) == Grade(t, s.correctAnswer);
    GradeLeavesProblem(t, s.correctAnswer);
  }

  lemma GradeLeavesProblem(t: Session, v: int)
    requires t.level < |t.highScores|
    ensures var g := Grade(t, v);
      && g.num1 == t.num1 && g.num2 == t.num2 && g.correctAnswer == t.correctAnswer
      && g.answer == t.answer && g.remaining == t.remaining && g.optionsOpen == t.optionsOpen
      && g.state == t.state
  {
    if v == t.correctAnswer {
      var u := t.(feedback := Correct).(streak := t.streak + 1);
      if u.streak > u.highScores[u.level] {
        assert Grade(t, v) == SaveLevelHighScore(RaiseRecord(u)).(feedbackPending := true);
      } else {
        assert Grade(t, v) == u.(feedbackPending := true);
      }
    }
  }

  /**
   * Opening and closing the dialog during the feedback delay restarts the
   * countdown and enables the input; an edit of the field then cancels the
   * pending delay, and nothing else changes.
   */
  lemma DialogDuringDelay(c: Session)
    requires Inv(c) && c.state == Playing && c.feedbackPending && !c.timerWasPaused && !c.optionsOpen
    requires c.remaining > 0
    ensures var e := EditAnswer(CloseOptions(OpenOptions(c)), c.answer);
      && e == c.(feedbackPending := false, feedback := NoFeedback, timerRunning := true, inputEnabled := true)
      && Inv(e)
  {
  }

  /**
   * As written, the feedback delay does not protect a graded problem: after
   * a correct answer, opening and closing the dialog and an edit that leaves
   * the same text (a digit deleted and typed again), the same problem is
   * graded correct a second time and the streak grows by two.
   */
  lemma RegradeAfterDialog(s: Session)
    requires Inv(s) && s.state == Playing && !s.optionsOpen && !s.feedbackPending && s.remaining > 0
    requires ParseInt(Trim(s.answer)) == Some(s.correctAnswer)
    ensures Inv(EditAnswer(CloseOptions(OpenOptions(CheckAnswer(s))), s.answer))
    ensures var c := CheckAnswer(s);
      var e := EditAnswer(CloseOptions(OpenOptions(c)), s.answer);
      var g := CheckAnswer(e);
      && c.feedbackPending && c.streak == s.streak + 1
      && !e.feedbackPending && e.inputEnabled
      && g.num1 == s.num1 && g.num2 == s.num2 && g.feedback == Correct && g.streak == s.streak + 2
  {
    SubmitCorrect(s);
    CorrectLeavesProblem(s);
    CheckAnswerKeepsInv(s);
    var c := CheckAnswer(s);
    DialogDuringDelay(c);
    var e := EditAnswer(CloseOptions(OpenOptions(c)), s.answer);
    SubmitCorrect(e);
    CorrectLeavesProblem(e);
  }

  // ---------------------------------------------------------------------------
  // High scores

  /**
   * From `s` to `r` no record was lowered: only the current level's entry
   * may change, only upwards, and a changed record is persisted.
   */
  ghost predicate KeepsRecords(s: Session, r: Session)
    requires s.level < |s.highScores|
  {
    && |r.highScores| == |s.highScores|
    && r.highScores[s.level] >= s.highScores[s.level]
    && (forall l :: 0 <= l < |s.highScores| && l != s.level ==> r.highScores[l] == s.highScores[l])
    && (r.highScores != s.highScores ==> r.stored == Some(r.highScores))
  }

  /** Every handler except answer checking leaves the record and storage alone. */
  lemma TimerLeavesScores(s: Session, resetTime: bool)
    ensures HandleTimeUp(s).highScores == s.highScores && HandleTimeUp(s).stored == s.stored
    ensures StartTimer(s, resetTime).highScores == s.highScores && StartTimer(s, resetTime).stored == s.stored
    ensures Resume(s).highScores == s.highScores && Resume(s).stored == s.stored
  {
  }

  lemma GenerateLeavesScores(s: Session, draws: seq<Pair>)
    requires MAX_DRAWS <= |draws|
    ensures GenerateNewProblem(s, draws).highScores == s.highScores
    ensures GenerateNewProblem(s, draws).stored == s.stored
  {
    TimerLeavesScores(s, true);
  }

  lemma GradeKeepsRecords(t: Session, v: int)
    requires t.level < |t.highScores| == NUM_LEVELS
    ensures KeepsRecords(t, Grade(t, v))
  {
    var r := Grade(t, v);
    if v == t.correctAnswer && t.streak + 1 > t.highScores[t.level] {
      assert r.highScores == t.highScores[t.level := t.streak + 1];
    } else {
      assert r.highScores == t.highScores;
    }
  }

  lemma CheckAnswerKeepsRecords(s: Session)
    requires s.level < |s.highScores| == NUM_LEVELS
    ensures KeepsRecords(s, CheckAnswer(s))
  {
    var text := Trim(s.answer);
    if !(s.feedbackPending || s.remaining <= 0) {
      var t := s.(timerRunning := false, timerWasPaused := false, inputEnabled := false);
      if text == "" || ParseInt(text).None? {
        TimerLeavesScores(t.(feedback := Info), false);
        UnchangedScoresKeepRecords(s, CheckAnswer(s));
      } else {
        GradeKeepsRecords(t, ParseInt(text).value);
      }
    }
  }

  lemma UnchangedScoresKeepRecords(s: Session, r: Session)
    requires s.level < |s.highScores| && r.highScores == s.highScores
    ensures KeepsRecords(s, r)
  {
  }

  /** No event lowers a record. */
  lemma StepKeepsRecords(s: Session, e: Event)
    requires Inv(s) && Enabled(s, e)
    ensures KeepsRecords(s, Step(s, e))
  {
    if (e.KeyPressed? && e.key.Ok? && s.inputEnabled) || (e.EnterPressed? && s.inputEnabled && s.state == Playing) {
      assert Step(s, e) == CheckAnswer(s);
      CheckAnswerKeepsRecords(s);
    } else {
      OtherStepsLeaveScores(s, e);
      UnchangedScoresKeepRecords(s, Step(s, e));
    }
  }

  /** Every event other than a submission leaves the records and the stored copy as they were. */
  lemma OtherStepsLeaveScores(s: Session, e: Event)
    requires s.level < |s.highScores| == NUM_LEVELS && Enabled(s, e)
    requires !(e.KeyPressed? && e.key.Ok? && s.inputEnabled) && !(e.EnterPressed? && s.inputEnabled && s.state == Playing)
    ensures Step(s, e).highScores == s.highScores && Step(s, e).stored == s.stored
  {
    if e.TimerTicked? || e.FeedbackDelayExpired? {
      CallbackStepsLeaveScores(s, e);
    } else if e.KeyPressed? || e.AnswerEdited? || e.EnterPressed? {
    } else {
      ScreenStepsLeaveScores(s, e);
    }
  }

  /** The buttons of the screens and of the options dialog. */
  lemma ScreenStepsLeaveScores(s: Session, e: Event)
    requires s.level < |s.highScores| == NUM_LEVELS && Enabled(s, e)
    requires e.StartClicked? || e.InitialLevelChosen? || e.OptionsClicked? || e.OptionsClosed? || e.ModalLevelChosen?
    ensures Step(s, e).highScores == s.highScores && Step(s, e).stored == s.stored
  {
    match e
    case InitialLevelChosen(level, draws) =>
      LevelEntryLeavesScores(s, level, draws);
    case OptionsClosed =>
      TimerLeavesScores(s.(optionsOpen := false), false);
    case ModalLevelChosen(level, draws) =>
      LevelChangeLeavesScores(s, level, draws);
    case _ =>
  }

  /** The countdown tick and the end of the feedback delay. */
  lemma CallbackStepsLeaveScores(s: Session, e: Event)
    requires s.level < |s.highScores| && Enabled(s, e)
    requires e.TimerTicked? || e.FeedbackDelayExpired?
    ensures Step(s, e).highScores == s.highScores && Step(s, e).stored == s.stored
  {
    if e.TimerTicked? {
      TimerLeavesScores(StopTimer(s.(remaining := s.remaining - 1)), false);
    } else {
      GenerateLeavesScores(s.(feedbackPending := false), e.draws);
    }
  }

  lemma LevelEntryLeavesScores(s: Session, level: nat, draws: seq<Pair>)
    requires |s.highScores| == NUM_LEVELS && MAX_DRAWS <= |draws|
    ensures InitialLevelSelect(s, level, draws).highScores == s.highScores
    ensures InitialLevelSelect(s, level, draws).stored == s.stored
  {
    GenerateLeavesScores(s.(level := level, state := Playing, streak := 0, timerWasPaused := false, history := []), draws);
  }

  lemma LevelChangeLeavesScores(s: Session, level: nat, draws: seq<Pair>)
    requires MAX_DRAWS <= |draws|
    ensures ModalLevelSelect(s, level, draws).highScores == s.highScores
    ensures ModalLevelSelect(s, level, draws).stored == s.stored
  {
    GenerateLeavesScores(s.(optionsOpen := false, level := level, streak := 0, timerWasPaused := false, history := []), draws);
    TimerLeavesScores(s.(optionsOpen := false), false);
  }
}
