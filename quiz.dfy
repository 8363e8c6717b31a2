/**
 * The drill as the page runs it: one object whose fields are the
 * module-level variables, and one method per function and event handler,
 * each changing those fields step by step. Every method is proved to leave
 * the object in the state the matching GameModel function gives, and every
 * event handler to keep the session invariant.
 */
module Quiz {
  import opened Wrappers
  import opened Config
  import opened Tiers
  import opened AnswerText
  import opened Problems
  import opened Scores
  import opened GameModel
  import opened GameProperties

  class Game {
    var currentGameState: GameState
    var currentLevel: nat
    var num1: int
    var num2: int
    var correctAnswer: int
    var consecutiveCorrect: nat
    var highScores: seq<int>
    var problemHistory: seq<Pair>
    var currentQuestionTime: int
    var remainingTime: int
    var timerWasPaused: bool
    var timerRunning: bool        // questionTimerInterval is set
    var feedbackPending: bool     // feedbackTimeout is set
    var feedback: Feedback        // the feedback label's style class
    var inputEnabled: bool
    var answerText: string        // the answer field's value
    var optionsOpen: bool         // the options dialog is displayed
    var storage: Option<seq<int>> // the persisted high-score record

    /** The object's state as a GameModel session. */
    ghost function Snapshot(): Session
      reads this
    {
      Session(currentGameState, currentLevel, num1, num2, correctAnswer, consecutiveCorrect,
              highScores, problemHistory, currentQuestionTime, remainingTime, timerWasPaused,
              timerRunning, feedbackPending, feedback, inputEnabled, answerText, optionsOpen, storage)
    }

    ghost predicate Valid()
      reads this
    {
      Inv(Snapshot())
    }

    /** Page load: the globals' initial values, then `init()`. */
    constructor (stored: Option<seq<int>>)
      ensures Valid() && Snapshot() == Initial(stored)
    {
      currentGameState := Startup;
      currentLevel := 0;
      num1, num2, correctAnswer := 0, 0, 0;
      consecutiveCorrect := 0;
      highScores := ZeroScores();
      problemHistory := [];
      currentQuestionTime := TIME_PER_STREAK[0].time;
      remainingTime := TIME_PER_STREAK[0].time;
      timerWasPaused := false;
      timerRunning := false;
      feedbackPending := false;
      feedback := NoFeedback;
      inputEnabled := true;
      answerText := "";
      optionsOpen := false;
      storage := stored;
      new;
      LoadHighScores();
      currentGameState := Startup;
      DisableInput();
      InitialKeepsInv(stored);
    }

    // -------------------------------------------------------------------------
    // Helpers

    method DisableInput()
      modifies this
      ensures Snapshot() == old(Snapshot()).(inputEnabled := false)
    {
      inputEnabled := false;
    }

    method EnableInput()
      modifies this
      ensures Snapshot() == old(Snapshot()).(inputEnabled := true)
    {
      inputEnabled := true;
    }

    method ResetFeedbackAndStyle()
      modifies this
      ensures Snapshot() == ResetFeedback(old(Snapshot()))
    {
      feedbackPending := false;
      feedback := NoFeedback;
    }

    method LoadHighScores()
      modifies this
      ensures Snapshot() == GameModel.LoadHighScores(old(Snapshot()))
    {
      if IsValidRecord(storage) {
        highScores := storage.value;
        return;
      }
      storage := None;
      highScores := ZeroScores();
    }

    /** The level-entry guard: reload the scores when the array does not have one entry per level. */
    method ReloadMalformedScores()
      modifies this
      ensures Snapshot() == CheckScores(old(Snapshot()))
    {
      if |highScores| != NUM_LEVELS {
        LoadHighScores();
      }
    }

    method SaveLevelHighScore()
      modifies this
      ensures Snapshot() == GameModel.SaveLevelHighScore(old(Snapshot()))
    {
      if currentLevel < NUM_LEVELS {
        storage := Some(highScores);
      }
    }

    // -------------------------------------------------------------------------
    // Timer

    method StopQuestionTimer()
      modifies this
      ensures Snapshot() == StopTimer(old(Snapshot()))
    {
      timerRunning := false;
    }

    method PauseQuestionTimer()
      modifies this
      ensures Snapshot() == Pause(old(Snapshot()))
    {
      timerWasPaused := true;
      StopQuestionTimer();
      DisableInput();
    }

    method ResumeQuestionTimer()
      modifies this
      ensures Snapshot() == Resume(old(Snapshot()))
    {
      if timerWasPaused && currentGameState == Playing {
        timerWasPaused := false;
        if remainingTime > 0 {
          StartQuestionTimer(false);
          EnableInput();
        } else {
          HandleTimeUp();
        }
      }
    }

    method StartQuestionTimer(resetTime: bool)
      modifies this
      ensures Snapshot() == StartTimer(old(Snapshot()), resetTime)
    {
      StopQuestionTimer();
      if resetTime {
        currentQuestionTime := GetTimeForCurrentStreak(consecutiveCorrect);
        remainingTime := currentQuestionTime;
      } else {
        if remainingTime < 0 {
          remainingTime := 0;
        }
      }
      if remainingTime > 0 {
        timerRunning := true;
      } else {
        HandleTimeUp();
      }
    }

    /** `timerCountdown`: the countdown interval fired. */
    method TimerCountdown()
      requires Valid() && timerRunning
      modifies this
      ensures Valid() && Snapshot() == Tick(old(Snapshot()))
    {
      ghost var s0 := Snapshot();
      remainingTime := remainingTime - 1;
      if remainingTime <= 0 {
        StopQuestionTimer();
        HandleTimeUp();
      }
      TickKeepsInv(s0);
    }

    // -------------------------------------------------------------------------
    // Game logic

    method HandleTimeUp()
      modifies this
      ensures Snapshot() == GameModel.HandleTimeUp(old(Snapshot()))
    {
      if currentGameState != Playing || feedback == TimeUp {
        return;
      }
      StopQuestionTimer();
      timerWasPaused := false;
      DisableInput();
      feedback := TimeUp;
      consecutiveCorrect := 0;
      feedbackPending := true;
    }

    method GenerateNewProblem(draws: seq<Pair>)
      requires ValidDraws(currentLevel, draws)
      modifies this
      ensures Snapshot() == GameModel.GenerateNewProblem(old(Snapshot()), draws)
    {
      if currentGameState != Playing {
        return;
      }
      var p, attempts := DrawProblem(currentLevel, problemHistory, draws);
      PresentProblem(p);
    }

    method PresentProblem(p: Pair)
      modifies this
      ensures Snapshot() == GameModel.PresentProblem(old(Snapshot()), p)
    {
      SetProblem(p);
      ClearInput();
      if !timerWasPaused {
        StartQuestionTimer(true);
      }
    }

    method SetProblem(p: Pair)
      modifies this
      ensures Snapshot() == GameModel.SetProblem(old(Snapshot()), p)
    {
      num1, num2, correctAnswer := p.n1, p.n2, Answer(p);
      RememberProblem(p);
    }

    method ClearInput()
      modifies this
      ensures Snapshot() == GameModel.ClearInput(old(Snapshot()))
    {
      ClearAnswer();
      ResetFeedbackAndStyle();
      EnableInput();
    }

    /** `problemHistory.unshift(p)`, then one `pop()` when the history is over its size. */
    method RememberProblem(p: Pair)
      modifies this
      ensures Snapshot() == old(Snapshot()).(history := PushHistory(old(problemHistory), p))
    {
      problemHistory := [p] + problemHistory;
      if |problemHistory| > PROBLEM_HISTORY_SIZE {
        problemHistory := problemHistory[..|problemHistory| - 1];
      }
    }

    method CheckAnswer()
      requires currentLevel < |highScores|
      modifies this
      ensures Snapshot() == GameModel.CheckAnswer(old(Snapshot()))
    {
      var userAnswerString := Trim(answerText);
      if feedbackPending || remainingTime <= 0 {
        return;
      }
      StopQuestionTimer();
      timerWasPaused := false;
      DisableInput();
      if userAnswerString == "" {
        AskAgain(false);
        return;
      }
      var userAnswer := ParseInt(userAnswerString);
      if userAnswer.None? {
        AskAgain(true);
        return;
      }
      Grade(userAnswer.value);
    }

    /** The validation branches of `checkAnswer`. */
    method AskAgain(clearAnswer: bool)
      modifies this
      ensures Snapshot() == GameModel.AskAgain(old(Snapshot()), clearAnswer)
    {
      ShowFeedback(Info);
      StartQuestionTimer(false);
      EnableInput();
      if clearAnswer {
        ClearAnswer();
      }
    }

    /** The grading branches of `checkAnswer`, then the feedback delay. */
    method Grade(userAnswer: int)
      requires currentLevel < |highScores|
      modifies this
      ensures Snapshot() == GameModel.Grade(old(Snapshot()), userAnswer)
    {
      if userAnswer == correctAnswer {
        ShowFeedback(Correct);
        SetStreak(consecutiveCorrect + 1);
        if consecutiveCorrect > highScores[currentLevel] {
          RaiseRecord();
          SaveLevelHighScore();
        }
      } else {
        ShowFeedback(Incorrect);
        SetStreak(0);
      }
      StartFeedbackDelay();
    }

    method RaiseRecord()
      requires currentLevel < |highScores|
      modifies this
      ensures Snapshot() == GameModel.RaiseRecord(old(Snapshot()))
    {
      highScores := highScores[currentLevel := consecutiveCorrect];
    }

    method ShowFeedback(f: Feedback)
      modifies this
      ensures Snapshot() == old(Snapshot()).(feedback := f)
    {
      feedback := f;
    }

    method SetStreak(n: nat)
      modifies this
      ensures Snapshot() == old(Snapshot()).(streak := n)
    {
      consecutiveCorrect := n;
    }

    method ClearAnswer()
      modifies this
      ensures Snapshot() == old(Snapshot()).(answer := "")
    {
      answerText := "";
    }

    method SetAnswer(text: string)
      modifies this
      ensures Snapshot() == old(Snapshot()).(answer := text)
    {
      answerText := text;
    }

    /** `feedbackTimeout = null`. */
    method ClearFeedbackDelay()
      modifies this
      ensures Snapshot() == old(Snapshot()).(feedbackPending := false)
    {
      feedbackPending := false;
    }

    method SetGameState(state: GameState)
      modifies this
      ensures Snapshot() == old(Snapshot()).(state := state)
    {
      currentGameState := state;
    }

    /** The options dialog is hidden. */
    method CloseDialog()
      modifies this
      ensures Snapshot() == old(Snapshot()).(optionsOpen := false)
    {
      optionsOpen := false;
    }

    /** The resets common to both level selections. */
    method EnterLevel(level: nat)
      modifies this
      ensures Snapshot() == GameModel.EnterLevel(old(Snapshot()), level)
    {
      currentLevel := level;
      consecutiveCorrect := 0;
      timerWasPaused := false;
      problemHistory := [];
    }

    /** `feedbackTimeout = setTimeout(...)`. */
    method StartFeedbackDelay()
      modifies this
      ensures Snapshot() == old(Snapshot()).(feedbackPending := true)
    {
      feedbackPending := true;
    }

    /** The feedback-delay timeout fired. */
    method FeedbackTimeout(draws: seq<Pair>)
      requires Valid() && feedbackPending && ValidDraws(currentLevel, draws)
      modifies this
      ensures Valid() && Snapshot() == FeedbackExpired(old(Snapshot()), draws)
    {
      ghost var s0 := Snapshot();
      ClearFeedbackDelay();
      if currentGameState == Playing {
        GenerateNewProblem(draws);
      }
      FeedbackExpiredKeepsInv(s0, draws);
    }

    // -------------------------------------------------------------------------
    // Event handlers

    method StartButtonClicked()
      requires Valid() && currentGameState == Startup
      modifies this
      ensures Valid() && Snapshot() == StartGame(old(Snapshot()))
    {
      currentGameState := LevelSelect;
    }

    method HandleInitialLevelSelect(levelIndex: nat, draws: seq<Pair>)
      requires Valid() && currentGameState == LevelSelect && ValidDraws(levelIndex, draws)
      modifies this
      ensures Valid() && Snapshot() == InitialLevelSelect(old(Snapshot()), levelIndex, draws)
    {
      ghost var s0 := Snapshot();
      EnterLevel(levelIndex);
      SetGameState(Playing);
      ReloadMalformedScores();
      GenerateNewProblem(draws);
      InitialLevelSelectKeepsInv(s0, levelIndex, draws);
    }

    method OptionsButtonClicked()
      requires Valid()
      modifies this
      ensures Valid() && Snapshot() == OpenOptions(old(Snapshot()))
    {
      ghost var s0 := Snapshot();
      if currentGameState != Playing {
        return;
      }
      PauseQuestionTimer();
      optionsOpen := true;
      OpenOptionsKeepsInv(s0);
    }

    /** The dialog's close button, or a click on the dialog's backdrop. */
    method CloseOptionsClicked()
      requires Valid() && optionsOpen
      modifies this
      ensures Valid() && Snapshot() == CloseOptions(old(Snapshot()))
    {
      ghost var s0 := Snapshot();
      CloseDialog();
      ResumeQuestionTimer();
      ResumeKeepsInv(s0.(optionsOpen := false));
    }

    method HandleModalLevelSelect(levelIndex: nat, draws: seq<Pair>)
      requires Valid() && optionsOpen && ValidDraws(levelIndex, draws)
      modifies this
      ensures Valid() && Snapshot() == ModalLevelSelect(old(Snapshot()), levelIndex, draws)
    {
      ghost var s0 := Snapshot();
      CloseDialog();
      if levelIndex != currentLevel {
        EnterLevel(levelIndex);
        GenerateNewProblem(draws);
      } else {
        ResumeQuestionTimer();
      }
      ModalLevelSelectKeepsInv(s0, levelIndex, draws);
    }

    /** A keypad button; ignored while the input is disabled. */
    method KeypadClicked(key: Key)
      requires Valid() && (key.DigitKey? ==> IsDigit(key.d))
      modifies this
      ensures Valid() && Snapshot() == PressKey(old(Snapshot()), key)
    {
      ghost var s0 := Snapshot();
      if !inputEnabled {
        return;
      }
      if !key.Ok? {
        ResetFeedbackAndStyle();
      }
      match key {
        case DigitKey(d) =>
          if |answerText| < MAX_ANSWER_LENGTH {
            SetAnswer(answerText + [d]);
          }
        case Backspace =>
          SetAnswer(if |answerText| == 0 then [] else answerText[..|answerText| - 1]);
        case Ok =>
          CheckAnswer();
      }
      PressKeyKeepsInv(s0, key);
    }

    /** The answer field's input event, after the browser put `value` in it. */
    method AnswerInput(value: string)
      requires Valid()
      modifies this
      ensures Valid() && Snapshot() == EditAnswer(old(Snapshot()), value)
    {
      ghost var s0 := Snapshot();
      if !inputEnabled {
        return;
      }
      ResetFeedbackAndStyle();
      answerText := value;
      if |answerText| > MAX_ANSWER_LENGTH {
        answerText := answerText[..MAX_ANSWER_LENGTH];
      }
      EditAnswerKeepsInv(s0, value);
    }

    /** The Enter key in the answer field. */
    method AnswerEnterPressed()
      requires Valid()
      modifies this
      ensures Valid() && Snapshot() == PressEnter(old(Snapshot()))
    {
      ghost var s0 := Snapshot();
      if !inputEnabled || currentGameState != Playing {
        return;
      }
      CheckAnswer();
      PressEnterKeepsInv(s0);
    }
  }
}
