/**
 * The game session as a value: one field per module-level variable of the
 * drill, and one function per handler, each giving the session after the
 * handler has run. Scheduled callbacks are flags: `timerRunning` stands for
 * a live countdown interval, `feedbackPending` for a live feedback-delay
 * timeout; the timer tick and the delay expiry are events of their own.
 */
module GameModel {
  import opened Wrappers
  import opened Config
  import opened Tiers
  import opened AnswerText
  import opened Problems
  import opened Scores

  datatype GameState = Startup | LevelSelect | Playing

  /** The style class of the feedback label. */
  datatype Feedback = NoFeedback | Info | Correct | Incorrect | TimeUp

  /** A button of the on-screen keypad. */
  datatype Key = DigitKey(d: char) | Backspace | Ok

  datatype Session = Session(
    state: GameState,
    level: nat,                   // currentLevel
    num1: int,
    num2: int,
    correctAnswer: int,
    streak: nat,                  // consecutiveCorrect
    highScores: seq<int>,
    history: seq<Pair>,           // problemHistory, most recent first
    questionTime: int,            // currentQuestionTime
    remaining: int,               // remainingTime
    timerWasPaused: bool,         // set only by the options dialog
    timerRunning: bool,           // questionTimerInterval != null
    feedbackPending: bool,        // feedbackTimeout != null
    feedback: Feedback,           // feedbackLabel.className
    inputEnabled: bool,           // !answerInput.disabled
    answer: string,               // answerInput.value
    optionsOpen: bool,            // the options dialog is displayed
    stored: Option<seq<int>>      // the persisted high-score record
  )

  /** The session after start-up: scores loaded, Startup screen, input disabled. */
  function Initial(stored: Option<seq<int>>): Session {
    Session(Startup, 0, 0, 0, 0, 0, LoadedScores(stored), [],
            TIME_PER_STREAK[0].time, TIME_PER_STREAK[0].time,
            false, false, false, NoFeedback, false, "", false, StoredAfterLoad(stored))
  }

  // ---------------------------------------------------------------------------
  // The invariant the handlers keep

  /** The current problem is the head of the history and its answer is the product. */
  ghost predicate HasProblem(s: Session) {
    |s.history| > 0 && s.history[0] == Pair(s.num1, s.num2) && s.correctAnswer == Answer(s.history[0])
  }

  /** Everything the invariant says except the presence of a current problem. */
  ghost predicate Core(s: Session) {
    && s.level < NUM_LEVELS
    && |s.highScores| == NUM_LEVELS
    && IsTierTime(s.questionTime)
    && 0 <= s.remaining <= s.questionTime
    && (s.timerRunning ==> s.remaining > 0)
    && (s.timerWasPaused ==> !s.timerRunning)
    && (s.state != Playing ==>
          !s.timerRunning && !s.feedbackPending && !s.timerWasPaused && !s.optionsOpen && !s.inputEnabled)
    && |s.history| <= PROBLEM_HISTORY_SIZE
    && (forall i :: 0 <= i < |s.history| ==> InLevel(s.level, s.history[i]))
    && (s.streak == 0 || s.streak <= s.highScores[s.level])
    && |s.answer| <= MAX_ANSWER_LENGTH
  }

  /** Core facts, and a current problem whenever playing. */
  ghost predicate Consistent(s: Session) {
    Core(s) && (s.state == Playing ==> HasProblem(s))
  }

  /** The session invariant: the pause flag is set only while the options dialog is open. */
  ghost predicate Inv(s: Session) {
    Consistent(s) && (s.timerWasPaused ==> s.optionsOpen)
  }

  // ---------------------------------------------------------------------------
  // Timer

  /** `stopQuestionTimer`: cancel the countdown, if any. */
  function StopTimer(s: Session): Session {
    s.(timerRunning := false)
  }

  /** `resetFeedbackAndStyle`: cancel the feedback delay and clear the label. */
  function ResetFeedback(s: Session): Session {
    s.(feedbackPending := false, feedback := NoFeedback)
  }

  /** `handleTimeUp`, with its guard against running outside play or twice. */
  function HandleTimeUp(s: Session): Session {
    if s.state != Playing || s.feedback == TimeUp then s
    else s.(timerRunning := false, timerWasPaused := false, inputEnabled := false,
            feedback := TimeUp, streak := 0, feedbackPending := true)
  }

  /** `startQuestionTimer(resetTime)`. */
  function StartTimer(s: Session, resetTime: bool): Session {
    var t := if resetTime
      then s.(timerRunning := false, questionTime := TimeForStreak(s.streak), remaining := TimeForStreak(s.streak))
      else s.(timerRunning := false, remaining := if s.remaining < 0 then 0 else s.remaining);
    if t.remaining > 0 then t.(timerRunning := true) else HandleTimeUp(t)
  }

  /** `timerCountdown`: one tick of the running countdown. */
  function Tick(s: Session): Session {
    var t := s.(remaining := s.remaining - 1);
    if t.remaining <= 0 then HandleTimeUp(StopTimer(t)) else t
  }

  /** `pauseQuestionTimer`. */
  function Pause(s: Session): Session {
    s.(timerWasPaused := true, timerRunning := false, inputEnabled := false)
  }

  /** `resumeQuestionTimer`: acts only after a pause, and only while playing. */
  function Resume(s: Session): Session {
    if s.timerWasPaused && s.state == Playing then
      var t := s.(timerWasPaused := false);
      if t.remaining > 0 then StartTimer(t, false).(inputEnabled := true) else HandleTimeUp(t)
    else s
  }

  // ---------------------------------------------------------------------------
  // Game logic

  /** `generateNewProblem`, with the random draws given by `draws`. */
  function GenerateNewProblem(s: Session, draws: seq<Pair>): Session
    requires MAX_DRAWS <= |draws|
  {
    if s.state != Playing then s
    else PresentProblem(s, draws[DrawCount(s.history, draws) - 1])
  }

  /**
   * The second half of `generateNewProblem`: make `p` the current problem,
   * remember it, clear answer and feedback, enable the input and, unless the
   * options dialog paused the game, start a fresh timer.
   */
  function PresentProblem(s: Session, p: Pair): Session {
    var t := ClearInput(SetProblem(s, p));
    if !t.timerWasPaused then StartTimer(t, true) else t
  }

  /** Make `p` the current problem and push it onto the history. */
  function SetProblem(s: Session, p: Pair): Session {
    s.(num1 := p.n1, num2 := p.n2, correctAnswer := Answer(p), history := PushHistory(s.history, p))
  }

  /** Clear the answer field and the feedback, and enable the input. */
  function ClearInput(s: Session): Session {
    ResetFeedback(s.(answer := "")).(inputEnabled := true)
  }

  /** `saveLevelHighScore(currentLevel)`: persist the whole record. */
  function SaveLevelHighScore(s: Session): Session {
    if s.level < NUM_LEVELS then s.(stored := Some(s.highScores)) else s
  }

  /** `loadHighScores`. */
  function LoadHighScores(s: Session): Session {
    s.(highScores := LoadedScores(s.stored), stored := StoredAfterLoad(s.stored))
  }

  /** `checkAnswer`: evaluate the text of the answer field. */
  function CheckAnswer(s: Session): Session
    requires s.level < |s.highScores|
  {
    var text := Trim(s.answer);
    if s.feedbackPending || s.remaining <= 0 then s
    else
      Submit(s.(timerRunning := false, timerWasPaused := false, inputEnabled := false), text)
  }

  /** `checkAnswer` past its guard, with the timer stopped and the input disabled. */
  function Submit(t: Session, text: string): Session
    requires t.level < |t.highScores|
  {
    if text == "" then AskAgain(t, false)
    else match ParseInt(text)
      case None => AskAgain(t, true)
      case Some(v) => Grade(t, v)
  }

  /**
   * A rejected submission (empty, or not a number): an info message, the
   * timer resumes with the time left, the input comes back, and a
   * non-numeric text is cleared. No feedback delay is scheduled.
   */
  function AskAgain(t: Session, clearAnswer: bool): Session {
    var r := StartTimer(t.(feedback := Info), false).(inputEnabled := true);
    if clearAnswer then r.(answer := "") else r
  }

  /**
   * A numeric submission: a correct one extends the streak and raises and
   * saves the level's record when beaten, a wrong one ends the streak;
   * either way the feedback delay is scheduled.
   */
  function Grade(t: Session, v: int): Session
    requires t.level < |t.highScores|
  {
    if v == t.correctAnswer then
      var u := t.(feedback := Correct).(streak := t.streak + 1);
      var w := if u.streak > u.highScores[u.level] then SaveLevelHighScore(RaiseRecord(u)) else u;
      w.(feedbackPending := true)
    else
      t.(feedback := Incorrect).(streak := 0).(feedbackPending := true)
  }

  /** The current streak becomes the level's record. */
  function RaiseRecord(s: Session): Session
    requires s.level < |s.highScores|
  {
    s.(highScores := s.highScores[s.level := s.streak])
  }

  /** The feedback delay has expired: the next problem comes if still playing. */
  function FeedbackExpired(s: Session, draws: seq<Pair>): Session
    requires MAX_DRAWS <= |draws|
  {
    var t := s.(feedbackPending := false);
    if t.state == Playing then GenerateNewProblem(t, draws) else t
  }

  // ---------------------------------------------------------------------------
  // User interface events

  /** The start button. */
  function StartGame(s: Session): Session {
    s.(state := LevelSelect)
  }

  /** `handleInitialLevelSelect(level)`. */
  function InitialLevelSelect(s: Session, level: nat, draws: seq<Pair>): Session
    requires MAX_DRAWS <= |draws|
  {
    GenerateNewProblem(CheckScores(EnterLevel(s, level).(state := Playing)), draws)
  }

  /** A level is entered: a fresh streak and an empty history; any pause is forgotten. */
  function EnterLevel(s: Session, level: nat): Session {
    s.(level := level, streak := 0, timerWasPaused := false, history := [])
  }

  /** Reload the scores when the array does not hold one entry per level. */
  function CheckScores(s: Session): Session {
    if |s.highScores| != NUM_LEVELS then LoadHighScores(s) else s
  }

  /** The options button: pause and open the dialog, only while playing. */
  function OpenOptions(s: Session): Session {
    if s.state != Playing then s else Pause(s).(optionsOpen := true)
  }

  /** The dialog's close button or a click on its backdrop. */
  function CloseOptions(s: Session): Session {
    Resume(s.(optionsOpen := false))
  }

  /** `handleModalLevelSelect(level)`: a new level restarts, the same level resumes. */
  function ModalLevelSelect(s: Session, level: nat, draws: seq<Pair>): Session
    requires MAX_DRAWS <= |draws|
  {
    var t := s.(optionsOpen := false);
    if level != s.level then
      GenerateNewProblem(EnterLevel(t, level), draws)
    else Resume(t)
  }

  /** A keypad button; ignored while the input is disabled. */
  function PressKey(s: Session, key: Key): Session
    requires s.level < |s.highScores|
  {
    if !s.inputEnabled then s
    else match key
      case DigitKey(d) =>
        var t := ResetFeedback(s);
        if |t.answer| < MAX_ANSWER_LENGTH then t.(answer := t.answer + [d]) else t
      case Backspace =>
        var t := ResetFeedback(s);
        t.(answer := if |t.answer| == 0 then [] else t.answer[..|t.answer| - 1])
      case Ok => CheckAnswer(s)
  }

  /** Typing into the answer field, which now holds `value`; cut to MAX_ANSWER_LENGTH. */
  function EditAnswer(s: Session, value: string): Session {
    if !s.inputEnabled then s
    else ResetFeedback(s).(answer := if |value| > MAX_ANSWER_LENGTH then value[..MAX_ANSWER_LENGTH] else value)
  }

  /** The Enter key in the answer field. */
  function PressEnter(s: Session): Session
    requires s.level < |s.highScores|
  {
    if !s.inputEnabled || s.state != Playing then s else CheckAnswer(s)
  }

  // ---------------------------------------------------------------------------
  // One transition function over all events

  datatype Event =
    | StartClicked
    | InitialLevelChosen(level: nat, draws: seq<Pair>)
    | OptionsClicked
    | OptionsClosed
    | ModalLevelChosen(level: nat, draws: seq<Pair>)
    | TimerTicked
    | FeedbackDelayExpired(draws: seq<Pair>)
    | KeyPressed(key: Key)
    | AnswerEdited(value: string)
    | EnterPressed

  /** The events the page can deliver in a session: a button only while it is shown, a callback only while scheduled. */
  predicate Enabled(s: Session, e: Event) {
    match e
    case StartClicked => s.state == Startup
    case InitialLevelChosen(level, draws) => s.state == LevelSelect && ValidDraws(level, draws)
    case OptionsClicked => true
    case OptionsClosed => s.optionsOpen
    case ModalLevelChosen(level, draws) => s.optionsOpen && ValidDraws(level, draws)
    case TimerTicked => s.timerRunning
    case FeedbackDelayExpired(draws) => s.feedbackPending && ValidDraws(s.level, draws)
    case KeyPressed(key) => key.DigitKey? ==> IsDigit(key.d)
    case AnswerEdited(_) => true
    case EnterPressed => true
  }

  function Step(s: Session, e: Event): Session
    requires s.level < |s.highScores| && Enabled(s, e)
  {
    match e
    case StartClicked => StartGame(s)
    case InitialLevelChosen(level, draws) => InitialLevelSelect(s, level, draws)
    case OptionsClicked => OpenOptions(s)
    case OptionsClosed => CloseOptions(s)
    case ModalLevelChosen(level, draws) => ModalLevelSelect(s, level, draws)
    case TimerTicked => Tick(s)
    case FeedbackDelayExpired(draws) => FeedbackExpired(s, draws)
    case KeyPressed(key) => PressKey(s, key)
    case AnswerEdited(value) => EditAnswer(s, value)
    case EnterPressed => PressEnter(s)
  }
}
