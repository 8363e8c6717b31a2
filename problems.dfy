/**
 * Problem generation: candidate pairs are drawn from the level's ranges
 * until one is not among the recent problems or the attempt counter
 * passes its cap; the accepted pair is pushed at the front of a bounded
 * most-recent-first history. The random number generator is an oracle:
 * `draws[k]` is the candidate pair of the (k+1)-th attempt.
 */
module Problems {
  import opened Config

  /** The two factors of a problem, compared as an ordered pair. */
  datatype Pair = Pair(n1: int, n2: int)

  /** The answer to a problem: the product of its factors (see `AnswerIsProduct`). */
  function Answer(p: Pair): int {
    Product(p.n1, p.n2)
  }

  /**
   * `a * b` as `a` added `|b|` times. Written by recursion so that the
   * session proofs never face a nonlinear term; `ProductIsMultiplication`
   * shows it is the ordinary product.
   */
  function Product(a: int, b: int): int
    decreases if b < 0 then -b else b
  {
    if b == 0 then 0
    else if b > 0 then Product(a, b - 1) + a
    else Product(a, b + 1) - a
  }

  lemma {:induction false} ProductIsMultiplication(a: int, b: int)
    ensures Product(a, b) == a * b
    decreases if b < 0 then -b else b
  {
    if b > 0 {
      ProductIsMultiplication(a, b - 1);
    } else if b < 0 {
      ProductIsMultiplication(a, b + 1);
    }
  }

  /** `correctAnswer = num1 * num2`. */
  lemma AnswerIsProduct(p: Pair)
    ensures Answer(p) == p.n1 * p.n2
  {
    ProductIsMultiplication(p.n1, p.n2);
  }

  /** The most draws the retry loop can consume. */
  const MAX_DRAWS := MAX_ATTEMPTS + 1

  /** Both factors lie in the inclusive ranges of the given level. */
  predicate InLevel(level: nat, p: Pair) {
    level < |LEVEL_DETAILS| &&
    LEVEL_DETAILS[level].range1.lo <= p.n1 <= LEVEL_DETAILS[level].range1.hi &&
    LEVEL_DETAILS[level].range2.lo <= p.n2 <= LEVEL_DETAILS[level].range2.hi
  }

  /** An oracle for the random draws of one generation at the given level. */
  predicate ValidDraws(level: nat, draws: seq<Pair>) {
    level < NUM_LEVELS && |draws| >= MAX_DRAWS &&
    forall k :: 0 <= k < |draws| ==> InLevel(level, draws[k])
  }

  /**
   * The number of draws the retry loop consumes when it is at draw `i`:
   * it stops at the first draw not in the history, or when the attempt
   * counter exceeds MAX_ATTEMPTS, whichever comes first.
   */
  function DrawsFrom(history: seq<Pair>, draws: seq<Pair>, i: nat): (k: nat)
    requires i < MAX_DRAWS <= |draws|
    ensures i < k <= MAX_DRAWS
    ensures forall j :: i <= j < k - 1 ==> draws[j] in history
    ensures draws[k - 1] !in history || k == MAX_DRAWS
    decreases MAX_DRAWS - i
  {
    var attempts := i + 1;
    if draws[i] !in history || attempts > MAX_ATTEMPTS then attempts
    else DrawsFrom(history, draws, i + 1)
  }

  /** The number of draws one generation consumes. */
  function DrawCount(history: seq<Pair>, draws: seq<Pair>): nat
    requires MAX_DRAWS <= |draws|
  {
    DrawsFrom(history, draws, 0)
  }

  /** The do-while retry loop of problem generation. */
  method DrawProblem(level: nat, history: seq<Pair>, draws: seq<Pair>) returns (p: Pair, attempts: nat)
    requires ValidDraws(level, draws)
    ensures attempts == DrawCount(history, draws) && p == draws[attempts - 1]
    ensures 1 <= attempts <= MAX_DRAWS
    ensures InLevel(level, p)
    ensures p !in history || attempts == MAX_DRAWS
    ensures forall j :: 0 <= j < attempts - 1 ==> draws[j] in history
  {
    attempts := 0;
    while true
      invariant 0 <= attempts <= MAX_ATTEMPTS
      invariant DrawsFrom(history, draws, attempts) == DrawCount(history, draws)
      decreases MAX_ATTEMPTS - attempts
    {
      p := draws[attempts];
      var isRecent := p in history;
      attempts := attempts + 1;
      if !isRecent || attempts > MAX_ATTEMPTS {
        break;
      }
    }
  }

  /** `history.unshift(p)` followed by one `pop()` when the history then exceeds its size. */
  function PushHistory(history: seq<Pair>, p: Pair): (r: seq<Pair>)
    ensures |r| == if |history| < PROBLEM_HISTORY_SIZE then |history| + 1 else |history|
    ensures r[0] == p
    ensures forall i :: 1 <= i < |r| ==> r[i] == history[i - 1]
  {
    var h := [p] + history;
    if |h| > PROBLEM_HISTORY_SIZE then h[..|h| - 1] else h
  }

  /** A history that was within its size stays within it, and the level's ranges are kept. */
  lemma PushHistoryKeepsBounds(level: nat, history: seq<Pair>, p: Pair)
    requires |history| <= PROBLEM_HISTORY_SIZE
    requires forall i :: 0 <= i < |history| ==> InLevel(level, history[i])
    requires InLevel(level, p)
    ensures |PushHistory(history, p)| <= PROBLEM_HISTORY_SIZE
    ensures forall i :: 0 <= i < |PushHistory(history, p)| ==> InLevel(level, PushHistory(history, p)[i])
  {
    var r := PushHistory(history, p);
    forall i | 0 <= i < |r|
      ensures InLevel(level, r[i])
    {
      if i > 0 {
        assert r[i] == history[i - 1];
      }
    }
  }

  /**
   * When any of the MAX_DRAWS draws the loop may consume is not a recent
   * problem, the accepted pair is not a recent problem.
   */
  lemma FreshWhenAvailable(history: seq<Pair>, draws: seq<Pair>, j: nat)
    requires MAX_DRAWS <= |draws|
    requires j < MAX_DRAWS && draws[j] !in history
    ensures draws[DrawCount(history, draws) - 1] !in history
  {
  }
}
