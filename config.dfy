/**
 * The configuration constants of the drill: answer length, history size,
 * retry cap, the streak-tier time table and the five difficulty levels.
 * (The feedback delay and the tick interval only schedule callbacks; the
 * model replaces scheduling by explicit events and does not need them.)
 */
module Config {

  /** Maximum number of characters kept in the answer field. */
  const MAX_ANSWER_LENGTH := 6

  /** Number of recent problems remembered to avoid immediate repeats. */
  const PROBLEM_HISTORY_SIZE := 4

  /** The retry loop of problem generation stops once the attempt counter exceeds this. */
  const MAX_ATTEMPTS := 50

  /** Number of difficulty levels, and the length of the high-score record. */
  const NUM_LEVELS := 5

  /** A row of the streak-tier table: from `streak` consecutive correct answers on, `time` seconds per question. */
  datatype Tier = Tier(streak: int, time: int)

  /** The tier table, sorted ascending by threshold. */
  const TIME_PER_STREAK: seq<Tier> := [Tier(0, 10), Tier(5, 8), Tier(10, 6), Tier(15, 5)]

  /** An inclusive integer range. */
  datatype Range = Range(lo: int, hi: int)

  /** A difficulty level: the inclusive ranges of the first and of the second factor. */
  datatype Level = Level(name: string, range1: Range, range2: Range)

  const LEVEL_DETAILS: seq<Level> := [
    Level("Basico", Range(1, 3), Range(0, 10)),
    Level("Medio", Range(4, 5), Range(0, 10)),
    Level("Medio Alto", Range(6, 7), Range(0, 10)),
    Level("Alto", Range(8, 9), Range(0, 10)),
    Level("Avanzado", Range(10, 99), Range(2, 9))
  ]
}
