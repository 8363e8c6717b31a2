/**
 * The persisted high-score record. The stored value is `None` when the
 * key is missing, cannot be parsed or is not an array; otherwise it is the
 * parsed array. Only an array of exactly NUM_LEVELS entries is accepted.
 */
module Scores {
  import opened Wrappers
  import opened Config

  /** A record of one zero per level. */
  function ZeroScores(): (r: seq<int>)
    ensures |r| == NUM_LEVELS && forall l :: 0 <= l < |r| ==> r[l] == 0
  {
    seq(NUM_LEVELS, _ => 0)
  }

  /** The stored value is an array with one entry per level. */
  predicate IsValidRecord(stored: Option<seq<int>>) {
    stored.Some? && |stored.value| == NUM_LEVELS
  }

  /** The record `loadHighScores` installs: the stored array when valid, all zeros otherwise. */
  function LoadedScores(stored: Option<seq<int>>): (r: seq<int>)
    ensures |r| == NUM_LEVELS
    ensures IsValidRecord(stored) ==> r == stored.value
    ensures !IsValidRecord(stored) ==> forall l :: 0 <= l < |r| ==> r[l] == 0
  {
    if IsValidRecord(stored) then stored.value else ZeroScores()
  }

  /** What storage holds after `loadHighScores`: an invalid value is removed. */
  function StoredAfterLoad(stored: Option<seq<int>>): (r: Option<seq<int>>)
    ensures IsValidRecord(stored) ==> r == stored
    ensures !IsValidRecord(stored) ==> r == None
  {
    if IsValidRecord(stored) then stored else None
  }

  /** Saving the loaded record and loading it again gives the same record. */
  lemma SaveThenLoad(stored: Option<seq<int>>)
    ensures LoadedScores(Some(LoadedScores(stored))) == LoadedScores(stored)
    ensures IsValidRecord(stored) ==> Some(LoadedScores(stored)) == stored
  {
  }
}
