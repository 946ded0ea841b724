/**
 * The high-score record of storage/mod.rs: one best score per difficulty,
 * the migration of the legacy single-score file, and the order in which a
 * stored file is interpreted. File access and TOML parsing are parameters.
 */
module Storage {
  import opened Utils

  /** The best score per difficulty tier (HighScores). */
  datatype HighScores = HighScores(easy: nat, medium: nat, hard: nat)
  {
    function Get(difficulty: Difficulty): nat
    {
      match difficulty
      case Easy => easy
      case Medium => medium
      case Hard => hard
    }

    /** The record with one tier's score replaced. */
    function Set(difficulty: Difficulty, score: nat): (r: HighScores)
      ensures r.Get(difficulty) == score
      ensures forall other :: other != difficulty ==> r.Get(other) == Get(other)
    {
      match difficulty
      case Easy => this.(easy := score)
      case Medium => this.(medium := score)
      case Hard => this.(hard := score)
    }
  }

  /** HighScores::default(). */
  function DefaultHighScores(): (r: HighScores)
    ensures forall d :: r.Get(d) == 0
  {
    HighScores(0, 0, 0)
  }

  /** The older file format that stored a single score. */
  datatype LegacyHighScoreFile = LegacyHighScoreFile(highScore: nat)

  /** Migration of a legacy file: its one score becomes the score of every tier. */
  function FromLegacy(value: LegacyHighScoreFile): (r: HighScores)
    ensures forall d :: r.Get(d) == value.highScore
  {
    HighScores(value.highScore, value.highScore, value.highScore)
  }

  /**
   * load_high_scores. `contents` is the file read (None when the read
   * fails); `parseCurrent` and `parseLegacy` are the two TOML readings of it.
   */
  function LoadHighScores(contents: Option<string>,
                          parseCurrent: string -> Option<HighScores>,
                          parseLegacy: string -> Option<LegacyHighScoreFile>): (r: HighScores)
    ensures contents.None? ==> r == DefaultHighScores()
    ensures contents.Some? && parseCurrent(contents.value).Some? ==> r == parseCurrent(contents.value).value
    ensures contents.Some? && parseCurrent(contents.value).None? && parseLegacy(contents.value).Some? ==>
              r == FromLegacy(parseLegacy(contents.value).value)
    ensures contents.Some? && parseCurrent(contents.value).None? && parseLegacy(contents.value).None? ==>
              r == DefaultHighScores()
  {
    match contents
    case None => DefaultHighScores()
    case Some(text) =>
      match parseCurrent(text)
      case Some(file) => file
      case None =>
        match parseLegacy(text)
        case Some(legacy) => FromLegacy(legacy)
        case None => DefaultHighScores()
  }

  /** Reading back what was just set gives it back; setting twice keeps the later score. */
  lemma SetThenGet(scores: HighScores, d: Difficulty, first: nat, second: nat)
    ensures scores.Set(d, first).Get(d) == first
    ensures scores.Set(d, first).Set(d, second) == scores.Set(d, second)
    ensures scores.Set(d, scores.Get(d)) == scores
  {
  }

  /**
   * A file in the current format is never read as a legacy file: whatever
   * the legacy reading yields, the current reading wins.
   */
  lemma CurrentFormatWins(text: string, parseCurrent: string -> Option<HighScores>,
                          parseLegacy: string -> Option<LegacyHighScoreFile>,
                          otherLegacy: string -> Option<LegacyHighScoreFile>)
    requires parseCurrent(text).Some?
    ensures LoadHighScores(Some(text), parseCurrent, parseLegacy) ==
            LoadHighScores(Some(text), parseCurrent, otherLegacy)
  {
  }
}
