/**
 * The labels and numbers the bot derives from one Plex session or library
 * section before showing them.
 */
module Labels {
  import opened Text

  const MovieLabel := "Película"
  const EpisodeLabel := "Episodio"
  const ShowLabel := "Serie"

  /**
   * The "Tipo" shown for a playback session: the two known kinds get a
   * Spanish label; any other raw type is shown capitalized, which changes
   * letter case only and is already in capitalized form.
   */
  function SessionTypeLabel(kind: string): (shown: string)
    ensures kind == "movie" ==> shown == MovieLabel
    ensures kind == "episode" ==> shown == EpisodeLabel
    ensures kind != "movie" && kind != "episode" ==>
              |shown| == |kind| && LowerAll(shown) == LowerAll(kind) && Capitalize(shown) == shown
  {
    if kind == "movie" then MovieLabel
    else if kind == "episode" then EpisodeLabel
    else
      CapitalizeCaseOnly(kind);
      Capitalize(kind)
  }

  /** The "Tipo" shown for a library section: `movie`, `show`, otherwise capitalized. */
  function SectionTypeLabel(kind: string): (shown: string)
    ensures kind == "movie" ==> shown == MovieLabel
    ensures kind == "show" ==> shown == ShowLabel
    ensures kind != "movie" && kind != "show" ==>
              |shown| == |kind| && LowerAll(shown) == LowerAll(kind) && Capitalize(shown) == shown
  {
    if kind == "movie" then MovieLabel
    else if kind == "show" then ShowLabel
    else
      CapitalizeCaseOnly(kind);
      Capitalize(kind)
  }

  /**
   * The two mappings agree on every raw type except the one each of them
   * knows and the other does not: `episode` and `show`.
   */
  lemma SessionAndSectionLabelsDiffer(kind: string)
    ensures SessionTypeLabel(kind) == SectionTypeLabel(kind) <==> kind != "episode" && kind != "show"
  {
    if kind == "episode" {
      assert |SectionTypeLabel(kind)| == 7 != |EpisodeLabel|;
    } else if kind == "show" {
      assert |SessionTypeLabel(kind)| == 4 != |ShowLabel|;
    }
  }

  /**
   * `viewOffset // 60000`: whole minutes played, rounded down (Python's floor
   * division; for the positive divisor it is Dafny's division).
   */
  function ProgressMinutes(viewOffset: int): (minutes: int)
    ensures minutes * 60000 <= viewOffset < minutes * 60000 + 60000
  {
    viewOffset / 60000
  }

  /** Progress truncates: one millisecond short of a minute is still zero minutes. */
  lemma ProgressTruncates()
    ensures ProgressMinutes(59999) == 0 && ProgressMinutes(60000) == 1
    ensures ProgressMinutes(119999) == 1
  {
  }

  /** More time played never shows fewer minutes. */
  lemma ProgressMonotone(a: int, b: int)
    requires a <= b
    ensures ProgressMinutes(a) <= ProgressMinutes(b)
  {
  }
}
