/**
 * The "Your Journey" card on the dashboard: the progress score, the entries listed,
 * the encouragement line and the view-all toggle, all derived from the progress
 * statistics.
 */
module ProgressSection {
  import opened Wrappers
  import opened Text
  import opened UserProgress

  /** The most entries listed while the card is collapsed. */
  const CollapsedCount: nat := 4

  /** `semesterNumber || 1`: a missing semester, or semester 0, counts as the first. */
  function SemesterOrFirst(semesterNumber: Option<int>): (s: int)
    ensures semesterNumber.Some? && semesterNumber.value != 0 ==> s == semesterNumber.value
    ensures semesterNumber.None? || semesterNumber.value == 0 ==> s == 1
  {
    if semesterNumber.Some? && semesterNumber.value != 0 then semesterNumber.value else 1
  }

  /** `Math.min(100, total * 10 + (semesterNumber || 1) * 5)`. */
  function ProgressScore(total: nat, semesterNumber: Option<int>): (score: int)
    ensures score <= 100
    ensures score == 100 || score == total * 10 + SemesterOrFirst(semesterNumber) * 5
    ensures total * 10 + SemesterOrFirst(semesterNumber) * 5 >= 100 ==> score == 100
    ensures total * 10 + SemesterOrFirst(semesterNumber) * 5 < 100 ==> score == total * 10 + SemesterOrFirst(semesterNumber) * 5
  {
    var raw := total * 10 + SemesterOrFirst(semesterNumber) * 5;
    if raw < 100 then raw else 100
  }

  /** Tracking more never lowers the score. */
  lemma ScoreMonotone(t: nat, u: nat, semesterNumber: Option<int>)
    requires t <= u
    ensures ProgressScore(t, semesterNumber) <= ProgressScore(u, semesterNumber)
  {
  }

  /** From ten entries on, any student with a non-negative semester has the full score. */
  lemma ScoreFullFromTenEntries(total: nat, semesterNumber: Option<int>)
    requires total >= 10
    requires semesterNumber.Some? ==> semesterNumber.value >= 0
    ensures ProgressScore(total, semesterNumber) == 100
  {
  }

  /**
   * `showAll ? progressEntries : (progressEntries?.slice(0, 4) || [])`: all entries
   * (possibly not loaded) when expanded, otherwise the first four, none while loading.
   */
  function DisplayedEntries(entries: Option<seq<Entry>>, showAll: bool): (shown: Option<seq<Entry>>)
    ensures showAll ==> shown == entries
    ensures !showAll ==> shown.Some? && |shown.value| <= CollapsedCount
    ensures !showAll && entries.None? ==> shown == Some([])
    ensures !showAll && entries.Some? ==> shown.value <= entries.value
                                          && |shown.value| == if |entries.value| < CollapsedCount then |entries.value| else CollapsedCount
  {
    if showAll then entries else Some(Take(entries.GetOr([]), CollapsedCount))
  }

  /** `progressEntries.length > 4`: whether the "View All" toggle is shown. */
  predicate HasViewAllToggle(entries: Option<seq<Entry>>) {
    entries.Some? && |entries.value| > CollapsedCount
  }

  /** The toggle is offered exactly when the collapsed list leaves entries out. */
  lemma ToggleIffHidden(entries: Option<seq<Entry>>)
    ensures HasViewAllToggle(entries) <==>
              entries.Some? && DisplayedEntries(entries, false).value != entries.value
  {
    if entries.Some? && |entries.value| <= CollapsedCount {
      assert Take(entries.value, CollapsedCount) == entries.value;
    }
  }

  const StartMessage := "Start tracking your accomplishments!"
  const GreatStartMessage := "Great start! Keep adding your achievements."
  const ExcellentMessage := "You're making excellent progress!"
  const AmazingMessage := "Amazing journey! You're on fire! \U{F0}\U{178}\U{201D}\U{A5}"

  /** `cond && "text"` in JSX: the text when the condition holds, nothing otherwise. */
  function When(cond: bool, text: string): seq<string> {
    if cond then [text] else []
  }

  /** The four conditional encouragement lines, as rendered one after the other. */
  function Encouragement(total: nat): seq<string> {
    When(total == 0, StartMessage)
    + When(total > 0 && total < 5, GreatStartMessage)
    + When(total >= 5 && total < 10, ExcellentMessage)
    + When(total >= 10, AmazingMessage)
  }

  /** Whatever the total, exactly one encouragement line is shown, the one for its tier. */
  lemma ExactlyOneEncouragement(total: nat)
    ensures |Encouragement(total)| == 1
    ensures total == 0 ==> Encouragement(total) == [StartMessage]
    ensures 1 <= total < 5 ==> Encouragement(total) == [GreatStartMessage]
    ensures 5 <= total < 10 ==> Encouragement(total) == [ExcellentMessage]
    ensures total >= 10 ==> Encouragement(total) == [AmazingMessage]
  {
  }
}
