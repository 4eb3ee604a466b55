/** The statistics and the text summary the progress hook derives from a user's progress entries. */
module UserProgress {
  import opened Wrappers
  import opened Text

  datatype ProgressType =
    | SkillLearned | ProjectCompleted | RoadmapStarted | ElectiveAdded
    | MilestoneReached | GoalSet | ConversationInsight

  /** The fields of a progress entry the statistics and the summary read. */
  datatype Entry = Entry(progressType: ProgressType, title: string)

  /** What `getStats` returns; `recentEntries` is absent while the entries have not loaded. */
  datatype Stats = Stats(total: nat, byType: map<ProgressType, nat>, recentEntries: Option<seq<Entry>>)

  /** The number of entries of type `t`. */
  function Count(es: seq<Entry>, t: ProgressType): nat {
    if |es| == 0 then 0
    else Count(es[..|es| - 1], t) + (if es[|es| - 1].progressType == t then 1 else 0)
  }

  function CountAll(es: seq<Entry>): nat {
    Count(es, SkillLearned) + Count(es, ProjectCompleted) + Count(es, RoadmapStarted)
    + Count(es, ElectiveAdded) + Count(es, MilestoneReached) + Count(es, GoalSet)
    + Count(es, ConversationInsight)
  }

  /** Every entry has exactly one type, so the per-type counts add up to the number of entries. */
  lemma {:induction false} CountsSumToTotal(es: seq<Entry>)
    ensures CountAll(es) == |es|
  {
    if |es| > 0 {
      CountsSumToTotal(es[..|es| - 1]);
    }
  }

  /** The counts of a map that holds exactly the types present, each with its count. */
  predicate CountsOf(m: map<ProgressType, nat>, es: seq<Entry>) {
    forall t :: (t in m <==> Count(es, t) > 0) && (t in m ==> m[t] == Count(es, t))
  }

  /**
   * `getStats`: for loaded entries, their number, the count of each type present
   * (types without entries have no key), and the first five entries in order.
   */
  method GetStats(entries: Option<seq<Entry>>) returns (s: Stats)
    ensures entries.None? ==> s == Stats(0, map[], None)
    ensures entries.Some? ==>
              && s.total == |entries.value|
              && CountsOf(s.byType, entries.value)
              && s.recentEntries == Some(Take(entries.value, 5))
  {
    if entries.None? {
      return Stats(0, map[], None);
    }
    var es := entries.value;
    var byType: map<ProgressType, nat> := map[];
    for i := 0 to |es|
      invariant CountsOf(byType, es[..i])
    {
      assert es[..i + 1][..i] == es[..i];
      var t := es[i].progressType;
      byType := byType[t := (if t in byType then byType[t] else 0) + 1];
    }
    assert es[..|es|] == es;
    return Stats(|es|, byType, Some(Take(es, 5)));
  }

  /**
   * `filter(p => p.progress_type === t).map(p => p.title)`: one title per entry of
   * type `t`, each the title of such an entry, and no entry of type `t` left out.
   */
  function TitlesOf(es: seq<Entry>, t: ProgressType): (ts: seq<string>)
    ensures |ts| == Count(es, t)
    ensures forall k | 0 <= k < |ts| :: Entry(t, ts[k]) in es
    ensures forall j | 0 <= j < |es| && es[j].progressType == t :: es[j].title in ts
  {
    if |es| == 0 then []
    else TitlesOf(es[..|es| - 1], t) + (if es[|es| - 1].progressType == t then [es[|es| - 1].title] else [])
  }

  /** The titles are taken entry by entry, in order: those of a concatenation are those of each part. */
  lemma {:induction false} TitlesOfAppend(es: seq<Entry>, fs: seq<Entry>, t: ProgressType)
    ensures TitlesOf(es + fs, t) == TitlesOf(es, t) + TitlesOf(fs, t)
    decreases |fs|
  {
    if |fs| == 0 {
      assert es + fs == es;
    } else {
      var init := fs[..|fs| - 1];
      assert (es + fs)[..|es + fs| - 1] == es + init;
      TitlesOfAppend(es, init, t);
    }
  }

  /** A single entry contributes its title exactly when it has the type. */
  lemma TitlesOfOne(e: Entry, t: ProgressType)
    ensures TitlesOf([e], t) == if e.progressType == t then [e.title] else []
  {
    assert [e][..0] == [];
  }

  /** The summary's line for one type: present only when the type has entries. */
  function SummaryLine(es: seq<Entry>, t: ProgressType, heading: string): seq<string> {
    var ts := TitlesOf(es, t);
    if |ts| > 0 then [heading + Join(ts, ", ")] else []
  }

  /** The summary's lines, in their fixed order: skills, projects, roadmaps, milestones, goals. */
  function SummaryLines(es: seq<Entry>): seq<string> {
    SummaryLine(es, SkillLearned, "Skills learned: ")
    + SummaryLine(es, ProjectCompleted, "Projects completed: ")
    + SummaryLine(es, RoadmapStarted, "Career roadmaps started: ")
    + SummaryLine(es, MilestoneReached, "Milestones reached: ")
    + SummaryLine(es, GoalSet, "Goals set: ")
  }

  /**
   * `getProgressSummary`: a fixed sentence when there are no entries, otherwise one
   * line per summarised type that has entries, joined by "\n".
   */
  method GetProgressSummary(entries: Option<seq<Entry>>) returns (text: string)
    ensures entries.None? || entries.value == [] ==> text == "No progress tracked yet."
    ensures entries.Some? && entries.value != [] ==> text == Join(SummaryLines(entries.value), "\n")
  {
    if entries.None? || |entries.value| == 0 {
      return "No progress tracked yet.";
    }
    var es := entries.value;
    var summary: seq<string> := [];
    var skills := TitlesOf(es, SkillLearned);
    if |skills| > 0 {
      summary := summary + ["Skills learned: " + Join(skills, ", ")];
    }
    assert summary == SummaryLine(es, SkillLearned, "Skills learned: ");
    var projects := TitlesOf(es, ProjectCompleted);
    if |projects| > 0 {
      summary := summary + ["Projects completed: " + Join(projects, ", ")];
    }
    assert summary == SummaryLine(es, SkillLearned, "Skills learned: ")
              + SummaryLine(es, ProjectCompleted, "Projects completed: ");
    var roadmaps := TitlesOf(es, RoadmapStarted);
    if |roadmaps| > 0 {
      summary := summary + ["Career roadmaps started: " + Join(roadmaps, ", ")];
    }
    assert summary == SummaryLine(es, SkillLearned, "Skills learned: ")
              + SummaryLine(es, ProjectCompleted, "Projects completed: ")
              + SummaryLine(es, RoadmapStarted, "Career roadmaps started: ");
    var milestones := TitlesOf(es, MilestoneReached);
    if |milestones| > 0 {
      summary := summary + ["Milestones reached: " + Join(milestones, ", ")];
    }
    assert summary == SummaryLine(es, SkillLearned, "Skills learned: ")
              + SummaryLine(es, ProjectCompleted, "Projects completed: ")
              + SummaryLine(es, RoadmapStarted, "Career roadmaps started: ")
              + SummaryLine(es, MilestoneReached, "Milestones reached: ");
    var goals := TitlesOf(es, GoalSet);
    if |goals| > 0 {
      summary := summary + ["Goals set: " + Join(goals, ", ")];
    }
    assert summary == SummaryLine(es, SkillLearned, "Skills learned: ")
              + SummaryLine(es, ProjectCompleted, "Projects completed: ")
              + SummaryLine(es, RoadmapStarted, "Career roadmaps started: ")
              + SummaryLine(es, MilestoneReached, "Milestones reached: ")
              + SummaryLine(es, GoalSet, "Goals set: ");
    return Join(summary, "\n");
  }

  /** A type is mentioned in the summary exactly when it is summarised and has entries. */
  lemma SummaryLineCount(es: seq<Entry>)
    ensures |SummaryLines(es)| ==
              (if Count(es, SkillLearned) > 0 then 1 else 0) + (if Count(es, ProjectCompleted) > 0 then 1 else 0)
              + (if Count(es, RoadmapStarted) > 0 then 1 else 0) + (if Count(es, MilestoneReached) > 0 then 1 else 0)
              + (if Count(es, GoalSet) > 0 then 1 else 0)
  {
  }

  /** Electives and conversation insights are never summarised: entries of only those types give "". */
  lemma UnsummarisedTypesGiveEmptySummary(es: seq<Entry>)
    requires forall i | 0 <= i < |es| :: es[i].progressType in {ElectiveAdded, ConversationInsight}
    ensures SummaryLines(es) == [] && Join(SummaryLines(es), "\n") == ""
  {
    CountsSumToTotal(es);
    OnlyTwoTypes(es);
  }

  lemma {:induction false} OnlyTwoTypes(es: seq<Entry>)
    requires forall i | 0 <= i < |es| :: es[i].progressType in {ElectiveAdded, ConversationInsight}
    ensures Count(es, SkillLearned) == 0 && Count(es, ProjectCompleted) == 0 && Count(es, RoadmapStarted) == 0
    ensures Count(es, MilestoneReached) == 0 && Count(es, GoalSet) == 0
  {
    if |es| > 0 {
      OnlyTwoTypes(es[..|es| - 1]);
    }
  }
}
