/**
 * The electives advisor page: choosing the electives to compare, and the checks made
 * before the comparison is requested.
 */
module ElectivesAdvisor {
  import opened Wrappers

  /** `prev.filter(e => e !== name)`: every entry but `name`, in order. */
  function Without(s: seq<string>, name: string): (r: seq<string>)
    ensures name !in r
    ensures forall x :: x in r <==> x in s && x != name
    ensures |r| <= |s|
    ensures multiset(r) == multiset(s)[name := 0]
  {
    if |s| == 0 then []
    else
      assert s == [s[0]] + s[1..];
      if s[0] == name then Without(s[1..], name)
      else [s[0]] + Without(s[1..], name)
  }

  /** The filter works entry by entry: filtering a concatenation filters each part, in order. */
  lemma {:induction false} WithoutAppend(s: seq<string>, t: seq<string>, name: string)
    ensures Without(s + t, name) == Without(s, name) + Without(t, name)
  {
    if |s| > 0 {
      assert (s + t)[0] == s[0] && (s + t)[1..] == s[1..] + t;
      WithoutAppend(s[1..], t, name);
    } else {
      assert s + t == t;
    }
  }

  /** A single entry is kept exactly when it is not `name`. */
  lemma WithoutOne(x: string, name: string)
    ensures Without([x], name) == if x == name then [] else [x]
  {
    assert [x][1..] == [];
  }

  /**
   * `handleElectiveToggle`: a name already selected is removed, every occurrence of it;
   * any other name is appended at the end.
   */
  function Toggle(selected: seq<string>, name: string): (r: seq<string>)
    ensures name in r <==> name !in selected
    ensures forall x | x != name :: x in r <==> x in selected
  {
    if name in selected then Without(selected, name) else selected + [name]
  }

  /** Toggling a name that is not selected appends it and keeps the rest in place. */
  lemma ToggleAbsentAppends(selected: seq<string>, name: string)
    requires name !in selected
    ensures Toggle(selected, name) == selected + [name]
  {
  }

  /** Toggling a selected name leaves no occurrence of it, and every other name as it was. */
  lemma TogglePresentRemoves(selected: seq<string>, name: string)
    requires name in selected
    ensures name !in Toggle(selected, name)
    ensures forall x | x != name :: x in Toggle(selected, name) <==> x in selected
    ensures |Toggle(selected, name)| < |selected|
  {
    WithoutShrinks(selected, name);
  }

  lemma {:induction false} WithoutShrinks(s: seq<string>, name: string)
    requires name in s
    ensures |Without(s, name)| < |s|
  {
    if s[0] != name {
      assert name in s[1..];
      WithoutShrinks(s[1..], name);
    }
  }

  /** Removing a name that does not occur changes nothing. */
  lemma {:induction false} WithoutAbsent(s: seq<string>, name: string)
    requires name !in s
    ensures Without(s, name) == s
  {
    if |s| > 0 {
      assert name !in s[1..];
      WithoutAbsent(s[1..], name);
      assert [s[0]] + s[1..] == s;
    }
  }

  /** Removing a name is not disturbed by an occurrence appended at the end. */
  lemma {:induction false} WithoutAppended(s: seq<string>, name: string)
    ensures Without(s + [name], name) == Without(s, name)
  {
    if |s| == 0 {
      assert [name][1..] == [];
    } else {
      assert (s + [name])[1..] == s[1..] + [name];
      WithoutAppended(s[1..], name);
    }
  }

  /** Toggling the same unselected name twice restores the selection exactly. */
  lemma ToggleTwiceRestores(selected: seq<string>, name: string)
    requires name !in selected
    ensures Toggle(Toggle(selected, name), name) == selected
  {
    assert name in selected + [name];
    WithoutAppended(selected, name);
    WithoutAbsent(selected, name);
  }

  predicate NoDuplicates(s: seq<string>) {
    forall i, j | 0 <= i < j < |s| :: s[i] != s[j]
  }

  lemma {:induction false} WithoutNoDuplicates(s: seq<string>, name: string)
    requires NoDuplicates(s)
    ensures NoDuplicates(Without(s, name))
  {
    if |s| > 0 {
      assert NoDuplicates(s[1..]) by {
        forall i, j | 0 <= i < j < |s[1..]| ensures s[1..][i] != s[1..][j] {
          assert s[1..][i] == s[i + 1] && s[1..][j] == s[j + 1];
        }
      }
      WithoutNoDuplicates(s[1..], name);
      if s[0] != name {
        var t := Without(s[1..], name);
        assert s[0] !in s[1..] by {
          forall k | 0 <= k < |s[1..]| ensures s[1..][k] != s[0] {
            assert s[1..][k] == s[k + 1];
          }
        }
        assert s[0] !in t;
        var r := [s[0]] + t;
        forall i, j | 0 <= i < j < |r| ensures r[i] != r[j] {
          if i == 0 {
            assert r[j] == t[j - 1];
          } else {
            assert r[i] == t[i - 1] && r[j] == t[j - 1];
          }
        }
      }
    }
  }

  /** A selection built by toggling never holds the same elective twice. */
  lemma ToggleKeepsNoDuplicates(selected: seq<string>, name: string)
    requires NoDuplicates(selected)
    ensures NoDuplicates(Toggle(selected, name))
  {
    if name in selected {
      WithoutNoDuplicates(selected, name);
    } else {
      var r := selected + [name];
      forall i, j | 0 <= i < j < |r| ensures r[i] != r[j] {
        if j == |selected| {
          assert r[i] == selected[i];
        } else {
          assert r[i] == selected[i] && r[j] == selected[j];
        }
      }
    }
  }

  /** What the comparison of electives returns; its fields are only displayed. */
  datatype AnalysisResult = AnalysisResult(comparisonSummary: string)

  /** The comparison request `handleAnalyze` posts. */
  datatype AnalysisRequest = AnalysisRequest(selectedElectives: seq<string>, targetSemester: string, careerGoal: string)

  /** What the request yields: the parsed result, or any failure (a refused status, a network error). */
  datatype AnalysisResponse = Analyzed(data: AnalysisResult) | AnalysisFailed

  const NoSemesterMessage := "Please select your upcoming semester"
  const NoElectiveMessage := "Please select at least one elective to analyze"
  const AnalysisFailedMessage := "Failed to analyze electives. Please try again."

  /**
   * The check at the top of `handleAnalyze`: the message shown when the comparison may
   * not start. A missing semester is reported before an empty selection.
   */
  function AnalyzeRejection(targetSemester: string, selected: seq<string>): (m: Option<string>)
    ensures m.None? <==> targetSemester != "" && |selected| > 0
    ensures targetSemester == "" ==> m == Some(NoSemesterMessage)
    ensures targetSemester != "" && |selected| == 0 ==> m == Some(NoElectiveMessage)
  {
    if targetSemester == "" then Some(NoSemesterMessage)
    else if |selected| == 0 then Some(NoElectiveMessage)
    else None
  }

  class ElectivesAdvisorPage {
    var targetSemester: string
    var careerGoal: string
    var selectedElectives: seq<string>
    var isAnalyzing: bool
    var result: Option<AnalysisResult>
    /** The comparison requests sent, oldest first. */
    var requests: seq<AnalysisRequest>
    /** The error toasts shown, oldest first. */
    var errors: seq<string>

    /** The page opens with the profile's recommended path as its career goal, when there is one. */
    constructor (recommendedPathId: Option<string>)
      ensures targetSemester == "" && careerGoal == recommendedPathId.GetOr("")
      ensures selectedElectives == [] && !isAnalyzing && result == None
      ensures requests == [] && errors == []
    {
      targetSemester := "";
      careerGoal := recommendedPathId.GetOr("");
      selectedElectives := [];
      isAnalyzing := false;
      result := None;
      requests := [];
      errors := [];
    }

    method SetTargetSemester(semester: string)
      modifies this`targetSemester
      ensures targetSemester == semester
    {
      targetSemester := semester;
    }

    method SetCareerGoal(goal: string)
      modifies this`careerGoal
      ensures careerGoal == goal
    {
      careerGoal := goal;
    }

    /** `handleElectiveToggle`. */
    method HandleElectiveToggle(name: string)
      modifies this`selectedElectives
      ensures selectedElectives == Toggle(old(selectedElectives), name)
    {
      selectedElectives := Toggle(selectedElectives, name);
    }

    /**
     * `handleAnalyze`: without a target semester or without a selected elective, an
     * error is shown and nothing else happens. Otherwise the previous result is cleared
     * and the request is sent; a success shows the new result, a failure an error, and
     * either way the analysis is over.
     */
    method HandleAnalyze(resp: AnalysisResponse)
      modifies this`isAnalyzing, this`result, this`requests, this`errors
      ensures var rejected := AnalyzeRejection(old(targetSemester), old(selectedElectives));
              rejected.Some? ==>
                errors == old(errors) + [rejected.value] && requests == old(requests)
                && isAnalyzing == old(isAnalyzing) && result == old(result)
      ensures AnalyzeRejection(old(targetSemester), old(selectedElectives)).None? ==>
                && requests == old(requests) + [AnalysisRequest(selectedElectives, targetSemester, careerGoal)]
                && !isAnalyzing
                && (resp.Analyzed? ==> result == Some(resp.data) && errors == old(errors))
                && (resp.AnalysisFailed? ==> result == None && errors == old(errors) + [AnalysisFailedMessage])
    {
      var rejected := AnalyzeRejection(targetSemester, selectedElectives);
      if rejected.Some? {
        errors := errors + [rejected.value];
        return;
      }
      isAnalyzing := true;
      result := None;
      requests := requests + [AnalysisRequest(selectedElectives, targetSemester, careerGoal)];
      match resp {
        case Analyzed(data) =>
          result := Some(data);
        case AnalysisFailed =>
          errors := errors + [AnalysisFailedMessage];
      }
      isAnalyzing := false;
    }
  }
}
