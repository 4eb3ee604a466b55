/**
 * The onboarding wizard: choosing a semester, an introduction for its bucket, then one
 * survey question per step; on completion the answers become profile fields and are
 * saved as survey responses.
 */
module Onboarding {
  import opened Wrappers
  import opened SurveyQuestions

  datatype Phase = SemesterPhase | IntroPhase | SurveyPhase

  /** The semester as its radio button stores it: one of the digits '1' to '8'. */
  function SemesterLabel(semester: nat): (digit: string)
    requires 1 <= semester <= 8
    ensures |digit| == 1 && '1' <= digit[0] <= '8'
  {
    [(('0' as int) + semester) as char]
  }

  /** `parseInt` of a semester label gives back the semester. */
  function ParseSemesterLabel(digit: string): (semester: nat)
    requires |digit| == 1 && '1' <= digit[0] <= '8'
    ensures 1 <= semester <= 8
  {
    (digit[0] as int) - ('0' as int)
  }

  lemma ParseSemesterLabelInverts(semester: nat)
    requires 1 <= semester <= 8
    ensures ParseSemesterLabel(SemesterLabel(semester)) == semester
  {
  }

  /** The survey for a semester, none while no semester is chosen. */
  function QuestionsFor(semester: Option<nat>): seq<SurveyQuestion> {
    if semester.None? then [] else SurveyQuestionsFor(GetSemesterBucket(semester.value))
  }

  /** Every bucket asks at least one question, so survey step 0 always exists. */
  lemma SurveyNeverEmpty(b: SemesterBucket)
    ensures |SurveyQuestionsFor(b)| >= 4
  {
    QuestionCounts();
  }

  /** `totalSteps`: the semester step, the introduction, and one step per question. */
  function TotalSteps(questionCount: nat): nat {
    2 + questionCount
  }

  /**
   * `currentStepNumber`: 1 while choosing the semester, 2 on the introduction, and the
   * question's position after those two in the survey. It never exceeds the total while
   * the survey step is a question of the survey.
   */
  function CurrentStepNumber(phase: Phase, surveyStep: nat, questionCount: nat): (n: nat)
    ensures phase == SemesterPhase ==> n == 1
    ensures phase == IntroPhase ==> n == 2
    ensures phase == SurveyPhase ==> n == 3 + surveyStep
    ensures phase == SurveyPhase && surveyStep < questionCount ==> 3 <= n <= TotalSteps(questionCount)
    ensures 1 <= n
  {
    match phase
    case SemesterPhase => 1
    case IntroPhase => 2
    case SurveyPhase => 2 + surveyStep + 1
  }

  /** `answers.key` when it is truthy: present and not the empty string. */
  function Answer(answers: map<string, string>, key: string): (a: Option<string>)
    ensures a.Some? <==> key in answers && answers[key] != ""
    ensures a.Some? ==> a.value == answers[key]
  {
    if key in answers && answers[key] != "" then Some(answers[key]) else None
  }

  /** `settlingToStress[settling] || 'moderate'`. */
  function StressFromSettling(settling: string): string {
    if settling == "great" then "low"
    else if settling == "adjusting" then "moderate"
    else if settling == "struggling" then "high"
    else if settling == "need-support" then "severe"
    else "moderate"
  }

  const CareerClarities: seq<string> := ["confused", "exploring", "narrowing", "decided"]
  const StressLevels: seq<string> := ["low", "moderate", "high", "severe"]

  /** The stress levels the settling answers stand for: each a level, and no two alike. */
  lemma SettlingMapsToLevels(settling: string)
    ensures StressFromSettling(settling) in StressLevels
    ensures StressFromSettling("great") != StressFromSettling("adjusting")
    ensures StressFromSettling("adjusting") != StressFromSettling("struggling")
    ensures StressFromSettling("struggling") != StressFromSettling("need-support")
    ensures StressFromSettling("great") != StressFromSettling("need-support")
    ensures StressFromSettling("great") != StressFromSettling("struggling")
    ensures StressFromSettling("adjusting") != StressFromSettling("need-support")
    ensures settling !in ["great", "adjusting", "struggling", "need-support"] ==> StressFromSettling(settling) == "moderate"
  {
  }

  /** The profile fields `handleComplete` writes. */
  datatype ProfileData = ProfileData(
    semesterNumber: nat, semesterBucket: SemesterBucket, onboardingCompleted: bool,
    careerClarity: Option<string>, workStyle: Option<string>,
    stressLevel: Option<string>, primaryStruggle: Option<string>)

  /** `career_clarity`: the clarity answer, else 'exploring' for early students, else unset. */
  function CareerClarityFor(answers: map<string, string>, b: SemesterBucket): (c: Option<string>)
    ensures Answer(answers, "clarity").Some? ==> c == Answer(answers, "clarity")
    ensures Answer(answers, "clarity").None? ==> c == (if b == Early then Some("exploring") else None)
  {
    var clarity := Answer(answers, "clarity");
    if clarity.Some? then clarity
    else if b == Early then Some("exploring")
    else None
  }

  /** `stress_level`: the stress answer, else the level the settling answer stands for, else unset. */
  function StressLevelFor(answers: map<string, string>): (s: Option<string>)
    ensures Answer(answers, "stress").Some? ==> s == Answer(answers, "stress")
    ensures Answer(answers, "stress").None? && Answer(answers, "settling").Some? ==>
              s == Some(StressFromSettling(answers["settling"]))
    ensures s.None? <==> Answer(answers, "stress").None? && Answer(answers, "settling").None?
  {
    var stress := Answer(answers, "stress");
    var settling := Answer(answers, "settling");
    if stress.Some? then stress
    else if settling.Some? then Some(StressFromSettling(settling.value))
    else None
  }

  /** `primary_struggle`: the first answered of struggle, college_worry and job_blocker. */
  function PrimaryStruggleFor(answers: map<string, string>): (p: Option<string>)
    ensures p.None? <==> Answer(answers, "struggle").None? && Answer(answers, "college_worry").None?
                         && Answer(answers, "job_blocker").None?
    ensures Answer(answers, "struggle").Some? ==> p == Answer(answers, "struggle")
    ensures Answer(answers, "struggle").None? && Answer(answers, "college_worry").Some? ==>
              p == Answer(answers, "college_worry")
    ensures Answer(answers, "struggle").None? && Answer(answers, "college_worry").None? ==>
              p == Answer(answers, "job_blocker")
  {
    var struggle := Answer(answers, "struggle");
    var worry := Answer(answers, "college_worry");
    if struggle.Some? then struggle
    else if worry.Some? then worry
    else Answer(answers, "job_blocker")
  }

  /** The profile data for a chosen semester and the answers given. */
  function ProfileFor(semester: nat, answers: map<string, string>): ProfileData
    requires 1 <= semester <= 8
  {
    var b := GetSemesterBucket(semester);
    ProfileData(semester, b, true, CareerClarityFor(answers, b), Answer(answers, "workstyle"),
                StressLevelFor(answers), PrimaryStruggleFor(answers))
  }

  function QuestionKeys(qs: seq<SurveyQuestion>): (keys: seq<string>)
    ensures |keys| == |qs| && forall i | 0 <= i < |qs| :: keys[i] == Key(qs[i].id)
  {
    seq(|qs|, i requires 0 <= i < |qs| => Key(qs[i].id))
  }

  /** Only the semester and the keys of the chosen bucket's questions are ever answered. */
  predicate KeysOfSurvey(answers: map<string, string>, qs: seq<SurveyQuestion>) {
    forall k | k in answers :: k == "semester" || k in QuestionKeys(qs)
  }

  /** Question `i` of the survey is answered with one of its options. */
  predicate AnsweredWithOption(answers: map<string, string>, qs: seq<SurveyQuestion>, i: nat)
    requires i < |qs|
  {
    Key(qs[i].id) in answers && answers[Key(qs[i].id)] in qs[i].options
  }

  /** Every question of the survey is answered with one of its options, and nothing else is. */
  predicate CompleteSurvey(answers: map<string, string>, b: SemesterBucket) {
    var qs := SurveyQuestionsFor(b);
    KeysOfSurvey(answers, qs) && AnsweredAll(answers, qs)
  }

  predicate AnsweredAll(answers: map<string, string>, qs: seq<SurveyQuestion>) {
    forall i | 0 <= i < |qs| :: AnsweredWithOption(answers, qs, i)
  }

  /**
   * A survey completed with the offered options fills the profile in every bucket: the
   * career clarity and the stress level are values of their enumerations, a primary
   * struggle is recorded, and a work style exactly for the mid and final buckets.
   */
  lemma CompleteSurveyFillsProfile(semester: nat, answers: map<string, string>)
    requires 1 <= semester <= 8
    requires CompleteSurvey(answers, GetSemesterBucket(semester))
    ensures var p := ProfileFor(semester, answers);
            && p.careerClarity.Some? && p.careerClarity.value in CareerClarities
            && p.stressLevel.Some? && p.stressLevel.value in StressLevels
            && p.primaryStruggle.Some?
            && (p.workStyle.Some? <==> p.semesterBucket != Early)
  {
    match GetSemesterBucket(semester) {
      case Early =>
        EarlyProfile(answers);
        SettlingMapsToLevels(answers["settling"]);
      case Mid =>
        MidProfile(answers);
      case Final =>
        FinalProfile(answers);
    }
  }

  lemma EarlyKeys()
    ensures QuestionKeys(EarlyQuestions) == ["excitement", "learning_style", "college_worry", "settling"]
  {
  }

  /** A key that no early question has is never answered in an early survey. */
  lemma NotAnEarlyKey(answers: map<string, string>, k: string)
    requires KeysOfSurvey(answers, EarlyQuestions)
    requires k != "semester" && k !in ["excitement", "learning_style", "college_worry", "settling"]
    ensures k !in answers
  {
    EarlyKeys();
  }

  lemma EarlyOptions()
    ensures EarlyQuestions[2].id == CollegeWorry && EarlyQuestions[3].id == Settling
    ensures EarlyQuestions[2].options == ["academics", "social", "direction", "time"]
    ensures EarlyQuestions[3].options == ["great", "adjusting", "struggling", "need-support"]
  {
  }

  lemma EarlyProfile(answers: map<string, string>)
    requires CompleteSurvey(answers, Early)
    ensures "clarity" !in answers && "stress" !in answers && "struggle" !in answers && "workstyle" !in answers
    ensures Answer(answers, "settling").Some? && answers["settling"] in ["great", "adjusting", "struggling", "need-support"]
    ensures Answer(answers, "college_worry").Some?
  {
    NotAnEarlyKey(answers, "clarity");
    NotAnEarlyKey(answers, "stress");
    NotAnEarlyKey(answers, "struggle");
    NotAnEarlyKey(answers, "workstyle");
    assert AnsweredWithOption(answers, EarlyQuestions, 2);
    assert AnsweredWithOption(answers, EarlyQuestions, 3);
    EarlyOptions();
  }

  /** The answer to question `i` of a completed survey is one of that question's option values. */
  lemma AnsweredAt(answers: map<string, string>, qs: seq<SurveyQuestion>, i: nat, id: QuestionId, values: seq<string>)
    requires i < |qs| && qs[i].id == id && qs[i].options == values
    requires AnsweredAll(answers, qs)
    ensures Key(id) in answers && answers[Key(id)] in values
  {
    assert AnsweredWithOption(answers, qs, i);
  }

  /**
   * Where a mid or final survey asks what the profile reads: the clarity, work style,
   * struggle-like and stress questions at positions `c`, `w`, `g` and `st`, with their
   * option values.
   */
  predicate ProfileShape(qs: seq<SurveyQuestion>, c: nat, w: nat, g: nat, st: nat, gid: QuestionId, gvalues: seq<string>) {
    && c < |qs| && w < |qs| && g < |qs| && st < |qs|
    && qs[c].id == Clarity && qs[c].options == CareerClarities
    && qs[w].id == Workstyle && qs[w].options == ["solo", "collaborative", "flexible"]
    && qs[g].id == gid && qs[g].options == gvalues && "" !in gvalues
    && qs[st].id == Stress && qs[st].options == StressLevels
  }

  lemma MidShape()
    ensures ProfileShape(MidQuestions, 0, 2, 3, 4, Struggle, ["skill-gaps", "unclear-path", "time", "motivation"])
  {
  }

  lemma MidProfile(answers: map<string, string>)
    requires AnsweredAll(answers, MidQuestions)
    ensures Answer(answers, "clarity").Some? && answers["clarity"] in CareerClarities
    ensures Answer(answers, "stress").Some? && answers["stress"] in StressLevels
    ensures Answer(answers, "struggle").Some? && Answer(answers, "workstyle").Some?
  {
    MidShape();
    ProfileAnswers(answers, MidQuestions, 0, 2, 3, 4, Struggle, ["skill-gaps", "unclear-path", "time", "motivation"]);
  }

  /** The four answers the profile reads in a completed mid or final survey. */
  lemma ProfileAnswers(answers: map<string, string>, qs: seq<SurveyQuestion>, c: nat, w: nat, g: nat, st: nat,
                       gid: QuestionId, gvalues: seq<string>)
    requires ProfileShape(qs, c, w, g, st, gid, gvalues) && AnsweredAll(answers, qs)
    ensures Answer(answers, "clarity").Some? && answers["clarity"] in CareerClarities
    ensures Answer(answers, "stress").Some? && answers["stress"] in StressLevels
    ensures Answer(answers, Key(gid)).Some? && Answer(answers, "workstyle").Some?
  {
    AnsweredAt(answers, qs, c, Clarity, CareerClarities);
    AnsweredAt(answers, qs, w, Workstyle, ["solo", "collaborative", "flexible"]);
    AnsweredAt(answers, qs, g, gid, gvalues);
    AnsweredAt(answers, qs, st, Stress, StressLevels);
  }

  lemma FinalShape()
    ensures ProfileShape(FinalQuestions, 0, 3, 4, 5, JobBlocker, ["experience", "skills", "confidence", "opportunities"])
  {
  }

  lemma FinalProfile(answers: map<string, string>)
    requires AnsweredAll(answers, FinalQuestions)
    ensures Answer(answers, "clarity").Some? && answers["clarity"] in CareerClarities
    ensures Answer(answers, "stress").Some? && answers["stress"] in StressLevels
    ensures Answer(answers, "job_blocker").Some? && Answer(answers, "workstyle").Some?
  {
    FinalShape();
    ProfileAnswers(answers, FinalQuestions, 0, 3, 4, 5, JobBlocker, ["experience", "skills", "confidence", "opportunities"]);
  }

  /** Answering a question of the survey keeps the answers to that survey's keys. */
  lemma KeysOfSurveyAnswer(answers: map<string, string>, qs: seq<SurveyQuestion>, i: nat, value: string)
    requires i < |qs| && KeysOfSurvey(answers, qs)
    ensures KeysOfSurvey(answers[Key(qs[i].id) := value], qs)
  {
    assert QuestionKeys(qs)[i] == Key(qs[i].id);
  }

  class OnboardingWizard {
    var phase: Phase
    /** The chosen semester, none before the first choice. */
    var selectedSemester: Option<nat>
    var surveyStep: int
    var answers: map<string, string>
    /** The profile updates sent, oldest first. */
    var profileUpdates: seq<ProfileData>
    /** The survey responses saved, one batch per completion, each a question key with its answer. */
    var responseBatches: seq<map<string, string>>
    /** Whether a completion succeeded and the dashboard was opened. */
    var finished: bool

    function Questions(): seq<SurveyQuestion>
      reads this
    {
      QuestionsFor(selectedSemester)
    }

    /**
     * The wizard's invariant: the survey step is a question of the survey while the
     * survey is shown and 0 otherwise; a semester is chosen once past the first step;
     * the answers hold the semester and nothing but answers to that semester's questions.
     */
    ghost predicate Valid()
      reads this
    {
      && 0 <= surveyStep
      && (phase != SurveyPhase ==> surveyStep == 0)
      && (phase == SurveyPhase ==> surveyStep < |Questions()|)
      && (phase != SemesterPhase ==> selectedSemester.Some?)
      && (selectedSemester.None? ==> answers == map[])
      && (selectedSemester.Some? ==>
            && 1 <= selectedSemester.value <= 8
            && "semester" in answers && answers["semester"] == SemesterLabel(selectedSemester.value)
            && KeysOfSurvey(answers, Questions()))
    }

    constructor ()
      ensures Valid()
      ensures phase == SemesterPhase && selectedSemester == None && surveyStep == 0 && answers == map[]
      ensures profileUpdates == [] && responseBatches == [] && !finished
    {
      phase := SemesterPhase;
      selectedSemester := None;
      surveyStep := 0;
      answers := map[];
      profileUpdates := [];
      responseBatches := [];
      finished := false;
    }

    /**
     * `handleSemesterSelect`, from the radio buttons of the semester step (semesters 1 to
     * 8): the semester is chosen and the answers become exactly `{semester}`.
     */
    method HandleSemesterSelect(semester: nat)
      requires Valid() && phase == SemesterPhase && 1 <= semester <= 8
      modifies this`selectedSemester, this`answers
      ensures Valid()
      ensures selectedSemester == Some(semester)
      ensures answers == map["semester" := SemesterLabel(semester)]
    {
      selectedSemester := Some(semester);
      answers := map["semester" := SemesterLabel(semester)];
    }

    /** `handleSemesterContinue`; its button is enabled only once a semester is chosen. */
    method HandleSemesterContinue()
      requires Valid() && phase == SemesterPhase && selectedSemester.Some?
      modifies this`phase
      ensures Valid() && phase == IntroPhase
    {
      phase := IntroPhase;
    }

    /** `handleIntroStart`: the survey starts at its first question. */
    method HandleIntroStart()
      requires Valid() && phase == IntroPhase
      modifies this`phase
      ensures Valid() && phase == SurveyPhase && surveyStep == 0
    {
      SurveyNeverEmpty(GetSemesterBucket(selectedSemester.value));
      phase := SurveyPhase;
    }

    /**
     * Choosing an option of the current question (`setAnswers(prev => ({ ...prev, [id]: v }))`)
     * records its value under the question's key.
     */
    method ChooseOption(value: string)
      requires Valid() && phase == SurveyPhase
      modifies this`answers
      ensures Valid()
      ensures answers == old(answers)[Key(Questions()[surveyStep].id) := value]
    {
      var qs := Questions();
      KeysOfSurveyAnswer(answers, qs, surveyStep, value);
      answers := answers[Key(qs[surveyStep].id) := value];
    }

    /**
     * `handleBack`: one question back in the survey, from its first question to the
     * introduction, from the introduction to the semester step; nothing on the semester step.
     */
    method HandleBack()
      requires Valid()
      modifies this`phase, this`surveyStep
      ensures Valid()
      ensures old(phase) == SurveyPhase && old(surveyStep) > 0 ==> phase == SurveyPhase && surveyStep == old(surveyStep) - 1
      ensures old(phase) == SurveyPhase && old(surveyStep) == 0 ==> phase == IntroPhase && surveyStep == 0
      ensures old(phase) == IntroPhase ==> phase == SemesterPhase && surveyStep == 0
      ensures old(phase) == SemesterPhase ==> phase == SemesterPhase && surveyStep == old(surveyStep)
    {
      if phase == SurveyPhase && surveyStep > 0 {
        surveyStep := surveyStep - 1;
      } else if phase == SurveyPhase && surveyStep == 0 {
        phase := IntroPhase;
      } else if phase == IntroPhase {
        phase := SemesterPhase;
      }
    }

    /**
     * `handleNext`: the next question while one is left; on the last question the
     * survey is completed instead (see `HandleComplete`). Outside the survey nothing happens.
     */
    method HandleNext(profileSaved: bool, responsesSaved: bool)
      requires Valid()
      modifies this`surveyStep, this`profileUpdates, this`responseBatches, this`finished
      ensures Valid() && phase == old(phase) && answers == old(answers)
      ensures old(phase) == SurveyPhase && old(surveyStep) < |Questions()| - 1 ==>
                surveyStep == old(surveyStep) + 1 && profileUpdates == old(profileUpdates)
                && responseBatches == old(responseBatches) && finished == old(finished)
      ensures old(phase) == SurveyPhase && old(surveyStep) == |Questions()| - 1 ==>
                surveyStep == old(surveyStep)
                && profileUpdates == old(profileUpdates) + [ProfileFor(selectedSemester.value, answers)]
                && responseBatches == old(responseBatches) + (if profileSaved then [answers] else [])
                && finished == (old(finished) || (profileSaved && responsesSaved))
      ensures old(phase) != SurveyPhase ==>
                surveyStep == old(surveyStep) && profileUpdates == old(profileUpdates)
                && responseBatches == old(responseBatches) && finished == old(finished)
    {
      if phase == SurveyPhase && surveyStep < |Questions()| - 1 {
        surveyStep := surveyStep + 1;
      } else if phase == SurveyPhase && surveyStep == |Questions()| - 1 {
        HandleComplete(profileSaved, responsesSaved);
      }
    }

    /**
     * `handleComplete`: without a chosen semester nothing happens. Otherwise the profile
     * data is sent; once the profile is saved, every answer, the semester included, is
     * saved as one survey response; once those are saved too, onboarding is finished.
     */
    method HandleComplete(profileSaved: bool, responsesSaved: bool)
      requires Valid()
      modifies this`profileUpdates, this`responseBatches, this`finished
      ensures Valid()
      ensures old(selectedSemester).None? ==>
                profileUpdates == old(profileUpdates) && responseBatches == old(responseBatches) && finished == old(finished)
      ensures selectedSemester.Some? ==>
                && profileUpdates == old(profileUpdates) + [ProfileFor(selectedSemester.value, answers)]
                && responseBatches == old(responseBatches) + (if profileSaved then [answers] else [])
                && finished == (old(finished) || (profileSaved && responsesSaved))
    {
      if selectedSemester.None? {
        return;
      }
      profileUpdates := profileUpdates + [ProfileFor(selectedSemester.value, answers)];
      if !profileSaved {
        return;
      }
      responseBatches := responseBatches + [answers];
      if responsesSaved {
        finished := true;
      }
    }
  }
}
