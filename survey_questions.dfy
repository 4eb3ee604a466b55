/**
 * The onboarding survey: the semester buckets, the questions asked in each, and the
 * text introducing them.
 */
module SurveyQuestions {
  import opened Wrappers

  datatype SemesterBucket = Early | Mid | Final

  /** The question ids; `Key` is the string each is stored under. */
  datatype QuestionId =
    | Excitement | LearningStyle | CollegeWorry | Settling | Clarity | InterestArea
    | Workstyle | Struggle | Stress | TargetRole | SkillGap | JobBlocker

  function Key(id: QuestionId): string {
    match id
    case Excitement => "excitement"
    case LearningStyle => "learning_style"
    case CollegeWorry => "college_worry"
    case Settling => "settling"
    case Clarity => "clarity"
    case InterestArea => "interest_area"
    case Workstyle => "workstyle"
    case Struggle => "struggle"
    case Stress => "stress"
    case TargetRole => "target_role"
    case SkillGap => "skill_gap"
    case JobBlocker => "job_blocker"
  }

  /** A question as the survey logic sees it: its id and the values of its options, in order. */
  datatype SurveyQuestion = SurveyQuestion(id: QuestionId, options: seq<string>)

  datatype OptionWording = OptionWording(caption: string, description: string)

  /** The display text of a question: title, description, and one wording per option. */
  datatype QuestionWording = QuestionWording(title: string, description: string, options: seq<OptionWording>)

  datatype IntroText = IntroText(title: string, description: string)

  /** `getSemesterBucket`: semesters 1-2 (and below) are early, 3-4 mid, 5 and later final. */
  function GetSemesterBucket(semester: int): (b: SemesterBucket)
    ensures b == Early <==> semester <= 2
    ensures b == Mid <==> 3 <= semester <= 4
    ensures b == Final <==> semester >= 5
  {
    if semester <= 2 then Early
    else if semester <= 4 then Mid
    else Final
  }

  /** The buckets in the order a student passes through them. */
  function Rank(b: SemesterBucket): nat {
    match b
    case Early => 0
    case Mid => 1
    case Final => 2
  }

  /** A later semester never falls into an earlier bucket. */
  lemma BucketMonotone(s: int, t: int)
    requires s <= t
    ensures Rank(GetSemesterBucket(s)) <= Rank(GetSemesterBucket(t))
  {
  }

  const EarlyQuestions: seq<SurveyQuestion> := [
    SurveyQuestion(Excitement, ["curiosity", "creativity", "problem-solving", "impact"]),
    SurveyQuestion(LearningStyle, ["videos", "reading", "hands-on", "discussions"]),
    SurveyQuestion(CollegeWorry, ["academics", "social", "direction", "time"]),
    SurveyQuestion(Settling, ["great", "adjusting", "struggling", "need-support"])
  ]

  const MidQuestions: seq<SurveyQuestion> := [
    SurveyQuestion(Clarity, ["confused", "exploring", "narrowing", "decided"]),
    SurveyQuestion(InterestArea, ["development", "design", "data", "security"]),
    SurveyQuestion(Workstyle, ["solo", "collaborative", "flexible"]),
    SurveyQuestion(Struggle, ["skill-gaps", "unclear-path", "time", "motivation"]),
    SurveyQuestion(Stress, ["low", "moderate", "high", "severe"])
  ]

  const FinalQuestions: seq<SurveyQuestion> := [
    SurveyQuestion(Clarity, ["confused", "exploring", "narrowing", "decided"]),
    SurveyQuestion(TargetRole, ["developer", "designer", "analyst", "other"]),
    SurveyQuestion(SkillGap, ["technical", "soft-skills", "portfolio", "interview"]),
    SurveyQuestion(Workstyle, ["solo", "collaborative", "flexible"]),
    SurveyQuestion(JobBlocker, ["experience", "skills", "confidence", "opportunities"]),
    SurveyQuestion(Stress, ["low", "moderate", "high", "severe"])
  ]

  /**
   * The wording shown with each question of a bucket: its title, its description, and a
   * caption and description per option, in the order of the option values. Only the
   * display uses it.
   */
  function Wording(b: SemesterBucket, id: QuestionId): Option<QuestionWording> {
    match (b, id)
    case (Early, Excitement) =>
      Some(QuestionWording("What Excites You?", "What draws you to this field?", [
        OptionWording("Curiosity & Learning", "I love discovering new things"),
        OptionWording("Creating Things", "I enjoy building and making"),
        OptionWording("Solving Problems", "I like figuring things out"),
        OptionWording("Making an Impact", "I want to help people")
      ]))
    case (Early, LearningStyle) =>
      Some(QuestionWording("How Do You Learn Best?", "What helps you understand new concepts?", [
        OptionWording("Watching Videos", "Visual explanations work best"),
        OptionWording("Reading & Notes", "I prefer text-based learning"),
        OptionWording("Hands-on Practice", "I learn by doing"),
        OptionWording("Discussions", "Talking it through helps")
      ]))
    case (Early, CollegeWorry) =>
      Some(QuestionWording("Any Concerns?", "It's okay to have worries - we all do!", [
        OptionWording("Academics", "Keeping up with studies"),
        OptionWording("Making Friends", "Finding my community"),
        OptionWording("Finding Direction", "Not sure what path to take"),
        OptionWording("Managing Time", "Balancing everything")
      ]))
    case (Early, Settling) =>
      Some(QuestionWording("How Are You Settling In?", "How is your college experience so far?", [
        OptionWording("Loving It!", "Everything's going well"),
        OptionWording("Still Adjusting", "Getting used to things"),
        OptionWording("Finding It Hard", "Some challenges ahead"),
        OptionWording("Need Support", "Could use some help")
      ]))
    case (Mid, Clarity) =>
      Some(QuestionWording("Career Clarity", "How clear are you about your career path?", [
        OptionWording("Still Exploring", "Trying different things"),
        OptionWording("Seeing Options", "Some areas interest me"),
        OptionWording("Narrowing Down", "Have a few ideas"),
        OptionWording("Pretty Clear", "I know my direction")
      ]))
    case (Mid, InterestArea) =>
      Some(QuestionWording("Which Area Interests You?", "What domain excites you the most?", [
        OptionWording("Development", "Building apps & software"),
        OptionWording("Design", "UI/UX & creative work"),
        OptionWording("Data & AI", "Analytics & machine learning"),
        OptionWording("Security", "Cybersecurity & protection")
      ]))
    case (Mid, Workstyle) =>
      Some(QuestionWording("Work Style", "How do you prefer to work?", [
        OptionWording("Independent", "I prefer working alone"),
        OptionWording("Collaborative", "I thrive in teams"),
        OptionWording("Flexible", "I adapt to both")
      ]))
    case (Mid, Struggle) =>
      Some(QuestionWording("Current Challenge", "What's your biggest hurdle right now?", [
        OptionWording("Skill Gaps", "Need to learn more"),
        OptionWording("Unclear Path", "Don't know what to focus on"),
        OptionWording("Time Management", "Too much to do"),
        OptionWording("Motivation", "Hard to stay focused")
      ]))
    case (Mid, Stress) =>
      Some(QuestionWording("How Are You Feeling?", "Your overall stress level right now", [
        OptionWording("Feeling Good", "I'm managing well"),
        OptionWording("Some Pressure", "A bit stressed but okay"),
        OptionWording("Quite Stressed", "Feeling pressure often"),
        OptionWording("Overwhelmed", "Need support")
      ]))
    case (Final, Clarity) =>
      Some(QuestionWording("Career Clarity", "How clear is your career direction?", [
        OptionWording("Still Figuring Out", "Need more clarity"),
        OptionWording("Exploring Options", "Considering paths"),
        OptionWording("Almost There", "Narrowing down choices"),
        OptionWording("Decided", "I know my target")
      ]))
    case (Final, TargetRole) =>
      Some(QuestionWording("Target Role", "What type of role are you aiming for?", [
        OptionWording("Developer", "Software engineering roles"),
        OptionWording("Designer", "UI/UX & product design"),
        OptionWording("Analyst", "Data & business analysis"),
        OptionWording("Other/Unsure", "Different path or exploring")
      ]))
    case (Final, SkillGap) =>
      Some(QuestionWording("Skills to Strengthen", "What needs the most work?", [
        OptionWording("Technical Skills", "Coding, tools, tech stack"),
        OptionWording("Soft Skills", "Communication, leadership"),
        OptionWording("Portfolio", "Projects & showcasing work"),
        OptionWording("Interview Prep", "Cracking interviews")
      ]))
    case (Final, Workstyle) =>
      Some(QuestionWording("Work Environment", "How do you see yourself working?", [
        OptionWording("Independent", "Self-driven work"),
        OptionWording("Team-based", "Collaborative environment"),
        OptionWording("Flexible", "Adapt to any setup")
      ]))
    case (Final, JobBlocker) =>
      Some(QuestionWording("What's Holding You Back?", "Your biggest barrier to job readiness", [
        OptionWording("Lack of Experience", "Need more practical work"),
        OptionWording("Skill Gaps", "Technical knowledge gaps"),
        OptionWording("Confidence", "Don't feel ready"),
        OptionWording("Finding Opportunities", "Don't know where to apply")
      ]))
    case (Final, Stress) =>
      Some(QuestionWording("Pressure Level", "How stressed are you about placements/jobs?", [
        OptionWording("Calm & Ready", "Feeling prepared"),
        OptionWording("Some Pressure", "Manageable stress"),
        OptionWording("High Pressure", "Feeling the heat"),
        OptionWording("Very Anxious", "Need support")
      ]))
    case _ => None
  }

  /** `SURVEY_QUESTIONS[bucket]`. */
  function SurveyQuestionsFor(b: SemesterBucket): seq<SurveyQuestion> {
    match b
    case Early => EarlyQuestions
    case Mid => MidQuestions
    case Final => FinalQuestions
  }

  function QuestionIds(qs: seq<SurveyQuestion>): (ids: seq<QuestionId>)
    ensures |ids| == |qs| && forall i | 0 <= i < |qs| :: ids[i] == qs[i].id
  {
    seq(|qs|, i requires 0 <= i < |qs| => qs[i].id)
  }

  predicate Distinct<T(==)>(xs: seq<T>) {
    forall i, j | 0 <= i < j < |xs| :: xs[i] != xs[j]
  }

  /** A question offers three or four answers, no two with the same value. */
  predicate WellFormedQuestion(q: SurveyQuestion) {
    3 <= |q.options| <= 4 && Distinct(q.options)
  }

  /** Early students answer 4 questions, mid 5, final 6. */
  lemma QuestionCounts()
    ensures |SurveyQuestionsFor(Early)| == 4
    ensures |SurveyQuestionsFor(Mid)| == 5
    ensures |SurveyQuestionsFor(Final)| == 6
  {
  }

  /** In every bucket the question ids are distinct, so each answer has its own key. */
  lemma QuestionIdsDistinct(b: SemesterBucket)
    ensures Distinct(QuestionIds(SurveyQuestionsFor(b)))
  {
    match b
    case Early => EarlyIds(); IdsDistinct(EarlyQuestions);
    case Mid => MidIds(); IdsDistinct(MidQuestions);
    case Final => FinalIds(); IdsDistinct(FinalQuestions);
  }

  lemma IdsDistinct(qs: seq<SurveyQuestion>)
    requires forall i, j | 0 <= i < j < |qs| :: qs[i].id != qs[j].id
    ensures Distinct(QuestionIds(qs))
  {
  }

  lemma EarlyIds()
    ensures |EarlyQuestions| == 4
    ensures EarlyQuestions[0].id == Excitement && EarlyQuestions[1].id == LearningStyle
    ensures EarlyQuestions[2].id == CollegeWorry && EarlyQuestions[3].id == Settling
  {
  }

  lemma MidIds()
    ensures |MidQuestions| == 5
    ensures MidQuestions[0].id == Clarity && MidQuestions[1].id == InterestArea
    ensures MidQuestions[2].id == Workstyle && MidQuestions[3].id == Struggle && MidQuestions[4].id == Stress
  {
  }

  lemma FinalIds()
    ensures |FinalQuestions| == 6
    ensures FinalQuestions[0].id == Clarity && FinalQuestions[1].id == TargetRole && FinalQuestions[2].id == SkillGap
    ensures FinalQuestions[3].id == Workstyle && FinalQuestions[4].id == JobBlocker && FinalQuestions[5].id == Stress
  {
  }

  /** Every early question offers three or four answers, no two with the same value. */
  lemma EarlyQuestionsWellFormed()
    ensures forall i | 0 <= i < |EarlyQuestions| :: WellFormedQuestion(EarlyQuestions[i])
  {
  }

  /** Every mid question offers three or four answers, no two with the same value. */
  lemma MidQuestionsWellFormed()
    ensures forall i | 0 <= i < |MidQuestions| :: WellFormedQuestion(MidQuestions[i])
  {
  }

  /** Every final question offers three or four answers, no two with the same value. */
  lemma FinalQuestionsWellFormed()
    ensures forall i | 0 <= i < |FinalQuestions| :: WellFormedQuestion(FinalQuestions[i])
  {
  }

  /**
   * `getSemesterIntroText`: a title and description for each bucket. The titles end with
   * an emoji that the repository's file stores doubly encoded; the model keeps the code
   * points as they stand there.
   */
  function GetSemesterIntroText(b: SemesterBucket): IntroText {
    match b
    case Early =>
      IntroText("Let's Get to Know You! \U{F0}\U{178}\U{152}\U{B1}",
                "Just starting out? No pressure! We'll ask a few quick questions to understand what excites you.")
    case Mid =>
      IntroText("Building Your Path \U{F0}\U{178}\U{17D}\U{AF}",
                "You're in the middle of your journey. Let's understand where you're heading.")
    case Final =>
      IntroText("Time to Launch! \U{F0}\U{178}\U{161}\U{20AC}",
                "The finish line is near. Let's make sure you're job-ready.")
  }
}
