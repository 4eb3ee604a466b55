/**
 * The career paths page: a three-phase wizard (choose a career, choose an expertise
 * level, view the generated roadmap) driving the roadmap hook, plus opening a saved
 * roadmap from the list of saved ones.
 */
module CareerPaths {
  import opened Wrappers
  import opened Messages
  import opened StreamReading
  import opened CareerRoadmap

  datatype PagePhase = SelectCareer | SelectExpertise | ViewRoadmap

  /** The fields of a career path the page uses. */
  datatype CareerPath = CareerPath(id: string, name: string)

  /** `phaseConfig[phase].step`: the position shown in the step indicator. */
  function PhaseStep(p: PagePhase): (step: nat)
    ensures 1 <= step <= 3
    ensures p == SelectCareer <==> step == 1
    ensures p == SelectExpertise <==> step == 2
    ensures p == ViewRoadmap <==> step == 3
  {
    match p
    case SelectCareer => 1
    case SelectExpertise => 2
    case ViewRoadmap => 3
  }

  /** `careerPaths.findIndex(c => c.id === id)`: the first career path with that id, or -1. */
  function CareerIndex(cs: seq<CareerPath>, id: string): (i: int)
    ensures -1 <= i < |cs|
    ensures i == -1 <==> forall k | 0 <= k < |cs| :: cs[k].id != id
    ensures i >= 0 ==> cs[i].id == id && forall k | 0 <= k < i :: cs[k].id != id
  {
    if |cs| == 0 then -1
    else if cs[0].id == id then 0
    else
      var k := CareerIndex(cs[1..], id);
      if k < 0 then -1 else k + 1
  }

  /**
   * `careerPaths?.find(c => c.id === roadmap.career_path_id)`: none while the list is not
   * loaded or the record has no career path; otherwise the first career path with its id.
   */
  function MatchingCareer(careerPaths: Option<seq<CareerPath>>, id: Option<string>): (c: Option<CareerPath>)
    ensures careerPaths.None? || id.None? ==> c.None?
    ensures careerPaths.Some? && id.Some? ==>
              var i := CareerIndex(careerPaths.value, id.value);
              (c.None? <==> i == -1) && (c.Some? ==> c.value == careerPaths.value[i] && c.value.id == id.value)
  {
    if careerPaths.None? || id.None? then None
    else
      var i := CareerIndex(careerPaths.value, id.value);
      if i < 0 then None else Some(careerPaths.value[i])
  }

  class CareerPathsPage {
    var phase: PagePhase
    var selectedCareer: Option<CareerPath>
    var selectedExpertise: Option<string>
    var isViewingSaved: bool
    /** The roadmap hook the page uses. */
    const hook: RoadmapHook

    constructor (hook: RoadmapHook)
      ensures phase == SelectCareer && selectedCareer == None && selectedExpertise == None && !isViewingSaved
      ensures this.hook == hook
    {
      phase := SelectCareer;
      selectedCareer := None;
      selectedExpertise := None;
      isViewingSaved := false;
      this.hook := hook;
    }

    method HandleCareerSelect(career: CareerPath)
      modifies this`selectedCareer
      ensures selectedCareer == Some(career)
    {
      selectedCareer := Some(career);
    }

    method HandleExpertiseSelect(level: string)
      modifies this`selectedExpertise
      ensures selectedExpertise == Some(level)
    {
      selectedExpertise := Some(level);
    }

    /**
     * `handleNext`: from choosing a career to choosing a level once a career is chosen;
     * from choosing a level to the roadmap once both are chosen, which leaves the saved
     * view, gives the chat the new context with no roadmap yet, and generates the roadmap
     * (`resp` is the generation's response). Anything else changes nothing.
     */
    method HandleNext(resp: Response)
      modifies this`phase, this`isViewingSaved
      modifies hook`chatContext, hook`isGenerating, hook`roadmapContent, hook`chatMessages, hook`currentRoadmapId, hook`notices
      ensures selectedCareer == old(selectedCareer) && selectedExpertise == old(selectedExpertise)
      ensures old(phase) == SelectCareer && old(selectedCareer).Some? ==>
                phase == SelectExpertise && isViewingSaved == old(isViewingSaved) && unchanged(hook)
      ensures old(phase) == SelectExpertise && old(selectedCareer).Some? && old(selectedExpertise).Some? ==>
                && phase == ViewRoadmap && !isViewingSaved
                && hook.chatContext == Some(ChatContext(selectedCareer.value.name, selectedExpertise.value, ""))
                && !hook.isGenerating && hook.chatMessages == [] && hook.currentRoadmapId == None
                && hook.roadmapContent == Generated(resp, hook.parse)
                && hook.notices == old(hook.notices) + GenerationNotices(resp)
      ensures old(phase) == ViewRoadmap || (old(phase) == SelectCareer && old(selectedCareer).None?)
              || (old(phase) == SelectExpertise && (old(selectedCareer).None? || old(selectedExpertise).None?)) ==>
                phase == old(phase) && isViewingSaved == old(isViewingSaved) && unchanged(hook)
      ensures PhaseStep(old(phase)) <= PhaseStep(phase) <= PhaseStep(old(phase)) + 1
    {
      if phase == SelectCareer && selectedCareer.Some? {
        phase := SelectExpertise;
      } else if phase == SelectExpertise && selectedExpertise.Some? && selectedCareer.Some? {
        phase := ViewRoadmap;
        isViewingSaved := false;
        hook.SetChatContext(Some(ChatContext(selectedCareer.value.name, selectedExpertise.value, "")));
        hook.GenerateRoadmap(resp);
      }
    }

    /**
     * `handleBack`: from choosing a level back to choosing a career, forgetting only the
     * level; from the roadmap back to choosing a career, forgetting both choices,
     * resetting the roadmap (which cancels its pending auto-save) and leaving the saved
     * view. On the first phase nothing changes.
     */
    method HandleBack()
      modifies this`phase, this`selectedCareer, this`selectedExpertise, this`isViewingSaved
      modifies hook`roadmapContent, hook`chatMessages, hook`chatContext, hook`currentRoadmapId, hook`pending
      ensures old(phase) == SelectCareer ==>
                phase == SelectCareer && selectedCareer == old(selectedCareer) && selectedExpertise == old(selectedExpertise)
                && isViewingSaved == old(isViewingSaved) && unchanged(hook)
      ensures old(phase) == SelectExpertise ==>
                phase == SelectCareer && selectedCareer == old(selectedCareer) && selectedExpertise == None
                && isViewingSaved == old(isViewingSaved) && unchanged(hook)
      ensures old(phase) == ViewRoadmap ==>
                phase == SelectCareer && selectedCareer == None && selectedExpertise == None && !isViewingSaved
                && hook.roadmapContent == "" && hook.chatMessages == [] && hook.chatContext == None
                && hook.currentRoadmapId == None && hook.pending == None
      ensures PhaseStep(phase) <= PhaseStep(old(phase))
    {
      if phase == SelectExpertise {
        phase := SelectCareer;
        selectedExpertise := None;
      } else if phase == ViewRoadmap {
        phase := SelectCareer;
        selectedCareer := None;
        selectedExpertise := None;
        hook.ResetRoadmap();
        isViewingSaved := false;
      }
    }

    /**
     * `handleSaveRoadmap`: the roadmap is saved only with a career, a level and some
     * content; the hook then inserts it with the current chat.
     */
    method HandleSaveRoadmap(result: InsertResult)
      modifies hook`inserts, hook`currentRoadmapId, hook`notices
      ensures selectedCareer.None? || selectedExpertise.None? || old(hook.roadmapContent) == "" ==> unchanged(hook)
      ensures selectedCareer.Some? && selectedExpertise.Some? && old(hook.roadmapContent) != "" && hook.userId.Some? ==>
                hook.inserts == old(hook.inserts) + [RoadmapInsert(hook.userId.value, selectedCareer.value.id,
                                                                   selectedExpertise.value, old(hook.roadmapContent),
                                                                   old(hook.chatMessages))]
      ensures selectedCareer.Some? && selectedExpertise.Some? && old(hook.roadmapContent) != "" ==>
                && (hook.userId.None? ==>
                      hook.inserts == old(hook.inserts) && hook.currentRoadmapId == old(hook.currentRoadmapId)
                      && hook.notices == old(hook.notices) + [Failure("Not authenticated")])
                && (hook.userId.Some? && result.Inserted? ==>
                      hook.currentRoadmapId == Some(result.id) && hook.notices == old(hook.notices) + [RoadmapSaved])
                && (hook.userId.Some? && result.Rejected? ==>
                      hook.currentRoadmapId == old(hook.currentRoadmapId)
                      && hook.notices == old(hook.notices) + [Failure(result.message.GetOr("Failed to save roadmap"))])
    {
      if selectedCareer.Some? && selectedExpertise.Some? && hook.roadmapContent != "" {
        hook.SaveRoadmap(selectedCareer.value.id, selectedExpertise.value, hook.roadmapContent, result);
      }
    }

    /**
     * `handleRegenerate`: with a career and a level, the roadmap is reset (its chat
     * context and pending auto-save included) and generated again.
     */
    method HandleRegenerate(resp: Response)
      modifies hook`roadmapContent, hook`chatMessages, hook`chatContext, hook`currentRoadmapId, hook`pending
      modifies hook`isGenerating, hook`notices
      ensures selectedCareer.None? || selectedExpertise.None? ==> unchanged(hook)
      ensures selectedCareer.Some? && selectedExpertise.Some? ==>
                hook.chatContext == None && hook.pending == None && hook.chatMessages == []
                && hook.currentRoadmapId == None && !hook.isGenerating
                && hook.roadmapContent == Generated(resp, hook.parse)
                && hook.notices == old(hook.notices) + GenerationNotices(resp)
    {
      if selectedCareer.Some? && selectedExpertise.Some? {
        hook.ResetRoadmap();
        hook.GenerateRoadmap(resp);
      }
    }

    /**
     * `handleSelectSavedRoadmap`: opens a saved roadmap. The career is replaced only when
     * the loaded career paths hold the record's one; the level always comes from the
     * record; the hook loads the record; the page shows it as a saved roadmap.
     */
    method HandleSelectSavedRoadmap(r: SavedRoadmap, careerPaths: Option<seq<CareerPath>>)
      modifies this`phase, this`selectedCareer, this`selectedExpertise, this`isViewingSaved
      modifies hook`roadmapContent, hook`chatMessages, hook`currentRoadmapId, hook`chatContext
      ensures var m := MatchingCareer(careerPaths, r.careerPathId);
              selectedCareer == (if m.Some? then m else old(selectedCareer))
      ensures selectedExpertise == Some(r.expertiseLevel)
      ensures phase == ViewRoadmap && isViewingSaved
      ensures hook.roadmapContent == r.roadmapContent && hook.chatMessages == r.chatMessages.GetOr([])
      ensures hook.currentRoadmapId == Some(r.id)
      ensures r.careerPathName.Some? ==>
                hook.chatContext == Some(ChatContext(r.careerPathName.value, r.expertiseLevel, r.roadmapContent))
      ensures r.careerPathName.None? ==> hook.chatContext == old(hook.chatContext)
    {
      var m := MatchingCareer(careerPaths, r.careerPathId);
      if m.Some? {
        selectedCareer := m;
      }
      selectedExpertise := Some(r.expertiseLevel);
      hook.LoadSavedRoadmap(r);
      phase := ViewRoadmap;
      isViewingSaved := true;
    }

    /**
     * The effect that runs whenever the roadmap, the choices or the generation state
     * change: once a finished roadmap has content and both choices are made, the chat's
     * context becomes that roadmap.
     */
    method SyncChatContext()
      modifies hook`chatContext
      ensures hook.roadmapContent != "" && selectedCareer.Some? && selectedExpertise.Some? && !hook.isGenerating ==>
                hook.chatContext == Some(ChatContext(selectedCareer.value.name, selectedExpertise.value, hook.roadmapContent))
      ensures !(hook.roadmapContent != "" && selectedCareer.Some? && selectedExpertise.Some? && !hook.isGenerating) ==>
                unchanged(hook)
    {
      if hook.roadmapContent != "" && selectedCareer.Some? && selectedExpertise.Some? && !hook.isGenerating {
        hook.SetChatContext(Some(ChatContext(selectedCareer.value.name, selectedExpertise.value, hook.roadmapContent)));
      }
    }
  }
}
