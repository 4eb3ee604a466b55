/**
 * The roadmap hook: generating a career roadmap from a streamed response, chatting
 * about it, the debounced auto-save of the chat, and saving, loading and resetting
 * a roadmap. Each asynchronous operation is modelled as running to completion, with
 * the network's answers passed in as parameters.
 */
module CareerRoadmap {
  import opened Wrappers
  import opened Text
  import opened Sse
  import opened StreamReading
  import opened Messages

  /** What the chat sends along with every question about the roadmap. */
  datatype ChatContext = ChatContext(careerPathName: string, expertiseLevel: string, roadmapContent: string)

  /** A toast: its title, its description, and whether it is shown as destructive. */
  datatype Notice = Notice(title: string, description: string, destructive: bool)

  const RateLimited := Notice("Rate Limited", "Too many requests. Please try again in a moment.", true)
  const PaymentRequired := Notice("Payment Required", "Please add funds to continue using AI features.", true)
  const RoadmapSaved := Notice("Roadmap Saved!", "Your career roadmap has been saved. Chat messages will auto-save.", false)

  function Failure(message: string): Notice {
    Notice("Error", message, true)
  }

  /**
   * The toast for a response that is not ok: 429 and 402 have their own, any other
   * status reports the server's `error` field, or `fallback` when there is none.
   */
  function Refusal(r: Response, fallback: string): (n: Notice)
    ensures n.destructive && n.description != ""
    ensures r.status == 429 ==> n == RateLimited
    ensures r.status == 402 ==> n == PaymentRequired
    ensures r.status != 429 && r.status != 402 && fallback != "" ==> n.title == "Error" && n.description != ""
  {
    if r.status == 429 then RateLimited
    else if r.status == 402 then PaymentRequired
    else Failure(OrDefault(r.errorField, if fallback == "" then "Error" else fallback))
  }

  /** The chat messages to write to one saved roadmap. */
  datatype PendingSave = PendingSave(roadmapId: string, messages: seq<ChatMessage>)

  /** A row of `user_roadmaps` as the hook loads it; `careerPathName` is the joined career path's name. */
  datatype SavedRoadmap = SavedRoadmap(
    id: string, careerPathId: Option<string>, expertiseLevel: string, roadmapContent: string,
    chatMessages: Option<seq<ChatMessage>>, careerPathName: Option<string>)

  /** The row `saveRoadmap` inserts. */
  datatype RoadmapInsert = RoadmapInsert(
    userId: string, careerPathId: string, expertiseLevel: string, content: string, messages: seq<ChatMessage>)

  /** What the database answers to an insert: the new id, or an error with its message when it is an `Error`. */
  datatype InsertResult = Inserted(id: string) | Rejected(message: Option<string>)

  /**
   * The pending-save slot after `autoSaveChatMessages(messages)`: without a current
   * roadmap nothing is scheduled and nothing is cancelled; otherwise the pending save,
   * if any, is replaced by one for these messages.
   */
  function Schedule(pending: Option<PendingSave>, roadmapId: Option<string>, messages: seq<ChatMessage>): Option<PendingSave> {
    if roadmapId.None? then pending else Some(PendingSave(roadmapId.value, messages))
  }

  /** Several auto-save calls in a row, before the timer fires. */
  function ScheduleAll(pending: Option<PendingSave>, roadmapId: Option<string>, batches: seq<seq<ChatMessage>>): Option<PendingSave>
    decreases |batches|
  {
    if |batches| == 0 then pending
    else ScheduleAll(Schedule(pending, roadmapId, batches[0]), roadmapId, batches[1..])
  }

  /** The debounce: however many calls come in before the timer fires, only the latest messages are written. */
  lemma {:induction false} LatestBatchWins(pending: Option<PendingSave>, id: string, batches: seq<seq<ChatMessage>>)
    requires |batches| > 0
    ensures ScheduleAll(pending, Some(id), batches) == Some(PendingSave(id, batches[|batches| - 1]))
    decreases |batches|
  {
    if |batches| > 1 {
      LatestBatchWins(Schedule(pending, Some(id), batches[0]), id, batches[1..]);
    }
  }

  /** Without a current roadmap, auto-save calls neither schedule a save nor cancel the pending one. */
  lemma {:induction false} NoRoadmapNoSchedule(pending: Option<PendingSave>, batches: seq<seq<ChatMessage>>)
    ensures ScheduleAll(pending, None, batches) == pending
    decreases |batches|
  {
    if |batches| > 0 {
      NoRoadmapNoSchedule(pending, batches[1..]);
    }
  }

  /**
   * The roadmap text `generateRoadmap` leaves for a response: nothing when the request
   * is refused or has no body, every delta of the read loop and of the final flush
   * after a complete read, and the read loop's deltas alone after a failed read.
   */
  function Generated(resp: Response, parse: Parser): string {
    if !IsOk(resp.status) || resp.body.None? then ""
    else if resp.body.value.failure.None? then Concat(HookDeltas(resp.body.value.chunks, parse))
    else Concat(Feeds("", resp.body.value.chunks, parse, Requeue).deltas)
  }

  /** The toasts `generateRoadmap` shows for a response: at most one, and none after a complete read. */
  function GenerationNotices(resp: Response): seq<Notice> {
    if !IsOk(resp.status) then [Refusal(resp, "Failed to generate roadmap")]
    else if resp.body.None? then [Failure("No response body")]
    else if resp.body.value.failure.Some? then [Failure(resp.body.value.failure.value)]
    else []
  }

  class RoadmapHook {
    var roadmapContent: string
    var isGenerating: bool
    var chatMessages: seq<ChatMessage>
    var isChatLoading: bool
    var currentRoadmapId: Option<string>
    var chatContext: Option<ChatContext>
    /** The auto-save timer: the save it will perform when it fires. */
    var pending: Option<PendingSave>
    /** The chat-message updates written to saved roadmaps, oldest first. */
    var writes: seq<PendingSave>
    /** The rows inserted by `saveRoadmap`, oldest first. */
    var inserts: seq<RoadmapInsert>
    /** The toasts shown, oldest first. */
    var notices: seq<Notice>
    /** The signed-in user. */
    const userId: Option<string>
    const parse: Parser

    constructor (userId: Option<string>, parse: Parser)
      ensures roadmapContent == "" && !isGenerating && chatMessages == [] && !isChatLoading
      ensures currentRoadmapId == None && chatContext == None && pending == None
      ensures writes == [] && inserts == [] && notices == []
      ensures this.userId == userId && this.parse == parse
    {
      roadmapContent := "";
      isGenerating := false;
      chatMessages := [];
      isChatLoading := false;
      currentRoadmapId := None;
      chatContext := None;
      pending := None;
      writes := [];
      inserts := [];
      notices := [];
      this.userId := userId;
      this.parse := parse;
    }

    /**
     * `generateRoadmap`: clears the roadmap, the chat and the current id, then reads the
     * stream. The content is every delta of the read loop followed by the final flush;
     * a read that fails keeps what was read so far and skips the flush. The pending
     * auto-save is left alone.
     */
    method GenerateRoadmap(resp: Response)
      modifies this`isGenerating, this`roadmapContent, this`chatMessages, this`currentRoadmapId, this`notices
      ensures !isGenerating && chatMessages == [] && currentRoadmapId == None
      ensures isChatLoading == old(isChatLoading) && chatContext == old(chatContext)
      ensures pending == old(pending) && writes == old(writes) && inserts == old(inserts)
      ensures !IsOk(resp.status) ==>
                roadmapContent == "" && notices == old(notices) + [Refusal(resp, "Failed to generate roadmap")]
      ensures IsOk(resp.status) && resp.body.None? ==>
                roadmapContent == "" && notices == old(notices) + [Failure("No response body")]
      ensures IsOk(resp.status) && resp.body.Some? && resp.body.value.failure.None? ==>
                roadmapContent == Concat(HookDeltas(resp.body.value.chunks, parse)) && notices == old(notices)
      ensures IsOk(resp.status) && resp.body.Some? && resp.body.value.failure.Some? ==>
                roadmapContent == Concat(Feeds("", resp.body.value.chunks, parse, Requeue).deltas)
                && notices == old(notices) + [Failure(resp.body.value.failure.value)]
      ensures roadmapContent == Generated(resp, parse) && notices == old(notices) + GenerationNotices(resp)
    {
      isGenerating := true;
      roadmapContent := "";
      chatMessages := [];
      currentRoadmapId := None;
      if !IsOk(resp.status) {
        notices := notices + [Refusal(resp, "Failed to generate roadmap")];
      } else if resp.body.None? {
        notices := notices + [Failure("No response body")];
      } else {
        var chunks := resp.body.value.chunks;
        var reader := new StreamReader(parse, Requeue);
        for k := 0 to |chunks|
          modifies reader, this`roadmapContent
          invariant reader.Valid() && roadmapContent == reader.acc
          invariant reader.buffer == Feeds("", chunks[..k], parse, Requeue).rest
          invariant reader.deltas == Feeds("", chunks[..k], parse, Requeue).deltas
        {
          FeedsStep("", chunks, k, parse, Requeue);
          reader.Feed(chunks[k]);
          roadmapContent := reader.acc;
        }
        assert chunks[..|chunks|] == chunks;
        if resp.body.value.failure.Some? {
          notices := notices + [Failure(resp.body.value.failure.value)];
        } else {
          reader.FinalFlush();
          roadmapContent := reader.acc;
          ConcatAppend(Feeds("", chunks, parse, Requeue).deltas, FlushDeltas(Feeds("", chunks, parse, Requeue).rest, parse));
        }
      }
      isGenerating := false;
    }

    /**
     * `sendChatMessage`: without a chat context nothing happens. Otherwise the user's
     * message is shown at once and an empty assistant message is added when the stream
     * starts, whose content follows the text read. A refused request removes the user's
     * message again; a read that fails removes the last message, which by then is the
     * partial answer, so the question stays. A completed answer is scheduled for auto-save
     * together with the messages before it.
     */
    method SendChatMessage(message: string, resp: Response)
      modifies this`chatMessages, this`isChatLoading, this`notices, this`pending
      ensures roadmapContent == old(roadmapContent) && isGenerating == old(isGenerating)
      ensures currentRoadmapId == old(currentRoadmapId) && chatContext == old(chatContext)
      ensures writes == old(writes) && inserts == old(inserts)
      ensures old(chatContext).None? ==>
                chatMessages == old(chatMessages) && isChatLoading == old(isChatLoading)
                && notices == old(notices) && pending == old(pending)
      ensures old(chatContext).Some? ==> !isChatLoading
      ensures old(chatContext).Some? && !IsOk(resp.status) ==>
                chatMessages == old(chatMessages) && pending == old(pending)
                && notices == old(notices) + [Refusal(resp, "Failed to send message")]
      ensures old(chatContext).Some? && IsOk(resp.status) && resp.body.None? ==>
                chatMessages == old(chatMessages) && pending == old(pending)
                && notices == old(notices) + [Failure("No response body")]
      ensures old(chatContext).Some? && IsOk(resp.status) && resp.body.Some? && resp.body.value.failure.Some? ==>
                chatMessages == old(chatMessages) + [ChatMessage(User, message)] && pending == old(pending)
                && notices == old(notices) + [Failure(resp.body.value.failure.value)]
      ensures old(chatContext).Some? && IsOk(resp.status) && resp.body.Some? && resp.body.value.failure.None? ==>
                var answer := ChatMessage(Assistant, Concat(HookDeltas(resp.body.value.chunks, parse)));
                && chatMessages == old(chatMessages) + [ChatMessage(User, message)] + [answer]
                && pending == Schedule(old(pending), currentRoadmapId, chatMessages)
                && notices == old(notices)
    {
      if chatContext.None? {
        return;
      }
      var prior := chatMessages;
      var withUser := prior + [ChatMessage(User, message)];
      chatMessages := withUser;
      isChatLoading := true;
      if !IsOk(resp.status) {
        RollBack(prior, Refusal(resp, "Failed to send message"));
      } else if resp.body.None? {
        RollBack(prior, Failure("No response body"));
      } else {
        StreamAnswer(withUser, resp.body.value);
      }
      isChatLoading := false;
    }

    /** A refused chat request: the toast, and the user's message taken back. */
    method RollBack(before: seq<ChatMessage>, n: Notice)
      requires |chatMessages| == |before| + 1 && chatMessages[..|before|] == before
      modifies this`chatMessages, this`notices
      ensures chatMessages == before && notices == old(notices) + [n]
    {
      notices := notices + [n];
      chatMessages := DropLast(chatMessages);
    }

    /**
     * The streaming part of `sendChatMessage`, once the response is ok and has a body:
     * the assistant's message grows with the text read; a failed read removes it, a
     * completed one is scheduled for auto-save after the messages before it.
     */
    method StreamAnswer(withUser: seq<ChatMessage>, body: Body)
      requires chatMessages == withUser
      modifies this`chatMessages, this`notices, this`pending
      ensures body.failure.Some? ==>
                chatMessages == withUser && pending == old(pending) && notices == old(notices) + [Failure(body.failure.value)]
      ensures body.failure.None? ==>
                chatMessages == withUser + [ChatMessage(Assistant, Concat(HookDeltas(body.chunks, parse)))]
                && pending == Schedule(old(pending), currentRoadmapId, chatMessages) && notices == old(notices)
    {
      var chunks := body.chunks;
      var reader := new StreamReader(parse, Requeue);
      chatMessages := chatMessages + [ChatMessage(Assistant, "")];
      for k := 0 to |chunks|
        modifies reader, this`chatMessages
        invariant reader.Valid() && chatMessages == withUser + [ChatMessage(Assistant, reader.acc)]
        invariant reader.buffer == Feeds("", chunks[..k], parse, Requeue).rest
        invariant reader.deltas == Feeds("", chunks[..k], parse, Requeue).deltas
      {
        FeedsStep("", chunks, k, parse, Requeue);
        reader.Feed(chunks[k]);
        SetLastOfAppend(withUser, chatMessages[|chatMessages| - 1], ChatMessage(Assistant, reader.acc));
        chatMessages := SetLast(chatMessages, ChatMessage(Assistant, reader.acc));
      }
      assert chunks[..|chunks|] == chunks;
      if body.failure.Some? {
        notices := notices + [Failure(body.failure.value)];
        DropLastUndoesAppend(withUser, ChatMessage(Assistant, reader.acc));
        chatMessages := DropLast(chatMessages);
      } else {
        reader.FinalFlush();
        SetLastOfAppend(withUser, chatMessages[|chatMessages| - 1], ChatMessage(Assistant, reader.acc));
        chatMessages := SetLast(chatMessages, ChatMessage(Assistant, reader.acc));
        ConcatAppend(Feeds("", chunks, parse, Requeue).deltas, FlushDeltas(Feeds("", chunks, parse, Requeue).rest, parse));
        var finalMessages := withUser + [ChatMessage(Assistant, reader.acc)];
        AutoSave(finalMessages);
      }
    }

    /** `autoSaveChatMessages`: (re)arms the one-second timer for the current roadmap. */
    method AutoSave(messages: seq<ChatMessage>)
      modifies this`pending
      ensures pending == Schedule(old(pending), currentRoadmapId, messages)
    {
      if currentRoadmapId.None? {
        return;
      }
      pending := Some(PendingSave(currentRoadmapId.value, messages));
    }

    /** The timer fires: the pending save is written, and nothing is pending any more. */
    method FireAutoSave()
      requires pending.Some?
      modifies this`pending, this`writes
      ensures pending == None && writes == old(writes) + [old(pending).value]
    {
      writes := writes + [pending.value];
      pending := None;
    }

    /**
     * `saveRoadmap`: inserts the roadmap with the current chat messages; on success the
     * new row becomes the current roadmap, so later chat answers are auto-saved to it.
     */
    method SaveRoadmap(careerPathId: string, expertiseLevel: string, content: string, result: InsertResult)
      modifies this`inserts, this`currentRoadmapId, this`notices
      ensures userId.None? ==>
                inserts == old(inserts) && currentRoadmapId == old(currentRoadmapId)
                && notices == old(notices) + [Failure("Not authenticated")]
      ensures userId.Some? ==>
                inserts == old(inserts) + [RoadmapInsert(userId.value, careerPathId, expertiseLevel, content, chatMessages)]
      ensures userId.Some? && result.Inserted? ==>
                currentRoadmapId == Some(result.id) && notices == old(notices) + [RoadmapSaved]
      ensures userId.Some? && result.Rejected? ==>
                currentRoadmapId == old(currentRoadmapId)
                && notices == old(notices) + [Failure(result.message.GetOr("Failed to save roadmap"))]
    {
      if userId.None? {
        notices := notices + [Failure("Not authenticated")];
        return;
      }
      inserts := inserts + [RoadmapInsert(userId.value, careerPathId, expertiseLevel, content, chatMessages)];
      match result {
        case Inserted(id) =>
          currentRoadmapId := Some(id);
          notices := notices + [RoadmapSaved];
        case Rejected(m) =>
          notices := notices + [Failure(m.GetOr("Failed to save roadmap"))];
      }
    }

    /**
     * `loadSavedRoadmap`: shows a saved roadmap and its chat and makes it current; the
     * chat context is replaced only when the row comes with its career path.
     */
    method LoadSavedRoadmap(r: SavedRoadmap)
      modifies this`roadmapContent, this`chatMessages, this`currentRoadmapId, this`chatContext
      ensures roadmapContent == r.roadmapContent && chatMessages == r.chatMessages.GetOr([])
      ensures currentRoadmapId == Some(r.id)
      ensures r.careerPathName.Some? ==>
                chatContext == Some(ChatContext(r.careerPathName.value, r.expertiseLevel, r.roadmapContent))
      ensures r.careerPathName.None? ==> chatContext == old(chatContext)
    {
      roadmapContent := r.roadmapContent;
      chatMessages := r.chatMessages.GetOr([]);
      currentRoadmapId := Some(r.id);
      if r.careerPathName.Some? {
        chatContext := Some(ChatContext(r.careerPathName.value, r.expertiseLevel, r.roadmapContent));
      }
    }

    /** `setChatContext`, exposed as it is. */
    method SetChatContext(ctx: Option<ChatContext>)
      modifies this`chatContext
      ensures chatContext == ctx
    {
      chatContext := ctx;
    }

    /** `resetRoadmap`: clears the roadmap, the chat, its context and the current id, and cancels the pending auto-save. */
    method ResetRoadmap()
      modifies this`roadmapContent, this`chatMessages, this`chatContext, this`currentRoadmapId, this`pending
      ensures roadmapContent == "" && chatMessages == [] && chatContext == None
      ensures currentRoadmapId == None && pending == None
    {
      roadmapContent := "";
      chatMessages := [];
      chatContext := None;
      currentRoadmapId := None;
      pending := None;
    }
  }
}
