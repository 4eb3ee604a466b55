/**
 * The assistant page's `streamChat`: the user's message is shown and saved, the
 * answer is streamed into an assistant message, and the finished conversation is
 * saved. Unlike the roadmap hook, a payload that does not parse is dropped and there
 * is no final flush.
 */
module AssistantPage {
  import opened Wrappers
  import opened Text
  import opened Sse
  import opened StreamReading
  import opened Messages

  const Apology := ChatMessage(Assistant, "Sorry, I encountered an error. Please try again.")

  /** A write of a conversation's messages that the database accepted. */
  datatype ConversationSave = ConversationSave(conversationId: string, messages: seq<ChatMessage>)

  /**
   * What the network answers during one `streamChat`: the id of a newly created
   * conversation (`None` when creating it fails), whether saving the user's message to
   * an existing conversation succeeds, the assistant's response, and whether saving
   * the finished conversation succeeds.
   */
  datatype Replies = Replies(created: Option<string>, userSaved: bool, response: Response, finalSaved: bool)

  /** The list on screen while an answer streams in: no assistant message until some text has arrived. */
  function Shown(all: seq<ChatMessage>, content: string): seq<ChatMessage> {
    if content == "" then all else all + [ChatMessage(Assistant, content)]
  }

  /** After a user's message, upserting the running text is showing it. */
  lemma UpsertShown(all: seq<ChatMessage>, a: string, b: string)
    requires !EndsWithAssistant(all) && b != ""
    ensures Upsert(Shown(all, a), b) == Shown(all, b)
  {
    if a != "" {
      var u := Upsert(Shown(all, a), b);
      assert u[..|all|] == all;
    }
  }

  /**
   * When no text arrives, the page shows no assistant message, while the saved
   * conversation ends with an empty one, until the conversation is fetched again and
   * the page loads the saved list.
   */
  lemma SilentAnswerSavedButNotShown(all: seq<ChatMessage>)
    ensures Shown(all, "") == all
    ensures all + [ChatMessage(Assistant, "")] != Shown(all, "")
  {
    assert |all + [ChatMessage(Assistant, "")]| == |all| + 1;
  }

  class AssistantChat {
    var messages: seq<ChatMessage>
    var input: string
    var isLoading: bool
    var activeConversationId: Option<string>
    /** The conversation creations attempted, each with the message it was started with, whether or not it succeeded. */
    var creations: seq<ChatMessage>
    /** The conversation writes that succeeded, oldest first. */
    var saves: seq<ConversationSave>
    const parse: Parser

    constructor (parse: Parser)
      ensures messages == [] && input == "" && !isLoading && activeConversationId == None
      ensures creations == [] && saves == [] && this.parse == parse
    {
      messages := [];
      input := "";
      isLoading := false;
      activeConversationId := None;
      creations := [];
      saves := [];
      this.parse := parse;
    }

    /**
     * `handleSubmit`: ignored for blank input or while an answer is loading; otherwise
     * the trimmed input is sent.
     */
    method HandleSubmit(net: Replies)
      modifies this`messages, this`input, this`isLoading, this`activeConversationId, this`creations, this`saves
      ensures Trim(old(input)) == "" || old(isLoading) ==>
                messages == old(messages) && input == old(input) && isLoading == old(isLoading)
                && activeConversationId == old(activeConversationId) && creations == old(creations) && saves == old(saves)
      ensures Trim(old(input)) != "" && !old(isLoading) ==>
                input == "" && old(messages) + [ChatMessage(User, Trim(old(input)))] <= messages
    {
      if Trim(input) == "" || isLoading {
        return;
      }
      StreamChat(Trim(input), net);
    }

    /**
     * `streamChat`: the user's message is shown and the input cleared before anything
     * is sent. Without an active conversation one is created first, and a failure to
     * create it ends the call; with one, the user's message is saved at once, and a
     * failure there escapes the call with `isLoading` still set. Then the answer is
     * read; see `Answer`.
     */
    method StreamChat(userMessage: string, net: Replies)
      modifies this`messages, this`input, this`isLoading, this`activeConversationId, this`creations, this`saves
      ensures input == ""
      ensures old(messages) + [ChatMessage(User, userMessage)] <= messages
      ensures old(activeConversationId).None? ==>
                creations == old(creations) + [ChatMessage(User, userMessage)]
                && activeConversationId == net.created
      ensures old(activeConversationId).Some? ==>
                creations == old(creations) && activeConversationId == old(activeConversationId)
      ensures old(activeConversationId).None? && net.created.None? ==>
                messages == old(messages) + [ChatMessage(User, userMessage)] && !isLoading && saves == old(saves)
      ensures old(activeConversationId).Some? && !net.userSaved ==>
                messages == old(messages) + [ChatMessage(User, userMessage)] && isLoading && saves == old(saves)
      ensures old(activeConversationId).Some? && net.userSaved ==>
                !isLoading
                && Answered(old(messages) + [ChatMessage(User, userMessage)], old(activeConversationId).value, net,
                            old(saves) + [ConversationSave(old(activeConversationId).value, old(messages) + [ChatMessage(User, userMessage)])],
                            saves, messages)
      ensures old(activeConversationId).None? && net.created.Some? ==>
                !isLoading
                && Answered(old(messages) + [ChatMessage(User, userMessage)], net.created.value, net, old(saves), saves, messages)
    {
      var all := messages + [ChatMessage(User, userMessage)];
      messages := all;
      input := "";
      isLoading := true;
      var conversationId := activeConversationId;
      if conversationId.None? {
        creations := creations + [ChatMessage(User, userMessage)];
        if net.created.None? {
          isLoading := false;
          return;
        }
        conversationId := net.created;
        activeConversationId := conversationId;
      } else {
        if !net.userSaved {
          return;
        }
        saves := saves + [ConversationSave(conversationId.value, all)];
      }
      Answer(all, conversationId.value, net.response, net.finalSaved);
      isLoading := false;
    }

    /**
     * What reading the answer leaves, from the list `all` ending with the user's message
     * and the saves `before`: an error (a refused response, a missing reader, a failed
     * read, or a failed final save) appends the apology after whatever is on screen; a
     * completed read saves `all` followed by the answer, empty or not.
     */
    ghost predicate Answered(all: seq<ChatMessage>, id: string, net: Replies,
                             before: seq<ConversationSave>, after: seq<ConversationSave>, shown: seq<ChatMessage>)
    {
      var resp := net.response;
      if !IsOk(resp.status) || resp.body.None? then
        shown == all + [Apology] && after == before
      else
        var content := Concat(AssistantDeltas(resp.body.value.chunks, parse));
        if resp.body.value.failure.Some? then
          shown == Shown(all, content) + [Apology] && after == before
        else if net.finalSaved then
          shown == Shown(all, content) && after == before + [ConversationSave(id, all + [ChatMessage(Assistant, content)])]
        else
          shown == Shown(all, content) + [Apology] && after == before
    }

    /** The `try` block of `streamChat` from the request on, with its `catch`. */
    method Answer(all: seq<ChatMessage>, id: string, resp: Response, finalSaved: bool)
      requires messages == all && !EndsWithAssistant(all)
      modifies this`messages, this`saves
      ensures Answered(all, id, Replies(None, true, resp, finalSaved), old(saves), saves, messages)
    {
      if !IsOk(resp.status) || resp.body.None? {
        messages := messages + [Apology];
        return;
      }
      var content := ReadAnswer(all, resp.body.value.chunks);
      if resp.body.value.failure.Some? {
        messages := messages + [Apology];
        return;
      }
      if finalSaved {
        saves := saves + [ConversationSave(id, all + [ChatMessage(Assistant, content)])];
      } else {
        messages := messages + [Apology];
      }
    }
  
    /** The read loop: the text arrived so far is shown in one assistant message after `all`. */
    method ReadAnswer(all: seq<ChatMessage>, chunks: seq<string>) returns (content: string)
      requires messages == all && !EndsWithAssistant(all)
      modifies this`messages
      ensures content == Concat(AssistantDeltas(chunks, parse)) && messages == Shown(all, content)
    {
      var reader := new StreamReader(parse, Drop);
      for k := 0 to |chunks|
        modifies reader, this`messages
        invariant reader.Valid() && messages == Shown(all, reader.acc)
        invariant reader.buffer == Feeds("", chunks[..k], parse, Drop).rest
        invariant reader.deltas == Feeds("", chunks[..k], parse, Drop).deltas
      {
        FeedsStep("", chunks, k, parse, Drop);
        FeedAndShow(reader, all, chunks[k]);
      }
      assert chunks[..|chunks|] == chunks;
      content := reader.acc;
    }
  
    /** One pass of the read loop: scan the chunk, then upsert the text read so far, if any. */
    method FeedAndShow(reader: StreamReader, all: seq<ChatMessage>, chunk: string)
      requires reader.Valid() && messages == Shown(all, reader.acc) && !EndsWithAssistant(all)
      modifies reader, this`messages
      ensures reader.Valid() && messages == Shown(all, reader.acc)
      ensures var s := Scan(old(reader.buffer) + chunk, reader.parse, reader.policy);
              reader.buffer == s.rest && reader.deltas == old(reader.deltas) + s.deltas
    {
      ghost var before := reader.acc;
      reader.Feed(chunk);
      if reader.acc != "" {
        UpsertShown(all, before, reader.acc);
        messages := Upsert(messages, reader.acc);
      }
    }
  }
}
