/** The sidebar title of a saved assistant conversation. */
module Conversations {
  import opened Messages

  /** The longest content shown in full. */
  const TitleLength: nat := 40

  predicate NoUserMessage(ms: seq<ChatMessage>) {
    forall k | 0 <= k < |ms| :: ms[k].role != User
  }

  /** `messages.find(m => m.role === 'user')`, as a position: the first user message, or -1. */
  function FirstUserIndex(ms: seq<ChatMessage>): (i: int)
    ensures -1 <= i < |ms|
    ensures i == -1 <==> NoUserMessage(ms)
    ensures i >= 0 ==> ms[i].role == User && NoUserMessage(ms[..i])
  {
    if |ms| == 0 then -1
    else if ms[0].role == User then 0
    else
      var k := FirstUserIndex(ms[1..]);
      if k < 0 then -1
      else
        assert ms[..k + 1] == [ms[0]] + ms[1..][..k];
        k + 1
  }

  /**
   * `getConversationTitle`: the first user message's content, cut to 40 characters
   * followed by "..." when it is longer; "New conversation" when there is no user message.
   */
  function GetConversationTitle(ms: seq<ChatMessage>): (t: string)
    ensures NoUserMessage(ms) ==> t == "New conversation"
    ensures var i := FirstUserIndex(ms);
            i >= 0 ==> var c := ms[i].content;
                       && (|c| <= TitleLength ==> t == c)
                       && (|c| > TitleLength ==> |t| == TitleLength + 3 && t[..TitleLength] == c[..TitleLength] && t[TitleLength..] == "...")
    ensures |t| <= TitleLength + 3
  {
    var i := FirstUserIndex(ms);
    if i < 0 then "New conversation"
    else
      var c := ms[i].content;
      if |c| > TitleLength then c[..TitleLength] + "..." else c
  }

  /** Assistant messages before the first user message do not change the title. */
  lemma {:induction false} TitleSkipsLeadingAssistants(front: seq<ChatMessage>, ms: seq<ChatMessage>)
    requires NoUserMessage(front)
    ensures GetConversationTitle(front + ms) == GetConversationTitle(ms)
    decreases |front|
  {
    if |front| > 0 {
      assert (front + ms)[1..] == front[1..] + ms;
      assert (front + ms)[0] == front[0];
      TitleSkipsLeadingAssistants(front[1..], ms);
      FirstUserIndexCons(front[0], front[1..] + ms);
    } else {
      assert front + ms == ms;
    }
  }

  /** A message that is not from the user shifts the first user message by one. */
  lemma FirstUserIndexCons(m: ChatMessage, ms: seq<ChatMessage>)
    requires m.role != User
    ensures var k := FirstUserIndex(ms);
            FirstUserIndex([m] + ms) == if k < 0 then -1 else k + 1
  {
    assert ([m] + ms)[1..] == ms;
  }

  /** Messages after the first user message do not change the title either. */
  lemma TitleIgnoresLaterMessages(ms: seq<ChatMessage>, later: seq<ChatMessage>)
    requires !NoUserMessage(ms)
    ensures GetConversationTitle(ms + later) == GetConversationTitle(ms)
  {
    var i := FirstUserIndex(ms);
    var all := ms + later;
    assert all[i] == ms[i];
    assert NoUserMessage(all[..i]) by {
      forall k | 0 <= k < i ensures all[..i][k].role != User {
        assert all[..i][k] == ms[..i][k];
      }
    }
    FirstUserIndexAt(all, i);
  }

  /** The first position holding a user message is what `FirstUserIndex` finds. */
  lemma {:induction false} FirstUserIndexAt(ms: seq<ChatMessage>, i: nat)
    requires i < |ms| && ms[i].role == User && NoUserMessage(ms[..i])
    ensures FirstUserIndex(ms) == i
    decreases i
  {
    if i > 0 {
      assert ms[0] == ms[..i][0];
      assert ms[1..][..i - 1] == ms[..i][1..];
      FirstUserIndexAt(ms[1..], i - 1);
    }
  }
}
