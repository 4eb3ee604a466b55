/**
 * Chat messages as both chat clients keep them (`ChatMessage` in the roadmap hook,
 * `ConversationMessage` on the assistant page), and the list edits they perform.
 */
module Messages {

  datatype Role = User | Assistant

  datatype ChatMessage = ChatMessage(role: Role, content: string)

  /** `list.slice(0, -1)`: every entry but the last; an empty list stays empty. */
  function DropLast<T>(s: seq<T>): (r: seq<T>)
    ensures |s| == 0 ==> r == []
    ensures |s| > 0 ==> r + [s[|s| - 1]] == s
  {
    if |s| == 0 then [] else s[..|s| - 1]
  }

  /** Rolling back removes exactly the entry just appended. */
  lemma DropLastUndoesAppend<T>(s: seq<T>, x: T)
    ensures DropLast(s + [x]) == s
  {
    assert (s + [x])[..|s|] == s;
  }

  /**
   * A copy of the list whose last entry is replaced by `m` (`copy[copy.length - 1] = m`).
   * On an empty list that assignment creates a property named "-1" and the list stays empty.
   */
  function SetLast(s: seq<ChatMessage>, m: ChatMessage): (r: seq<ChatMessage>)
    ensures |r| == |s|
    ensures |s| > 0 ==> r[..|s| - 1] == s[..|s| - 1] && r[|s| - 1] == m
    ensures |s| == 0 ==> r == []
  {
    if |s| == 0 then [] else s[..|s| - 1] + [m]
  }

  /** Replacing the entry just appended. */
  lemma SetLastOfAppend(s: seq<ChatMessage>, x: ChatMessage, m: ChatMessage)
    ensures SetLast(s + [x], m) == s + [m]
  {
    assert (s + [x])[..|s|] == s;
  }

  predicate EndsWithAssistant(s: seq<ChatMessage>) {
    |s| > 0 && s[|s| - 1].role == Assistant
  }

  /**
   * The assistant page's update for a new delta: when the list ends with an assistant
   * message only that message's content changes; otherwise exactly one assistant
   * message is appended.
   */
  function Upsert(s: seq<ChatMessage>, content: string): (r: seq<ChatMessage>)
    ensures EndsWithAssistant(s) ==> |r| == |s| && r[..|s| - 1] == s[..|s| - 1]
    ensures !EndsWithAssistant(s) ==> |r| == |s| + 1 && r[..|s|] == s
    ensures EndsWithAssistant(r) && r[|r| - 1] == ChatMessage(Assistant, content)
  {
    if EndsWithAssistant(s) then s[..|s| - 1] + [s[|s| - 1].(content := content)]
    else s + [ChatMessage(Assistant, content)]
  }

  /**
   * Upserting twice is upserting the later content once: publishing the running text
   * after every delta or only after the last one leaves the same list.
   */
  lemma UpsertCollapses(s: seq<ChatMessage>, a: string, b: string)
    ensures Upsert(Upsert(s, a), b) == Upsert(s, b)
  {
    var u := Upsert(s, a);
    assert u[..|u| - 1] == s[..|u| - 1];
  }

  /** The list after upserting each published value in turn. */
  function UpsertEach(s: seq<ChatMessage>, contents: seq<string>): seq<ChatMessage>
    decreases |contents|
  {
    if |contents| == 0 then s else UpsertEach(Upsert(s, contents[0]), contents[1..])
  }

  /** Upserting after every delta leaves the list that one upsert of the last value gives. */
  lemma {:induction false} UpsertEachIsLast(s: seq<ChatMessage>, contents: seq<string>)
    requires |contents| > 0
    ensures UpsertEach(s, contents) == Upsert(s, contents[|contents| - 1])
    decreases |contents|
  {
    if |contents| > 1 {
      UpsertEachIsLast(Upsert(s, contents[0]), contents[1..]);
      UpsertCollapses(s, contents[0], contents[|contents| - 1]);
    }
  }
}
