# SkillBridge client core, modelled in Dafny

SkillBridge is a career-guidance web app for students. This project models the
client-side logic behind its AI features and its onboarding:

- **Streaming answers.** The roadmap hook (`useCareerRoadmap`) and the assistant page
  (`AIAssistant`) read a chunked Server-Sent Events stream. They cut it into lines,
  classify each `data: ` line, and build the assistant's text from the parsed deltas.
  - `Sse` holds the pure specification: `Scan` is one pass of the inner loop, `Feeds`
    is the read loop over all chunks, and `FlushDeltas` is the hook's final flush.
  - `StreamReading.StreamReader` is the imperative loop, with its `buffer` and
    accumulator fields. It is proved against those functions.
  - The hook puts a line that fails to parse back into the buffer (`Requeue`). The
    assistant page drops it (`Drop`).
- **The roadmap hook.** `CareerRoadmap.RoadmapHook` covers:
  - generating a roadmap;
  - the roadmap chat, with its rollbacks;
  - the debounced auto-save, as one pending-save slot with an explicit fire step;
  - saving, loading and resetting a roadmap.
- **The assistant page.** `AssistantPage.AssistantChat` models the submit guard,
  conversation creation, the assistant-message upsert, the final save and the apology
  message shown on errors.
- **The pages.**
  - the onboarding wizard (`Onboarding`, over the survey tables in `SurveyQuestions`);
  - the career-paths wizard (`CareerPaths`);
  - the electives selection (`ElectivesAdvisor`);
  - the dashboard's progress card (`ProgressSection`).
- **The helpers.** Conversation titles (`Conversations`) and the progress statistics
  and summary (`UserProgress`).

Network calls, JSON parsing and timers are parameters:

- A `Response` carries the status, the server's `error` field and the decoded chunks.
  It also says whether the read failed part-way.
- `Parser` is a function value for `JSON.parse` followed by reading
  `choices?.[0]?.delta?.content`.
- The auto-save timer is the `pending` field plus `FireAutoSave`.

**A line that fails to parse.** Both pages handle it as if it were the first half of
a payload that arrives in pieces. The hook puts the line back in front of the buffer
and stops scanning (src/hooks/useCareerRoadmap.ts:212-215). The assistant page skips
it with the comment "Incomplete JSON, continue" (src/pages/AIAssistant.tsx:192). But
the inner loop only ever cuts complete lines, ending at a "\n", so a payload that
fails to parse is malformed and later text cannot complete it. In the hook, the line
put back is at the head of the buffer again, and every later scan stops on it.

The model follows the code. The lemmas state what actually happens:

- `Sse.BlockedStaysBlocked` and `Sse.FeedsWhileBlocked` show the read loop never gets
  past the failed line.
- `Sse.FailedLineDefersToFlush` shows everything received afterwards is only handled
  by the final flush, which drops the failed line.

So the text received after the failed line still arrives in the end, but nothing more is shown while the stream runs.

## Model

| member | source | states |
|---|---|---|
| Sse.Scan | src/hooks/useCareerRoadmap.ts:193-216 | The reference definition of one run of the inner loop, over a buffer: the lines consumed, the deltas appended, the buffer left and why the scan stopped. `ScanIsWellScanned` and the step lemmas state its meaning. |
| Sse.Feeds | src/hooks/useCareerRoadmap.ts:187-217 | The reference definition of the read loop: each chunk is appended to the buffer and scanned. `FeedsSnoc`, `ChunkingIrrelevant` and `FeedsWhileBlocked` state its meaning. |
| Sse.FlushDeltas | src/hooks/useCareerRoadmap.ts:219-238 | The reference definition of the final flush: each piece of the buffer split at "\n", handled on its own. `FlushPerLine`, `FlushGuardRedundant` and `FlushSkipsFailedHead` state its meaning. |
| Sse.HookDeltas | src/hooks/useCareerRoadmap.ts:187-238 | The deltas of a whole stream in the hook: the read loop, then the final flush of what it left. |
| Sse.AssistantDeltas | src/pages/AIAssistant.tsx:156-195 | The deltas of a whole stream on the assistant page: the read loop alone, with no flush. |
| Sse.DeltaOf | src/hooks/useCareerRoadmap.ts:206-211 | A parse outcome appends text exactly when it parsed and its content field is a non-empty string, and then appends that content. |
| Sse.StripCr | src/hooks/useCareerRoadmap.ts:198 | The line is the raw line, or the raw line without one trailing "\r", and a trailing "\r" is always removed. |
| Sse.Classify | src/hooks/useCareerRoadmap.ts:199-203 | A line is ignored exactly when it does not start with "data: ". A data line is `[DONE]` exactly when its trimmed payload is `[DONE]`; otherwise its payload is `line[6..]` trimmed. |
| Sse.DataLineIsNotBlank | src/hooks/useCareerRoadmap.ts:199-200 | A line starting with "data: " is never a comment or blank, so the first skip test never hides a data line. |
| Sse.ClassifyIgnoresCr | src/hooks/useCareerRoadmap.ts:198-203 | Stripping a trailing "\r" never changes how a line is classified. |
| Sse.ClassifyData | src/hooks/useCareerRoadmap.ts:200-203 | `data: p` with no surrounding whitespace in `p` is the terminator when `p` is `[DONE]`, and otherwise carries exactly `p`. |
| Sse.ScanIsWellScanned | src/hooks/useCareerRoadmap.ts:193-216 | Each consumed line is exactly the buffer's prefix up to the next "\n", without it. Only non-empty deltas are appended. Without a put-back, the remaining buffer is exactly what was not consumed, with no "\n" left when the buffer ran out. A put-back happens only under `Requeue`; it loses only the failed line's "\r" and leaves that line first. |
| Sse.LineDelta | src/hooks/useCareerRoadmap.ts:222-234 | A consumed line contributes text only when it is a data payload. |
| Sse.ScanHead | src/hooks/useCareerRoadmap.ts:194-215 | One step of the inner loop. The first line is cut off. A skipped or parsed line is consumed and the scan goes on. `[DONE]` is consumed and ends the scan. A rejected payload under `Requeue` is put back in front of the rest and ends the scan. |
| Sse.ScanNoLine | src/hooks/useCareerRoadmap.ts:194 | A buffer without a "\n" is left untouched and nothing is appended. |
| Sse.SkipStep | src/hooks/useCareerRoadmap.ts:199-200 | A comment, blank or non-data line is consumed and changes neither the deltas nor the final buffer. |
| Sse.DeltaStep | src/hooks/useCareerRoadmap.ts:205-211 | A parsed payload (any payload under `Drop`) is consumed and appends its content when that is non-empty. |
| Sse.DoneStep | src/hooks/useCareerRoadmap.ts:203 | `[DONE]` is consumed, appends nothing, and ends only this scan, leaving the rest buffered. |
| Sse.RequeueStep | src/hooks/useCareerRoadmap.ts:212-215 | A rejected payload makes the buffer `line + "\n" + rest` and ends the scan without appending anything. |
| Sse.ScanComposes | src/hooks/useCareerRoadmap.ts:187-217 | When a scan ran the buffer out, scanning again after appending a chunk gives the same result as scanning the longer buffer at once. |
| Sse.FeedsSnoc | src/hooks/useCareerRoadmap.ts:187-191 | One more chunk extends the read loop by exactly one scan of the leftover buffer plus that chunk. |
| Sse.ChunkingIrrelevant | src/hooks/useCareerRoadmap.ts:187-217 | When a single scan of the whole input runs the buffer out, every chunking of the input gives the same lines, deltas and leftover. |
| Sse.BlockedStaysBlocked | src/hooks/useCareerRoadmap.ts:212-215 | Under `Requeue`, a buffer headed by a rejected payload stays blocked after more text arrives. Nothing is consumed or appended, and the new text queues behind the failed line. |
| Sse.FeedsWhileBlocked | src/hooks/useCareerRoadmap.ts:187-217 | Once blocked, the read loop consumes and appends nothing for any number of further chunks, and keeps all of them buffered. |
| Sse.PieceDeltasAppend | src/hooks/useCareerRoadmap.ts:221-238 | The flush handles its pieces independently: the deltas of two runs of pieces are the deltas of each, in order. |
| Sse.BlankLineAddsNothing | src/hooks/useCareerRoadmap.ts:224 | A whitespace-only piece never contributes text. |
| Sse.BlankSplitAddsNothing | src/hooks/useCareerRoadmap.ts:220-224 | No piece of a whitespace-only buffer contributes text. |
| Sse.FlushGuardRedundant | src/hooks/useCareerRoadmap.ts:220-221 | The flush's `textBuffer.trim()` guard changes no result: flushing is handling every piece. |
| Sse.FlushPerLine | src/hooks/useCareerRoadmap.ts:221-238 | The flush distributes over a "\n": flushing `a + "\n" + b` gives the deltas of `a` followed by those of `b`. |
| Sse.FlushOneLine | src/hooks/useCareerRoadmap.ts:221-238 | Flushing a single line yields that line's delta, if it has one. |
| Sse.FlushSkipsTrailingTerminator | src/hooks/useCareerRoadmap.ts:227 | A terminator line at the end of the buffer is skipped with `continue` and adds nothing. |
| Sse.FlushSkipsFailedHead | src/hooks/useCareerRoadmap.ts:228-237 | A rejected payload at the head of the buffer is dropped silently by the flush, which goes on with the lines behind it. |
| Sse.PoliciesAgreeUnlessRequeued | src/pages/AIAssistant.tsx:164-193 | The assistant page frames and classifies lines exactly as the hook does: both policies give the same scan whenever the hook puts nothing back. |
| Sse.FailedLineDefersToFlush | src/hooks/useCareerRoadmap.ts:212-238 | After a rejected line, the hook's read loop appends nothing more. The final flush handles everything received after that line, as if that text alone were flushed. |
| Sse.DataLineShape | src/hooks/useCareerRoadmap.ts:198-203 | A `data: ` line with a bare payload has no newline and no "\r", and classifies as that payload or as the terminator. |
| Sse.ScanDataLine | src/hooks/useCareerRoadmap.ts:194-215 | Scanning a buffer headed by `data: p` ends at the line when `p` is `[DONE]`. Otherwise it consumes the line and appends its delta, or, under `Requeue` with a rejected `p`, puts the line back. |
| Sse.HookFlushesUnterminatedLine | src/hooks/useCareerRoadmap.ts:219-238 | A last `data:` line sent without a closing newline still reaches the hook's text through the final flush. |
| Sse.HookFlushesLastPiece | src/hooks/useCareerRoadmap.ts:187-238 | An unterminated last chunk after a read loop that left nothing over is handled by the flush alone. |
| Sse.AssistantDropsUnterminatedLine | src/pages/AIAssistant.tsx:156-195 | On the assistant page a trailing fragment without "\n" is never processed, because there is no final flush. |
| Sse.FeedsOne | src/hooks/useCareerRoadmap.ts:187-217 | Feeding one chunk to an empty buffer is a single scan. |
| Sse.ScanTerminator | src/hooks/useCareerRoadmap.ts:203 | A terminator line ends the scan right after itself and leaves everything behind it buffered. |
| Sse.ScanLoneDataLine | src/hooks/useCareerRoadmap.ts:194-210 | A complete `data:` line alone appends exactly its content. |
| Sse.AssistantDoneDependsOnChunking | src/pages/AIAssistant.tsx:158-174 | On the assistant page, `[DONE]` stops the scan and leaves the rest of its chunk buffered until the next chunk arrives. So when that chunk is the stream's last, a line behind `[DONE]` in it is never read, while the same line sent as a chunk of its own is read: the text depends on where the transport cut the stream. |
| Sse.AssistantSeparateChunks | src/pages/AIAssistant.tsx:158-174 | After a terminator in its own chunk, the next chunk is scanned as if it came first. |
| Sse.TerminatorAlone | src/hooks/useCareerRoadmap.ts:203 | A chunk holding only a terminator line consumes it, appends nothing and leaves an empty buffer. |
| Sse.HookFlushCatchesLineAfterDone | src/hooks/useCareerRoadmap.ts:187-238 | In the hook, a line that follows `[DONE]` in the same chunk still reaches the text through the final flush. |
| Sse.FlushLoneDataLine | src/hooks/useCareerRoadmap.ts:221-238 | Flushing a lone `data:` line with its newline yields exactly its delta. |
| Sse.FlushTrailingNewline | src/hooks/useCareerRoadmap.ts:221-222 | The empty piece after a final "\n" is skipped, so it adds nothing. |
| StreamReading.OrDefault | src/hooks/useCareerRoadmap.ts:175 | `errorData.error \|\| fallback`: the server's message unless it is missing or empty, and never empty with a non-empty fallback. |
| StreamReading.FeedsStep | src/hooks/useCareerRoadmap.ts:187-191 | The read loop over `k + 1` chunks is the loop over the first `k` followed by one scan. |
| StreamReading.Published | src/hooks/useCareerRoadmap.ts:207-210 | One published value per appended delta. |
| StreamReading.PublishedGrows | src/hooks/useCareerRoadmap.ts:207-210 | Every published value is the previous one followed by a non-empty delta, so it strictly extends it. The first is the first delta; the last is the concatenation of all deltas. |
| StreamReading.StreamReader.constructor | src/hooks/useCareerRoadmap.ts:184-185 | Reading starts with an empty buffer, an empty accumulator and no deltas. |
| StreamReading.StreamReader.Append | src/hooks/useCareerRoadmap.ts:208-209 | Appending a non-empty delta extends the accumulator by it and keeps it equal to the concatenation of the deltas. |
| StreamReading.StreamReader.ScanLine | src/hooks/useCareerRoadmap.ts:194-215 | One pass of the inner loop's body agrees with `Scan`: what it appended, followed by what scanning the rest appends, is what scanning the buffer appends. |
| StreamReading.StreamReader.Feed | src/hooks/useCareerRoadmap.ts:191-216 | Appending a chunk and running the inner loop leaves the buffer and the deltas of `Scan` on the old buffer plus the chunk. The accumulator remains the concatenation of all deltas. |
| StreamReading.StreamReader.FlushPiece | src/hooks/useCareerRoadmap.ts:222-237 | One piece of the flush appends that piece's delta, if it has one, and nothing else. |
| StreamReading.StreamReader.FinalFlush | src/hooks/useCareerRoadmap.ts:220-239 | The final flush appends exactly `FlushDeltas` of the buffer. |
| StreamReading.StreamReader.FlushPieces | src/hooks/useCareerRoadmap.ts:221-238 | The flush's `for` loop appends the deltas of its pieces, in order. |
| Messages.DropLast | src/hooks/useCareerRoadmap.ts:289 | `slice(0, -1)` removes exactly the last entry, and an empty list stays empty. |
| Messages.DropLastUndoesAppend | src/hooks/useCareerRoadmap.ts:394 | Rolling back removes exactly the message just appended. |
| Messages.SetLast | src/hooks/useCareerRoadmap.ts:338-345 | Only the last entry is replaced; the length and every earlier entry are kept. |
| Messages.SetLastOfAppend | src/hooks/useCareerRoadmap.ts:338-345 | Updating the message just appended replaces it. |
| Messages.Upsert | src/pages/AIAssistant.tsx:181-189 | After an assistant message, only that message's content changes. Otherwise exactly one assistant message is appended. Either way the list ends with the new content. |
| Messages.UpsertCollapses | src/pages/AIAssistant.tsx:181-189 | Upserting twice is the same as upserting the later content once. |
| Messages.UpsertEach | src/pages/AIAssistant.tsx:178-190 | One upsert per delta, in order. `UpsertEachIsLast` states its meaning. |
| Messages.UpsertEachIsLast | src/pages/AIAssistant.tsx:178-190 | Upserting after every delta leaves the list that one upsert of the last value gives. |
| CareerRoadmap.Refusal | src/hooks/useCareerRoadmap.ts:157-176 | 429 and 402 have their own toasts. Any other refused status gets a toast titled "Error". Every refusal toast is destructive and has a non-empty description. |
| CareerRoadmap.Schedule | src/hooks/useCareerRoadmap.ts:118-133 | One auto-save call: without a current roadmap the slot is left as it is; otherwise it holds these messages for that roadmap. |
| CareerRoadmap.ScheduleAll | src/hooks/useCareerRoadmap.ts:118-133 | Several auto-save calls before the timer fires. `LatestBatchWins` and `NoRoadmapNoSchedule` state its meaning. |
| CareerRoadmap.Generated | src/hooks/useCareerRoadmap.ts:135-250 | The roadmap text a generation leaves: empty when refused or without a body, the loop's and the flush's deltas after a complete read, the loop's alone after a failed one. `GenerateRoadmap` ensures the hook holds it. |
| CareerRoadmap.GenerationNotices | src/hooks/useCareerRoadmap.ts:157-246 | The toasts a generation shows: the refusal toast, "No response body", the read's error, or none after a complete read. |
| CareerRoadmap.LatestBatchWins | src/hooks/useCareerRoadmap.ts:118-133 | However many auto-save calls arrive before the timer fires, only the latest messages are pending, for the current roadmap. |
| CareerRoadmap.NoRoadmapNoSchedule | src/hooks/useCareerRoadmap.ts:118-119 | Without a current roadmap, auto-save calls neither schedule nor cancel anything. |
| CareerRoadmap.RoadmapHook.constructor | src/hooks/useCareerRoadmap.ts:39-56 | The hook starts with no roadmap, no chat, no context and nothing pending. |
| CareerRoadmap.RoadmapHook.GenerateRoadmap | src/hooks/useCareerRoadmap.ts:135-250 | The roadmap, chat and current id are cleared, and `isGenerating` ends false. A refused status or a missing body gives the matching toast and no content. A full read gives the read loop's deltas followed by the final flush's. A failed read keeps the loop's text and skips the flush. Auto-save is untouched. |
| CareerRoadmap.RoadmapHook.SendChatMessage | src/hooks/useCareerRoadmap.ts:252-398 | With no chat context nothing happens. A refused status or a missing body removes the user's message again, with its toast. A failed read keeps the question and drops the partial answer. A full read leaves prior messages, the user's message and the whole answer, and schedules exactly that list for auto-save. Loading always ends. |
| CareerRoadmap.RoadmapHook.RollBack | src/hooks/useCareerRoadmap.ts:283-300 | A refused request shows its toast and takes back exactly the user's message. |
| CareerRoadmap.RoadmapHook.StreamAnswer | src/hooks/useCareerRoadmap.ts:308-385 | The assistant message after the user's one holds the stream's text. A failed read removes it. A full read schedules the final list for auto-save. |
| CareerRoadmap.RoadmapHook.AutoSave | src/hooks/useCareerRoadmap.ts:118-133 | The pending save becomes these messages for the current roadmap; without one it is left as it was. |
| CareerRoadmap.RoadmapHook.FireAutoSave | src/hooks/useCareerRoadmap.ts:127-132 | The timer writes the one pending save, and nothing is pending afterwards. |
| CareerRoadmap.RoadmapHook.SaveRoadmap | src/hooks/useCareerRoadmap.ts:400-444 | Unauthenticated: no insert and a "Not authenticated" toast. Otherwise the row is inserted with the current chat. Success makes it the current roadmap with the saved toast; an error leaves the current roadmap and reports the error. |
| CareerRoadmap.RoadmapHook.LoadSavedRoadmap | src/hooks/useCareerRoadmap.ts:471-484 | The saved content, its chat (or none) and its id become current. The chat context is replaced only when the row comes with its career path. |
| CareerRoadmap.RoadmapHook.SetChatContext | src/hooks/useCareerRoadmap.ts:510 | The chat context becomes the given one. |
| CareerRoadmap.RoadmapHook.ResetRoadmap | src/hooks/useCareerRoadmap.ts:486-496 | Roadmap, chat, context and current id are cleared, and the pending auto-save is cancelled. |
| AssistantPage.UpsertShown | src/pages/AIAssistant.tsx:179-189 | After the user's message, upserting the running text shows exactly one assistant message holding it. |
| AssistantPage.SilentAnswerSavedButNotShown | src/pages/AIAssistant.tsx:179-206 | When no text arrives, the screen shows no assistant message, while the saved conversation ends with an empty one. This holds until the conversation is fetched again and the load effect replaces the screen with the saved list. |
| AssistantPage.AssistantChat.constructor | src/pages/AIAssistant.tsx:47-53 | The page starts with no messages, an empty input, no active conversation and nothing saved. |
| AssistantPage.AssistantChat.HandleSubmit | src/pages/AIAssistant.tsx:219-223 | Blank input, or a submit while loading, changes nothing. Otherwise the trimmed input is sent: it is appended as the user's message and the input is cleared. |
| AssistantPage.AssistantChat.StreamChat | src/pages/AIAssistant.tsx:98-217 | The user's message is shown before any call. Without an active conversation one is created, and a failed creation ends the call. A failed immediate save leaves `isLoading` set. Otherwise the answer follows `Answered` and loading ends. |
| AssistantPage.AssistantChat.Answer | src/pages/AIAssistant.tsx:126-216 | Any error appends exactly one apology after what is on screen. A completed read saves all messages followed by the assistant's text, empty or not. |
| AssistantPage.AssistantChat.ReadAnswer | src/pages/AIAssistant.tsx:156-195 | The answer is the concatenation of the parsed deltas, with failures dropped, and is what the screen shows. |
| AssistantPage.AssistantChat.FeedAndShow | src/pages/AIAssistant.tsx:162-190 | One chunk is scanned as `Scan` says, and the screen keeps showing the text read so far. |
| Conversations.FirstUserIndex | src/hooks/useConversations.ts:169 | `find` by role: the first user message, or none when no message is from the user. |
| Conversations.GetConversationTitle | src/hooks/useConversations.ts:168-173 | "New conversation" without a user message. Content of at most 40 characters is returned unchanged. Longer content gives its first 40 characters plus "...", 43 in all. No title is longer than 43. |
| Conversations.TitleSkipsLeadingAssistants | src/hooks/useConversations.ts:169 | Messages before the first user message do not change the title. |
| Conversations.TitleIgnoresLaterMessages | src/hooks/useConversations.ts:169-172 | Messages after the first user message do not change the title either. |
| UserProgress.CountsSumToTotal | src/hooks/useUserProgress.ts:116-123 | The per-type counts add up to the number of entries. |
| UserProgress.GetStats | src/hooks/useUserProgress.ts:113-127 | Unloaded entries give total 0 and no counts. Otherwise `total` is the entry count, `byType` holds exactly the present types with their counts, and `recentEntries` is the first five entries in order. |
| UserProgress.TitlesOf | src/hooks/useUserProgress.ts:137-139 | One title per entry of the type. Every title is the title of an entry of that type, and every such entry's title is listed. |
| UserProgress.TitlesOfAppend | src/hooks/useUserProgress.ts:137-139 | The titles are taken entry by entry, in order: those of a concatenation are those of each part. |
| UserProgress.TitlesOfOne | src/hooks/useUserProgress.ts:137-139 | A single entry contributes its title exactly when it has the type. With `TitlesOfAppend` this fixes the list, order included. |
| UserProgress.GetProgressSummary | src/hooks/useUserProgress.ts:130-163 | The fixed sentence for no entries. Otherwise the lines for skills, projects, roadmaps, milestones and goals, in that order, each present only when its type has entries, joined by "\n". |
| UserProgress.SummaryLineCount | src/hooks/useUserProgress.ts:135-162 | The summary has one line per summarised type that has entries. |
| UserProgress.UnsummarisedTypesGiveEmptySummary | src/hooks/useUserProgress.ts:135-162 | Entries that are only electives and conversation insights give the empty summary. |
| SurveyQuestions.GetSemesterBucket | src/config/surveyQuestions.ts:197-201 | Semesters up to 2 are early, 3-4 mid, 5 and later final (each an if-and-only-if). |
| SurveyQuestions.BucketMonotone | src/config/surveyQuestions.ts:197-201 | A later semester never falls into an earlier bucket. |
| SurveyQuestions.QuestionCounts | src/config/surveyQuestions.ts:17-195 | Early students answer 4 questions, mid 5, final 6. |
| SurveyQuestions.QuestionIdsDistinct | src/config/surveyQuestions.ts:17-195 | Within each bucket the question ids are distinct, so every answer has its own key. |
| SurveyQuestions.EarlyIds | src/config/surveyQuestions.ts:17-62 | The early survey asks excitement, learning style, college worry and settling, in that order. |
| SurveyQuestions.MidIds | src/config/surveyQuestions.ts:65-120 | The mid survey asks clarity, interest area, work style, struggle and stress, in that order. |
| SurveyQuestions.FinalIds | src/config/surveyQuestions.ts:123-189 | The final survey asks clarity, target role, skill gap, work style, job blocker and stress, in that order. |
| SurveyQuestions.EarlyQuestionsWellFormed | src/config/surveyQuestions.ts:17-62 | Every early question offers 3 or 4 options with distinct values. |
| SurveyQuestions.MidQuestionsWellFormed | src/config/surveyQuestions.ts:65-120 | Every mid question offers 3 or 4 options with distinct values. |
| SurveyQuestions.FinalQuestionsWellFormed | src/config/surveyQuestions.ts:123-189 | Every final question offers 3 or 4 options with distinct values. |
| Onboarding.SemesterLabel | src/pages/Onboarding.tsx:236-249 | A semester's radio value is a single digit from '1' to '8'. |
| Onboarding.ParseSemesterLabel | src/pages/Onboarding.tsx:77 | `parseInt` of a radio value is a semester from 1 to 8. |
| Onboarding.ParseSemesterLabelInverts | src/pages/Onboarding.tsx:92-111 | Parsing the stored label gives back the chosen semester. |
| Onboarding.SurveyNeverEmpty | src/pages/Onboarding.tsx:80-85 | Every bucket has at least four questions, so the survey's first step always exists. |
| Onboarding.CurrentStepNumber | src/pages/Onboarding.tsx:88-89 | Step 1 for the semester and 2 for the introduction. In the survey the step is 3 + `surveyStep`, which is at most `totalSteps` (2 + question count) while the step is a question. |
| Onboarding.Answer | src/pages/Onboarding.tsx:117-148 | An answer counts exactly when its key is present with a non-empty value. |
| Onboarding.QuestionsFor | src/pages/Onboarding.tsx:80-83 | No questions before a semester is chosen; otherwise the chosen semester's bucket's questions. `SurveyNeverEmpty` states that these are never empty. |
| Onboarding.TotalSteps | src/pages/Onboarding.tsx:88 | The semester step, the introduction and one step per question. |
| Onboarding.StressFromSettling | src/pages/Onboarding.tsx:130-139 | The stress level a settling answer stands for. `SettlingMapsToLevels` states its meaning. |
| Onboarding.ProfileFor | src/pages/Onboarding.tsx:105-148 | The profile `handleComplete` sends: the semester, its bucket, completion, and the clarity, work style, stress and struggle fields. `CompleteSurveyFillsProfile` states what a completed survey yields. |
| Onboarding.SettlingMapsToLevels | src/pages/Onboarding.tsx:130-139 | Every settling answer maps to a stress level, any other answer to 'moderate', and no two of the four settling answers map to the same level. |
| Onboarding.CareerClarityFor | src/pages/Onboarding.tsx:117-122 | The clarity answer if given; otherwise 'exploring' for early students and unset for the others. |
| Onboarding.StressLevelFor | src/pages/Onboarding.tsx:128-139 | The stress answer if given; otherwise the level the settling answer maps to; unset exactly when neither is answered. |
| Onboarding.PrimaryStruggleFor | src/pages/Onboarding.tsx:142-148 | The struggle answer if given; else the college-worry answer if given; else the job-blocker answer. Unset exactly when none of the three is answered. |
| Onboarding.CompleteSurveyFillsProfile | src/pages/Onboarding.tsx:105-148 | A survey completed with offered options yields a career clarity and a stress level from their enumerations and a primary struggle, in every bucket. It yields a work style exactly for mid and final students. |
| Onboarding.EarlyKeys | src/config/surveyQuestions.ts:17-62 | The keys the early survey stores its answers under. |
| Onboarding.EarlyOptions | src/config/surveyQuestions.ts:41-61 | The option values of the early survey's worry and settling questions. |
| Onboarding.EarlyProfile | src/pages/Onboarding.tsx:117-148 | A completed early survey answers settling and college worry, and never clarity, stress, struggle or work style. |
| Onboarding.MidShape | src/config/surveyQuestions.ts:65-120 | Where the mid survey asks the clarity, work style, struggle and stress questions, and their option values. |
| Onboarding.MidProfile | src/pages/Onboarding.tsx:117-148 | A completed mid survey answers clarity and stress from their enumerations, and also struggle and work style. |
| Onboarding.FinalShape | src/config/surveyQuestions.ts:123-189 | Where the final survey asks the clarity, work style, job blocker and stress questions, and their option values. |
| Onboarding.FinalProfile | src/pages/Onboarding.tsx:117-148 | A completed final survey answers clarity and stress from their enumerations, and also the job blocker and work style. |
| Onboarding.KeysOfSurveyAnswer | src/pages/Onboarding.tsx:369-383 | Answering a question of the survey adds no key outside that survey. |
| Onboarding.OnboardingWizard.constructor | src/pages/Onboarding.tsx:67-70 | The wizard starts on the semester step, with no semester and no answers. |
| Onboarding.OnboardingWizard.HandleSemesterSelect | src/pages/Onboarding.tsx:92-95 | Selecting a semester replaces the answers with exactly `{semester}`, keeping the wizard's invariant. |
| Onboarding.OnboardingWizard.HandleSemesterContinue | src/pages/Onboarding.tsx:97-99 | With a semester chosen, the wizard moves to the introduction. |
| Onboarding.OnboardingWizard.HandleIntroStart | src/pages/Onboarding.tsx:101-103 | The survey starts at its first question, which exists. |
| Onboarding.OnboardingWizard.ChooseOption | src/pages/Onboarding.tsx:369-383 | The value is recorded under the current question's key, and the answers keep only that survey's keys. |
| Onboarding.OnboardingWizard.HandleBack | src/pages/Onboarding.tsx:167-175 | A positive survey step goes back one. Step 0 goes to the introduction, the introduction to the semester step, and the semester step stays put. |
| Onboarding.OnboardingWizard.HandleNext | src/pages/Onboarding.tsx:177-183 | Below the last question the step advances. On the last question the survey is completed instead, exactly as `HandleComplete` states: the profile is sent, the answers are saved once the profile is, and the wizard finishes once both are saved. Outside the survey nothing happens. The step stays a question of the survey. |
| Onboarding.OnboardingWizard.HandleComplete | src/pages/Onboarding.tsx:105-165 | Without a semester nothing happens. Otherwise the mapped profile is sent. Once it is saved, every answer, the semester included, is saved as one batch. Finishing needs both saves. |
| CareerPaths.PhaseStep | src/pages/CareerPaths.tsx:165-184 | The three phases are steps 1, 2 and 3, each an if-and-only-if. |
| CareerPaths.CareerIndex | src/pages/CareerPaths.tsx:135 | `findIndex` by id: -1 exactly when no career path has the id, otherwise the first one that does. |
| CareerPaths.MatchingCareer | src/pages/CareerPaths.tsx:135 | None while the list is unloaded or the record has no career path. Otherwise the first career path with the record's id, or none. |
| CareerPaths.CareerPathsPage.constructor | src/pages/CareerPaths.tsx:24-28 | The page starts on choosing a career, with nothing chosen and not viewing a saved roadmap. |
| CareerPaths.CareerPathsPage.HandleCareerSelect | src/pages/CareerPaths.tsx:49-51 | The chosen career is recorded. |
| CareerPaths.CareerPathsPage.HandleExpertiseSelect | src/pages/CareerPaths.tsx:53-55 | The chosen level is recorded. |
| CareerPaths.CareerPathsPage.HandleNext | src/pages/CareerPaths.tsx:57-80 | From choosing a career to choosing a level only with a career. From choosing a level to the roadmap only with both choices; that clears `isViewingSaved`, sets the chat context and generates the roadmap. The hook then holds the generated text and the generation's toasts, as `Generated` and `GenerationNotices` give them. Anything else, and the first step, leave the hook entirely unchanged. The hook's chat loading flag, pending auto-save, writes and inserts are never touched. The step never goes back and advances by at most one. |
| CareerPaths.CareerPathsPage.HandleBack | src/pages/CareerPaths.tsx:82-93 | Back from choosing a level forgets only the level and leaves the hook entirely unchanged. Back from the roadmap forgets both choices, leaves the saved view, and resets the roadmap, which cancels its auto-save; the hook's toasts, writes and inserts are kept. On the first phase nothing changes. |
| CareerPaths.CareerPathsPage.HandleSaveRoadmap | src/pages/CareerPaths.tsx:95-103 | A roadmap is saved only with a career, a level and non-empty content, and then with the current chat. Signed out: nothing is inserted and a "Not authenticated" toast is shown. Inserted: the row becomes the current roadmap, with the saved toast. Rejected: the current roadmap stays and the error is shown. Without the three the hook is entirely unchanged. Only the hook's inserts, current roadmap id and toasts can change. |
| CareerPaths.CareerPathsPage.HandleRegenerate | src/pages/CareerPaths.tsx:105-119 | With both choices the roadmap is reset, cancelling the pending auto-save, and generated again. The hook then holds the generated text and the generation's toasts. Without both choices the hook is entirely unchanged. The hook's chat loading flag, writes and inserts are never touched. |
| CareerPaths.CareerPathsPage.HandleSelectSavedRoadmap | src/pages/CareerPaths.tsx:121-152 | Opens the roadmap view with `isViewingSaved` set and the level from the record. The career is replaced only by a matching loaded career path. The hook holds the record's content, chat and id. The chat context becomes the record's roadmap when the record names its career path, and is kept otherwise. The hook's pending auto-save, toasts, writes and inserts are kept. |
| CareerPaths.CareerPathsPage.SyncChatContext | src/pages/CareerPaths.tsx:155-163 | Once a finished roadmap has content and both choices are made, the chat context is that roadmap; otherwise the hook is entirely unchanged. No other field of the hook ever changes. |
| ElectivesAdvisor.Without | src/pages/ElectivesAdvisor.tsx:47 | The filter removes every occurrence of `name` and keeps every other entry as often as it occurs. |
| ElectivesAdvisor.WithoutAppend | src/pages/ElectivesAdvisor.tsx:47 | The filter works entry by entry, in order: filtering a concatenation filters each part. |
| ElectivesAdvisor.WithoutOne | src/pages/ElectivesAdvisor.tsx:47 | A single entry is kept exactly when it is not the name. With `WithoutAppend` this fixes the filter's result, order included. |
| ElectivesAdvisor.Toggle | src/pages/ElectivesAdvisor.tsx:44-50 | After a toggle the name is selected exactly when it was not before, and every other name is selected exactly as before. |
| ElectivesAdvisor.ToggleAbsentAppends | src/pages/ElectivesAdvisor.tsx:44-50 | Toggling an unselected name appends it at the end. |
| ElectivesAdvisor.TogglePresentRemoves | src/pages/ElectivesAdvisor.tsx:46-47 | Toggling a selected name removes every occurrence, keeps every other name, and shortens the list. |
| ElectivesAdvisor.WithoutAbsent | src/pages/ElectivesAdvisor.tsx:47 | Filtering out a name that does not occur changes nothing. |
| ElectivesAdvisor.WithoutAppended | src/pages/ElectivesAdvisor.tsx:47 | Filtering out a name ignores an occurrence appended at the end. |
| ElectivesAdvisor.ToggleTwiceRestores | src/pages/ElectivesAdvisor.tsx:44-50 | Toggling the same unselected name twice restores the selection exactly. |
| ElectivesAdvisor.WithoutNoDuplicates | src/pages/ElectivesAdvisor.tsx:47 | Filtering keeps a list free of duplicates. |
| ElectivesAdvisor.ToggleKeepsNoDuplicates | src/pages/ElectivesAdvisor.tsx:44-50 | Toggling keeps the selection free of duplicates. |
| ElectivesAdvisor.AnalyzeRejection | src/pages/ElectivesAdvisor.tsx:53-60 | Analysis may start exactly with a semester and at least one elective. A missing semester is reported first, then an empty selection. |
| ElectivesAdvisor.ElectivesAdvisorPage.constructor | src/pages/ElectivesAdvisor.tsx:38-42 | The page starts with no semester, the recommended path as career goal (or an empty goal), no selection and no result. |
| ElectivesAdvisor.ElectivesAdvisorPage.SetTargetSemester | src/pages/ElectivesAdvisor.tsx:149 | The target semester becomes the one picked. |
| ElectivesAdvisor.ElectivesAdvisorPage.SetCareerGoal | src/pages/ElectivesAdvisor.tsx:162 | The career goal becomes the one picked. |
| ElectivesAdvisor.ElectivesAdvisorPage.HandleElectiveToggle | src/pages/ElectivesAdvisor.tsx:44-50 | The selection becomes its toggle by the name. |
| ElectivesAdvisor.ElectivesAdvisorPage.HandleAnalyze | src/pages/ElectivesAdvisor.tsx:52-93 | A rejected analysis shows its message and changes nothing else. Otherwise the request is sent and the previous result cleared. Success shows the new result, failure shows the error toast, and the analysis ends either way. |
| ProgressSection.SemesterOrFirst | src/components/dashboard/ProgressSection.tsx:55 | A missing semester, or semester 0, counts as the first. |
| ProgressSection.ProgressScore | src/components/dashboard/ProgressSection.tsx:55 | The score is `min(100, total·10 + semester·5)`: never above 100, and 100 whenever the raw score reaches it. |
| ProgressSection.ScoreMonotone | src/components/dashboard/ProgressSection.tsx:55 | Tracking more entries never lowers the score. |
| ProgressSection.ScoreFullFromTenEntries | src/components/dashboard/ProgressSection.tsx:55 | From ten entries on, the score is full for any non-negative semester. |
| ProgressSection.DisplayedEntries | src/components/dashboard/ProgressSection.tsx:52 | Expanded, all entries are shown. Collapsed, the first four in order, or none while loading. |
| ProgressSection.ToggleIffHidden | src/components/dashboard/ProgressSection.tsx:142 | The view-all toggle is offered exactly when the collapsed list leaves entries out, i.e. with more than four. |
| ProgressSection.Encouragement | src/components/dashboard/ProgressSection.tsx:92-95 | The four conditional encouragement lines, as rendered. `ExactlyOneEncouragement` states that exactly one shows. |
| ProgressSection.HasViewAllToggle | src/components/dashboard/ProgressSection.tsx:142 | Whether the view-all toggle is offered. `ToggleIffHidden` states its meaning. |
| ProgressSection.ExactlyOneEncouragement | src/components/dashboard/ProgressSection.tsx:92-95 | For every total exactly one encouragement line is shown: the one for 0, 1-4, 5-9 or 10 and more. |
| Text.Trim | src/hooks/useCareerRoadmap.ts:202 | `trim()` is the string with its leading and trailing whitespace cut off: a substring with only whitespace before and after it, and none at either of its own ends. It is empty exactly for a blank string. |
| Text.TrimDropsTrailingCr | src/hooks/useCareerRoadmap.ts:198-202 | A trailing "\r" never survives `trim()`. |
| Text.IndexOf | src/hooks/useCareerRoadmap.ts:194 | `indexOf`: -1 exactly when the character is absent, otherwise its first position. |
| Text.Split | src/hooks/useCareerRoadmap.ts:221 | `split` always yields at least one piece. `SplitCutsEverySeparator` and `JoinSplit` state what the pieces are. |
| Text.SplitCutsEverySeparator | src/hooks/useCareerRoadmap.ts:221 | No piece of a split contains the separator: the string is cut at every occurrence. With `JoinSplit`, the pieces are exactly the text between separators. |
| Text.JoinSplit | src/hooks/useCareerRoadmap.ts:221 | Joining the pieces of a split with the separator restores the string, so the flush loses no text between pieces. |
| Text.SplitAround | src/hooks/useCareerRoadmap.ts:221 | Splitting at a separator between two strings splits each side independently. |
| Text.Take | src/hooks/useUserProgress.ts:125 | `slice(0, n)` is the prefix of length min(n, length). |

## Left out

- The network, the database and the stream decoder are parameters:
  - `fetch`, `reader.read()` and `TextDecoder` become decoded text chunks, an end or a failed read.
  - Supabase queries and mutations become the success or failure they report.
  - Request payloads (profiles, user ids, prompts) are not modelled.
  - A `fetch` that rejects (a network error) is not a case of `Response`. Its outcome is that of a non-ok status whose error field carries the rejection's message: the hook's toast and the assistant page's apology are the same.
- `JSON.parse` and the optional-chaining field access are one `Parser` function value, so what counts as valid JSON is not modelled.
- Timers and React scheduling (`setTimeout`, `useCallback`, state batching) are out. Each handler runs to completion in the order its statements run, and the debounce timer is the `pending` slot with `FireAutoSave`. Concurrent handlers, and stale closures over state, are not modelled.
- AssistantPage.SilentAnswerSavedButNotShown: holds only until the conversation is fetched again. The effect at src/pages/AIAssistant.tsx:57-61 that sets the shown messages to the fetched conversation's whenever the query result changes is left out. A successful save invalidates that query (src/hooks/useConversations.ts:138-141), and creating a conversation fetches the new one, so after a refetch the screen shows the saved list, possibly while an answer is still streaming.
- Strings are sequences of Unicode code points. JavaScript counts UTF-16 units, so a title that cuts a surrogate pair in `getConversationTitle` is not modelled.
- `Object.entries(answers)` is saved as the answers map itself. Its insertion order is not modelled.
- Toasts are recorded as notices in the hook and as error messages on the electives page. The onboarding page's success and failure toasts and its navigation are kept only as the `finished` flag.
- The survey's display text (titles, option captions, descriptions) lives in `SurveyQuestions.Wording`. Nothing is proved about it.
- `SurveyQuestions.GetSemesterIntroText` gives a title and a description for every bucket by its exhaustive `match`. Its text is not proved distinct: the solver needs more than the resource limit allows to compare the string literals.
- The emoji in the intro titles and the encouragement lines are kept as the code points stored in the repository's files.
- The Onboarding progress-bar percentage is floating point and is left out. So is `formatMarkdown`, in src/components/career/RoadmapDisplay.tsx, which is a chain of regular-expression replacements.
- The edge functions under supabase/functions are left out. They assemble prompts and pass the upstream stream through.
- Presentation-only pages and components are left out, as are the query and mutation wrappers in useConversations and useUserProgress. So are the assistant page's new-chat, select and delete handlers and the electives page's "add to roadmap".
- Onboarding.OnboardingWizard.HandleNext: the Next and Complete buttons are disabled until the current question is answered. The model does not require that, so it also covers completion with unanswered questions.
- Onboarding.OnboardingWizard.HandleSemesterSelect: the semester is taken as a number from 1 to 8, the values of the page's radio buttons, rather than as the string.
- CareerRoadmap.Refusal: for an unknown status the contract states only that the toast is titled "Error" with a non-empty description. `RoadmapHook.GenerateRoadmap` and `SendChatMessage` state the exact toast.
- AssistantPage.AssistantChat.HandleSubmit: the contract states that the user's message is appended and the input cleared. It leaves the rest to `StreamChat`'s contract rather than repeating it.
