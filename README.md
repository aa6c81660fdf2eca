# OnWave AI questionnaire and chat — a Dafny model

OnWave AI is a small Next.js front end. It walks a startup founder through an
18-question questionnaire in five sections. It then seeds a chat transcript
with an AI-generated set of recommendations and lets the founder keep
chatting. This project models the deterministic logic behind that flow and
proves properties of it.

- **`Store`** (`store.dfy`) is the session store. It is a `Session` class holding:
  - the profile (`quizResponses`), a map from field id to a single token or a list;
  - the transcript (`chatHistory`);
  - the two flags `quizCompleted` and `initialResponseGenerated`.

  Each of its six actions is a method. The method states the field it changes and that nothing else changes.
- **`Header`** (`header.dfy`) is the restart button. It resets the quiz, then the chat.
- **`Ai`** (`ai.dfy`) is the remote-reply resolver `getHuggingFaceResponse` with the HTTP exchange taken as an input (`Transport`). It covers:
  - the prompt template, including the `Unknown` / `Not specified` substitutions;
  - the five accepted shapes of the decoded body, in priority order;
  - the `[/INST]` / `</s>` cleanup;
  - the apology literal;
  - the cases that throw.
- **`Chat`** (`chat.dfy`) holds the offline reply generator `getMockResponse` and the send step `handleSendMessage`. The generator has three branches: a recommend/suggest keyword, a case-insensitive tool-name scan over the industry table, and a default sentence.
- **`Quiz`** (`quiz.dfy`) is the questionnaire controller. It covers:
  - the catalog, reduced to ids, kinds and selection limits;
  - navigation and the integer progress count;
  - the multi-select toggle that evicts the oldest entry at the limit;
  - the completion sequence, with its own fallback template.
- **`Text`** (`text.dfy`) models the JavaScript string operations the code relies on: `includes`/`indexOf`, `startsWith`, `split(m)[1]`, `replace` with a string pattern (first occurrence only), `trim`, `join` and `toLowerCase`.
- **`Wrappers`** (`wrappers.dfy`) holds `Option` and `Result`.

JavaScript semantics the model writes out:
- A missing profile key is `undefined`. It prints as `undefined` inside a template literal; a list prints as its `","`-join.
- `x || d` replaces the empty string.
- A list field holding a string makes `.join` throw a `TypeError` before the request is sent. `Ai.BuildPrompt` returns a failure for it. A profile of the store's own shape (`Store.WellShaped`) never does, so for such profiles only the transport can fail.
- `response.ok` is a status in 200..299.
- A body that is not JSON makes `response.json()` reject, and the `catch` re-throws. A body that is JSON but matches none of the five shapes is not a failure: the function returns the apology.

Two behaviours that are easy to misread in the code are modelled as written:
- A successful body that matches none of the five shapes does not reach the caller's offline fallback. `getHuggingFaceResponse` returns the apology string for it (`Ai.UnrecognisedShapeGivesApology`). Only a network error, a non-2xx status or a body that is not JSON make the call throw, and only then do the callers fall back (`Ai.ThrowsOnlyOnTransportFailure`).
- `getMockResponse` looks up `businessSize`, which the store never declares, so its scale word is always the template's `undefined` (`Chat.ScaleWordIsUndefined`). The model keeps that output instead of inventing a default.

Two consequences of the code's structure are part of the model:
- The completion sequence belongs to the render in which the last answer was given. It therefore reads the profile from before the last `setQuizResponse`. `Quiz.Controller.MoveToNext` takes that render-time profile as `seen`. `HandleSingleSelect` and `SubmitMultiSelect` pass the profile from before their own write, so the reply to the kickoff question never sees the final answer (`concernsBarriers`).
- Nothing inside the outer `try` of `handleQuizCompletion` can throw once the inner call's failure is caught. The outer `catch` is therefore not reachable, and completion always sets both flags.

## Model

Several contracts below are stated in terms of short predicates that each stand for one test in the source. They are not rows of their own:
- `Ai.IsOkStatus` is `response.ok` (onwave-ai/app/utils/ai.js:72).
- `Ai.Decode` is the per-shape test on the decoded body (onwave-ai/app/utils/ai.js:84-102).
- `Chat.AsksForRecommendation` is the keyword test (onwave-ai/app/components/Chat.js:37).
- `Chat.NamedTool` is the scan over the tool table (onwave-ai/app/components/Chat.js:43-45).
- `Quiz.Unlimited` is `!question.maxSelections` (onwave-ai/app/components/Quiz.js:335).
- `Text.IsBlank` is `!inputMessage.trim()` (onwave-ai/app/components/Chat.js:164).

| member | source | states |
|---|---|---|
| Store.DefaultProfile | onwave-ai/app/store.js:6-34 | the initial answers have exactly the 18 declared fields, each `''` for a single-select field and `[]` for a multi-select one |
| Store.Get | onwave-ai/app/utils/ai.js:4-23 | a key lookup is defined exactly when the key is present, and then gives the stored value |
| Store.Interpolate | onwave-ai/app/components/Chat.js:39 | a missing value prints as `undefined`, a single token prints as itself, and a list prints as its `","`-join, as JavaScript's array-to-string does |
| Store.SetFieldKeepsShape | onwave-ai/app/store.js:41-47 | replacing one field with a value of its kind keeps the profile in the store's shape |
| Store.Session.constructor | onwave-ai/app/store.js:5-38 | the store starts with the default answers, an empty transcript and both flags false |
| Store.Session.SetQuizResponse | onwave-ai/app/store.js:41-47 | the field is replaced wholesale; every other field, the transcript and both flags are unchanged |
| Store.Session.CompleteQuiz | onwave-ai/app/store.js:49 | `quizCompleted` becomes true (so a second call changes nothing); all else is unchanged |
| Store.Session.AddChatMessage | onwave-ai/app/store.js:51-54 | the transcript becomes the old one plus the message: one longer, with the earlier prefix untouched |
| Store.Session.SetInitialResponseGenerated | onwave-ai/app/store.js:56 | `initialResponseGenerated` becomes true whatever the caller passes; all else is unchanged |
| Store.Session.ResetChat | onwave-ai/app/store.js:58 | empties the transcript and clears `initialResponseGenerated`; answers and `quizCompleted` are unchanged |
| Store.Session.ResetQuiz | onwave-ai/app/store.js:60-84 | restores every default answer and clears both flags; the transcript is unchanged |
| Header.Restart | onwave-ai/app/components/Header.js:6-9 | from any state, reset-quiz then reset-chat gives exactly the initial store |
| Text.IndexOf | onwave-ai/app/utils/ai.js:112 | `indexOf` gives the first position where the pattern occurs, and none exactly when it occurs nowhere |
| Text.Contains | onwave-ai/app/utils/ai.js:112 | `includes` holds exactly when the pattern occurs at some position |
| Text.StartsWithIsIndexZero | onwave-ai/app/utils/ai.js:119 | `startsWith` holds exactly when the first occurrence is at position 0 |
| Text.IndexFrom | onwave-ai/app/utils/ai.js:112 | the first occurrence at or after a start index, or none when there is no occurrence there |
| Text.SecondPiece | onwave-ai/app/utils/ai.js:113-115 | `split(m)[1]` is the text right after the first `m`; it holds no `m`, no occurrence of `m` starts inside it, and it ends at the next `m` or at the end of the text |
| Text.ReplaceFirst | onwave-ai/app/utils/ai.js:115 | with no occurrence the text is unchanged; otherwise exactly the first occurrence is replaced and the text around it is kept |
| Text.Trim | onwave-ai/app/utils/ai.js:115 | the result is a slice of the input with only white space before and after it, and no white space at either of its own ends; it is empty exactly when the input is all white space |
| Text.Lower | onwave-ai/app/components/Chat.js:37 | same length, each character lower-cased |
| Text.JoinContains | onwave-ai/app/components/Chat.js:39 | the `join` of a list contains each element |
| Text.JoinEnds | onwave-ai/app/utils/ai.js:33-46 | the `join` of a non-empty list starts with its first element and ends with its last |
| Text.JoinEmpty | onwave-ai/app/utils/ai.js:33-46 | with a non-empty separator, the `join` is empty exactly for `[]` and `[""]`, the two lists that print `Not specified` |
| Ai.RenderSingle | onwave-ai/app/utils/ai.js:29-42 | a missing or empty single value renders as `Unknown`; any other token renders as itself; a list (truthy even when empty) renders as its `","`-join |
| Ai.RenderList | onwave-ai/app/utils/ai.js:33-46 | a missing or empty list renders as `Not specified`, a list as its `", "`-join; a string in a list field is the `TypeError` case |
| Ai.LineValue | onwave-ai/app/utils/ai.js:29-46 | a line throws exactly when it is a list line over a field holding a string, naming that field; otherwise its value is the single or list rendering |
| Ai.ProfileBlock | onwave-ai/app/utils/ai.js:28-46 | the profile block fails exactly when some line's value throws, and the failure names the field of the first such line |
| Ai.BuildPrompt | onwave-ai/app/utils/ai.js:4-55 | the prompt fails exactly when some list field holds a string, with `ListFieldNotArray` of the first such line in template order; otherwise it is the template around the profile block and the message |
| Ai.Assemble | onwave-ai/app/utils/ai.js:26-55 | the prompt opens with the head and the profile block and closes with `User message: `, the message and the tail |
| Ai.ProfileLinesMatchStore | onwave-ai/app/utils/ai.js:4-23 | every prompt line reads a field the store declares, as a list exactly for the multi-select ones, and every declared field has a line |
| Ai.PromptBuildsForStoreProfiles | onwave-ai/app/utils/ai.js:4-46 | for a profile of the store's shape the prompt never throws |
| Ai.PromptFrame | onwave-ai/app/utils/ai.js:26-55 | the prompt starts with `<s>[INST]`, contains `User message: ` followed by the message verbatim, and ends with `[/INST]</s>` |
| Ai.BlockShowsLine | onwave-ai/app/utils/ai.js:29-46 | every profile line, with its rendered value, appears in the profile block |
| Ai.PromptShowsField | onwave-ai/app/utils/ai.js:29-46 | every profile line, with its rendered value, appears in the prompt |
| Ai.StringField | onwave-ai/app/utils/ai.js:84 | `typeof j[key] === 'string'` holds exactly for an object whose field is a string, and the result is that string |
| Ai.Sniff | onwave-ai/app/utils/ai.js:84-102 | what the chain picks is what one of the five shapes decodes to; it picks nothing exactly when no shape decodes the body |
| Ai.FirstDecoded | onwave-ai/app/utils/ai.js:81-102 | the chosen shape decodes to the text and every shape tried before it failed; nothing is chosen exactly when every shape fails |
| Ai.ExtractedText | onwave-ai/app/utils/ai.js:81-102 | `extractedText` is the text of the first shape, in the order of the `if … else if` chain, that decodes the body, and `""` when none does |
| Ai.SniffFollowsPriority | onwave-ai/app/utils/ai.js:84-102 | the nested tests are first-match over the order `generated_text`, array of strings, array of `generated_text`, `text`, `output` |
| Ai.OddArrayGivesNoText | onwave-ai/app/utils/ai.js:88-94 | a non-empty array whose first element fits neither array shape yields no text, and `text`/`output` are not consulted |
| Ai.Clean | onwave-ai/app/utils/ai.js:109-125 | with `[/INST]` present the result is trimmed; with no marker and a prompt prefix it is the trimmed rest; otherwise the text is returned verbatim, untrimmed |
| Ai.CleanAtMarker | onwave-ai/app/utils/ai.js:112-117 | with `[/INST]` present, the cleanup is the trimmed piece after the first marker, with its first `</s>` removed |
| Ai.EchoCleanup | onwave-ai/app/utils/ai.js:112-117 | a reply that echoes a prompt ending in `[/INST]</s>` and then appends an answer cleans to the trimmed answer |
| Ai.Reply | onwave-ai/app/utils/ai.js:105-132 | the reply is the non-empty cleaned text when there is one, and the apology when no text was extracted or the cleanup left nothing |
| Ai.Resolve | onwave-ai/app/utils/ai.js:57-136 | the call throws exactly on a prompt `TypeError`, a network error, a non-2xx status, or a body that is not JSON, with that failure; otherwise it returns `Reply` of the built prompt and the decoded body |
| Ai.ThrowsOnlyOnTransportFailure | onwave-ai/app/utils/ai.js:72-136 | for store-shaped profiles, only a network error, a non-OK status or a non-JSON body throws |
| Ai.UnrecognisedShapeGivesApology | onwave-ai/app/utils/ai.js:131-132 | a 2xx JSON body of no accepted shape returns the apology, not a failure |
| Ai.PrefixStripUnreachable | onwave-ai/app/utils/ai.js:112-121 | any text starting with the prompt already contains `[/INST]`, so the prefix-strip branch is never taken |
| Ai.PieceUpToSecondMarker | onwave-ai/app/utils/ai.js:113-115 | `split('[/INST]')[1]` is the segment between the first and the second marker |
| Ai.MarkerCleanup | onwave-ai/app/utils/ai.js:112-117 | text of the form prefix, `[/INST]`, body, `</s>` cleans to the trimmed body |
| Chat.Word | onwave-ai/app/components/Chat.js:39-52 | a word-table miss prints `undefined`; a hit prints the table's word for the value |
| Chat.LookupWord | onwave-ai/app/components/Chat.js:22-34 | a word-table lookup misses exactly when no entry has the key, and a hit is an entry of the table |
| Chat.LookupTools | onwave-ai/app/components/Chat.js:38 | an industry lookup misses exactly when no bucket has the key, and a hit is the tools of the first bucket with that key |
| Chat.ToolsFor | onwave-ai/app/components/Chat.js:38 | an industry that is a table key gets exactly that bucket's tools; any other industry gets the `other` tools |
| Chat.FindTool | onwave-ai/app/components/Chat.js:43-48 | the scan returns a tool the lower-cased message contains, and no earlier tool in table order (bucket, then tool) is contained; none only when no tool is contained |
| Chat.Designation | onwave-ai/app/components/Chat.js:46 | the profile's own industry is called `your industry`; another bucket is called by its key |
| Chat.RecommendReply | onwave-ai/app/components/Chat.js:38-39 | the recommendation opens with `Based on your ` and carries the industry's tools joined by `", "` |
| Chat.ToolReply | onwave-ai/app/components/Chat.js:46 | the tool reply opens with the tool's name and says whose industry the tool is designed for |
| Chat.DefaultReply | onwave-ai/app/components/Chat.js:52 | the default reply opens with `As a ` and names the profile's industry before `businesses` |
| Chat.MockResponse | onwave-ai/app/components/Chat.js:7-53 | the offline reply is total and never empty |
| Chat.RecommendListsTools | onwave-ai/app/components/Chat.js:37-40 | a recommend/suggest message, even one naming a tool, gets the recommendation sentence, which contains the industry's tools joined by `", "` and each tool |
| Chat.UnknownIndustryRecommendsOther | onwave-ai/app/components/Chat.js:38-39 | with an industry that is no table key, a recommendation lists every `other` tool |
| Chat.RetailSuggestion | onwave-ai/app/components/Chat.js:37-40 | "Can you suggest something?" with industry `retail` lists the three retail tools |
| Chat.ToolQuestionNamesFirstTool | onwave-ai/app/components/Chat.js:43-48 | otherwise, a message naming a tool gets the reply about the first tool in table order that it contains, case-insensitively |
| Chat.YourIndustryIffOwnBucket | onwave-ai/app/components/Chat.js:46 | the tool reply says `your industry` if and only if the matched bucket is the profile's industry |
| Chat.GeneralReplyOtherwise | onwave-ai/app/components/Chat.js:52 | with no keyword and no tool named, the reply is the default sentence |
| Chat.ScaleWordIsUndefined | onwave-ai/app/components/Chat.js:8-34 | `businessSize` is no store field, so for store-shaped profiles the scale word is always `undefined` |
| Chat.QuizIndustriesUseOther | onwave-ai/app/components/Chat.js:11-19 | the questionnaire's industry values share only `other` with the table keys, so each gets the `other` tools |
| Chat.ChatReply | onwave-ai/app/components/Chat.js:177-195 | the assistant's answer is never empty |
| Chat.ChatFallbackOnlyOnFailure | onwave-ai/app/components/Chat.js:177-195 | for store-shaped profiles the offline reply is used exactly when the transport failed, the resolver's answer otherwise |
| Chat.SendMessage | onwave-ai/app/components/Chat.js:161-199 | white-space-only input appends nothing; otherwise the raw input and then one assistant reply are appended, in that order; nothing else changes |
| Quiz.CatalogMatchesStore | onwave-ai/app/components/Quiz.js:7-296 | every question writes a store field, and it is multi-select exactly when that field is a list |
| Quiz.AnswerKeepsShape | onwave-ai/app/components/Quiz.js:320-349 | writing a question's answer of that question's kind keeps the profile in the store's shape |
| Quiz.Without | onwave-ai/app/components/Quiz.js:330-332 | the filter keeps exactly the other values and shortens the list when the value was present |
| Quiz.WithoutConcat | onwave-ai/app/components/Quiz.js:332 | the filter works element by element: filtering a concatenation concatenates the filtered parts, so the kept values stay in their order |
| Quiz.WithoutAt | onwave-ai/app/components/Quiz.js:332 | in a duplicate-free list, filtering out a value cuts out exactly its position and keeps the rest in order |
| Quiz.WithoutKeepsNoDup | onwave-ai/app/components/Quiz.js:330-332 | filtering a duplicate-free list keeps it duplicate-free and removes exactly one entry when the value is present |
| Quiz.Toggle | onwave-ai/app/components/Quiz.js:326-344 | a pending value is removed, and a new value ends up last |
| Quiz.ToggleRemoves | onwave-ai/app/components/Quiz.js:330-332 | toggling a pending value removes it and keeps every other value; in a duplicate-free list it cuts out exactly that value's position, keeping the others in order |
| Quiz.ToggleAppends | onwave-ai/app/components/Quiz.js:333-336 | with no (or a zero) limit, or below it, a new value is appended at the end |
| Quiz.ToggleEvicts | onwave-ai/app/components/Quiz.js:337-340 | at the limit a new value drops the oldest entry and is appended, keeping the length |
| Quiz.ToggleEvictsExample | onwave-ai/app/components/Quiz.js:337-340 | with limit 3, `[a, b, c]` and `d` give `[b, c, d]` |
| Quiz.ToggleKeepsSelection | onwave-ai/app/components/Quiz.js:326-344 | a toggle keeps the pending list duplicate-free and within its limit |
| Quiz.ToggleTwiceRestores | onwave-ai/app/components/Quiz.js:326-344 | below the limit, toggling the same new value twice restores the list |
| Quiz.Next | onwave-ai/app/components/Quiz.js:351-363 | the next position is always in bounds |
| Quiz.Previous | onwave-ai/app/components/Quiz.js:365-374 | the previous position is always in bounds |
| Quiz.PreviousUndoesNext | onwave-ai/app/components/Quiz.js:351-374 | previous after next is the identity everywhere except at the last question |
| Quiz.NextUndoesPrevious | onwave-ai/app/components/Quiz.js:351-374 | next after previous is the identity everywhere except at the first question |
| Quiz.FixedPoints | onwave-ai/app/components/Quiz.js:351-374 | next stays put exactly at the last question (where completion runs); previous stays put exactly at (0, 0) |
| Quiz.QuestionsBefore | onwave-ai/app/components/Quiz.js:377-381 | the sections before section n hold between 3n and 4n questions |
| Quiz.TotalQuestions | onwave-ai/app/components/Quiz.js:377 | the section lengths add up to 18 |
| Quiz.Progress | onwave-ai/app/components/Quiz.js:378-382 | an in-bounds position counts within its own section's range of the total |
| Quiz.ProgressBounds | onwave-ai/app/components/Quiz.js:377-382 | the progress count lies in [0, 17] and is 17 exactly at the last question |
| Quiz.ProgressDistinguishes | onwave-ai/app/components/Quiz.js:377-382 | two in-bounds positions with the same progress count are the same position |
| Quiz.StepsMoveProgressByOne | onwave-ai/app/components/Quiz.js:351-382 | next adds one to the count and previous subtracts one, wherever they move |
| Quiz.CompletedQuestions | onwave-ai/app/components/Quiz.js:378-382 | the loop computes the lengths of the earlier sections plus the current index |
| Quiz.Pick | onwave-ai/app/components/Quiz.js:441-456 | a heading is the list entry when it exists and is non-empty, and the default when the field is missing or the entry is missing or empty |
| Quiz.FallbackLead | onwave-ai/app/components/Quiz.js:450 | the fallback opens with `Based on your ` and the funding stage, and names the industry |
| Quiz.Recommendations | onwave-ai/app/components/Quiz.js:452-458 | the numbered recommendations contain each of their three headings |
| Quiz.FallbackResponse | onwave-ai/app/components/Quiz.js:440-458 | the completion fallback is never empty |
| Quiz.FallbackShowsHeadings | onwave-ai/app/components/Quiz.js:450-456 | the fallback names `aiPriorities[0]`, `aiPriorities[1]` and `currentChallenges[0]`, or their defaults |
| Quiz.FallbackDefaultsOnFreshProfile | onwave-ai/app/components/Quiz.js:441-456 | on the initial answers the headings are `Process Automation`, `Customer Engagement` and `Data Analysis` |
| Quiz.CompletionReply | onwave-ai/app/components/Quiz.js:407-416 | the completion reply is never empty |
| Quiz.CompletionMessages | onwave-ai/app/components/Quiz.js:389-423 | completion appends exactly three messages: the assistant's welcome text, the user's kickoff question, then the assistant's `CompletionReply` to it |
| Quiz.CompletionFallbackOnFailure | onwave-ai/app/components/Quiz.js:407-416 | for store-shaped profiles a failed transport gives the fallback template |
| Quiz.CompletionUsesModelReply | onwave-ai/app/components/Quiz.js:407-416 | for store-shaped profiles a 2xx JSON body gives the resolver's answer, never the fallback |
| Quiz.Controller.constructor | onwave-ai/app/components/Quiz.js:299-309 | the controller starts at (0, 0) with nothing pending, over a store-shaped profile |
| Quiz.Controller.Pending | onwave-ai/app/components/Quiz.js:315-318 | a question not yet touched has nothing pending, and a pending list repeats no value |
| Quiz.Controller.HandleMultiSelect | onwave-ai/app/components/Quiz.js:326-344 | only the current question's pending list changes, by one toggle; the position is unchanged and pending lists stay duplicate-free |
| Quiz.Controller.HandleQuizCompletion | onwave-ai/app/components/Quiz.js:386-437 | the three completion messages are appended in order, both flags are set, and the answers are unchanged |
| Quiz.Controller.MoveToNext | onwave-ai/app/components/Quiz.js:351-363 | the position advances; the last question leaves it and runs completion instead; otherwise the store is untouched |
| Quiz.Controller.MoveToPrevious | onwave-ai/app/components/Quiz.js:365-374 | the position steps back, staying put at (0, 0); nothing else changes |
| Quiz.Controller.HandleSingleSelect | onwave-ai/app/components/Quiz.js:320-324 | on a single-select question, writes the option to the current field and advances, keeping the profile store-shaped; a completion it triggers sees the answers from before the write |
| Quiz.Controller.SubmitMultiSelect | onwave-ai/app/components/Quiz.js:346-349 | on a multi-select question, writes the pending list wholesale to the current field and advances, keeping the profile store-shaped; a completion it triggers sees the answers from before the write |

## Left out

- The HTTP request is an input of the model (`Ai.Transport`), not performed. This covers `fetch`, the endpoint URL, the bearer token from the environment, `async`/`await` and `console` logging.
- `getResponse` in `Chat.js` is not part of this model. The component never calls it; it calls the shared resolver.
- React rendering and UI state are not modelled:
  - JSX and styling;
  - auto-scroll;
  - the `isTyping`, `isSubmitting` and `isLoading` indicators;
  - clearing the input box;
  - the page transition timer;
  - the render-time initialisation of pending lists (`Quiz.Controller.Pending` reads a missing list as empty, which is what that initialisation makes true);
  - the disabled state of the Submit and Previous buttons (the handlers themselves do not check it).
- Interleaving is not modelled. Chat.SendMessage and Quiz.Controller.HandleQuizCompletion run atomically in the model. In the source, `handleSendMessage` awaits the network call after appending the user message and before appending the reply. During that wait nothing blocks "Reset Chat" or a second send; only the typing indicator shows. The same holds for the wait inside `handleQuizCompletion`. The model does not capture the transcripts such overlaps produce.
- The controller requires single-select answers on single-select questions and a submit only on multi-select questions. The component renders only the matching handler for each question.
- The floating-point `progressPercentage` is left out; the integer counts are modelled.
- Question prompts and option labels are data the logic never reads. The catalog keeps ids, kinds and limits, plus the industry option values.
- Text.Lower: `toLowerCase` is modelled on ASCII letters only; other characters are kept as they are.
- Text.Trim: `trim` removes the ECMAScript WhiteSpace and LineTerminator characters; Unicode-category membership beyond that fixed list is not modelled.
- Profile and table lookups see own keys only. Inherited properties of JavaScript objects (`constructor`, `toString`, …) are not modelled. This covers `quizResponses[key]` and the `industryTools`, `complexityLevel` and `scaleDescription` lookups in `getMockResponse`. In the source, an industry such as `constructor` finds an inherited function in `industryTools`, and `.join` on it throws; the model gives that industry the `other` tools.
- Quiz.Pick: when a list field holds a single string, indexing picks one character. That behaviour is modelled, but no lemma is stated about it.
- Chat.UnknownIndustryRecommendsOther: states that every `other` tool appears. It does not state that no tool of another bucket appears, because that is false in general. The reply also prints the industry string itself, and an industry that is no table key can be any text, such as `DevOps AI`. Whether other text in the template happens to contain a tool name also depends on the tool-name data.
