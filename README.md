# HelloJohnXcode core, modelled in Dafny

HelloJohnXcode is a small iOS app with four parts:

- It downloads two JSON files from a Google Drive folder into its documents directory: `project__meta.json` (projects) and `project__actions.json` (actions).
- It shows the cached records as bullet lists, the most recently updated first.
- It has a voice tab that transcribes speech and, after a short countdown, speaks the transcription back.
- It has an LLM chat tab. Each call sends the user's input, a system prompt that accumulates the whole conversation, and a context text with the three newest projects and the five newest actions.

This project models that core and proves what it promises:

- **`Models`** holds the two record types and their JSON key tables. It also holds the loaders, which never fail and give `[]` on any error, and the token lookup, which reads the first element only and otherwise gives a sentinel.
- **`Sorting`** sorts records by `updatedAt`, greatest first, and takes the first `k`.
- **`OutputView`** renders the bullet cards of the output tab.
- **`LlmContext`** builds the context text of a call.
- **`LlmChat`**, class `ChatSession`, holds the LLM tab's state: the completion handler and the loading animation. The lemmas about the history and the prompt hold for any message format. `Transcript` and `PromptAfter` are their instances for the app's `newMessage`.
- **`Voice`**, class `VoiceSession`, holds the record / stop / settle / countdown state machine.
- **`DriveSync`**, with class `Documents`, covers the per-target loop of the Drive fetch, the download and the save.
- **`Text`**, **`Json`** and **`Wrappers`** are support modules:
  - joining and splitting strings;
  - rendering and reading decimals;
  - the lexicographic order that models Swift's `String` `>`;
  - a JSON value type;
  - `Option`.

Things outside the program are parameters:

- **JSON parser:** a function from bytes to an optional JSON value.
- **Documents directory:** a map from file name to bytes.
- **Network:** a function from a request to an optional response body.
- **`URL(string:)`:** a predicate.
- **Write success:** whether a document write succeeds is a predicate too.
- **Speech recogniser:** its results are inputs.
- **Synthesiser:** speaking appends to a ghost log.
- **LLM client:** its reply is an input.
- **Timers and `asyncAfter`:** they become explicit calls, `Tick`, `Settle` and `TimerFired`.

Some behaviour of the code is kept as written:

- **Reply labelling:** the completion handler reads `userInput` when the reply arrives. So a reply is recorded against whatever is in the input box at that moment, and the turn counter used is the one current at that moment.
- **Downloads:** an HTTP error response still carries a body. That body is saved like any other download.
- **Credential file:** the code reads `CLOSE_API_TOKEN` from the first object of a JSON array of string maps. A file of `{key, value}` records therefore yields the "not found" sentinel (`KeyValueRecordsGiveSentinel`). This model follows the code.

## Model

| member | source | states |
|---|---|---|
| Models.ProjectJsonKey | HelloJohnXcode/HelloJohnXcode/Models.swift:23-30 | The `CodingKeys` table of `ProjectMeta`: the JSON key of each of the ten properties, `project_id` through `updated_at`. |
| Models.ActionJsonKey | HelloJohnXcode/HelloJohnXcode/Models.swift:44-54 | The `CodingKeys` table of `ProjectAction`: the JSON key of each of the nine properties, `action_id` through `next_followup`. |
| Models.ProjectFieldOfKey | HelloJohnXcode/HelloJohnXcode/Models.swift:23-30 | The project key table inverted: a key it returns a field for is that field's JSON key, and every field whose key this is is the one returned. So the ten keys are distinct (`project_id`, `project_name`, `focus`, `target_audience`, `description`, `current_action`, `next_action`, `skills`, `created_at`, `updated_at`). |
| Models.ActionFieldOfKey | HelloJohnXcode/HelloJohnXcode/Models.swift:44-54 | The same for the nine action keys (`action_id` … `next_followup`): each field has its own key. |
| Models.StringsField | HelloJohnXcode/HelloJohnXcode/Models.swift:19 | A `[String]` field decodes exactly when the JSON value is an array of strings, and gives back those strings. |
| Models.EncodeProject | HelloJohnXcode/HelloJohnXcode/Models.swift:11-30 | The encoded object has every field under its coding key, with that field's value, and no other keys. |
| Models.EncodeAction | HelloJohnXcode/HelloJohnXcode/Models.swift:33-54 | The same for actions. |
| Models.DecodeProject | HelloJohnXcode/HelloJohnXcode/Models.swift:11-30 | A decoded project came from an object holding each field's value under that field's key. |
| Models.DecodeAction | HelloJohnXcode/HelloJohnXcode/Models.swift:33-54 | The same for actions. |
| Models.DecodeEncodeProject | HelloJohnXcode/HelloJohnXcode/Models.swift:11-30 | Decoding the encoding of any project gives that project back. |
| Models.DecodeEncodeAction | HelloJohnXcode/HelloJohnXcode/Models.swift:33-54 | Decoding the encoding of any action gives that action back. |
| Models.ProjectFieldsDetermine | HelloJohnXcode/HelloJohnXcode/Models.swift:12-21 | Two projects that agree on all ten stored properties are equal. |
| Models.ActionFieldsDetermine | HelloJohnXcode/HelloJohnXcode/Models.swift:34-42 | Two actions that agree on all nine stored properties are equal. |
| Models.DecodeProjectIgnoresUnknownKey | HelloJohnXcode/HelloJohnXcode/Models.swift:23-30 | Adding or changing a key that is not in the table does not change what decodes. |
| Models.DecodeActionIgnoresUnknownKey | HelloJohnXcode/HelloJohnXcode/Models.swift:44-54 | The same for actions. |
| Models.DecodeProjectNeedsEveryKey | HelloJohnXcode/HelloJohnXcode/Models.swift:12-21 | An object that lacks any one key does not decode (no property is optional). |
| Models.DecodeActionNeedsEveryKey | HelloJohnXcode/HelloJohnXcode/Models.swift:34-42 | An action object that lacks any one key does not decode (no property is optional). |
| Models.DecodeArray | HelloJohnXcode/HelloJohnXcode/Models.swift:72 | `[T]` decodes exactly when every element decodes. The result has one record per element, in order. |
| Models.DecodeList | HelloJohnXcode/HelloJohnXcode/Models.swift:72 | `JSONDecoder().decode([T].self, from:)`: the bytes must parse to a JSON array, and then every element must decode. |
| Models.LoadJSON | HelloJohnXcode/HelloJohnXcode/Models.swift:66-77 | A missing file gives `[]`. Otherwise the result is the decoded array when the bytes parse and every element decodes, and `[]` on any failure. It never fails. |
| Models.LoadProjects | HelloJohnXcode/HelloJohnXcode/Models.swift:58-60 | `loadProjects(from:)`: `loadJSON` with the project decoder. |
| Models.LoadActions | HelloJohnXcode/HelloJohnXcode/Models.swift:62-64 | `loadActions(from:)`: `loadJSON` with the action decoder. |
| Models.LoadProjectsRoundTrip | HelloJohnXcode/HelloJohnXcode/Models.swift:58-77 | `loadProjects` on a file holding the encoding of a list of projects gives exactly that list back. |
| Models.LoadActionsRoundTrip | HelloJohnXcode/HelloJohnXcode/Models.swift:62-77 | The same for `loadActions`. |
| Models.FirstToken | HelloJohnXcode/HelloJohnXcode/Models.swift:88-89 | A token is found exactly when the JSON is a nonempty array of objects with string values whose first object has `CLOSE_API_TOKEN`. The token is that value. |
| Models.LoadEnvToken | HelloJohnXcode/HelloJohnXcode/Models.swift:82-97 | With no `JA_ENV.json`, the result is the sentinel. Otherwise it is the first element's token or the sentinel. |
| Models.TokenReadsFirstElementOnly | HelloJohnXcode/HelloJohnXcode/Models.swift:88-89 | Elements after the first never change the result. The result is the first element's `CLOSE_API_TOKEN`. |
| Models.TokenSentinelCases | HelloJohnXcode/HelloJohnXcode/Models.swift:86-96 | Each of these gives `❌ Token Not Found`: a missing file, malformed JSON, a non-array, an empty array. |
| Models.KeyValueRecordsGiveSentinel | HelloJohnXcode/HelloJohnXcode/Models.swift:88-89 | A list of `{key, value}` records naming the token gives the sentinel. |
| Json.StringField | HelloJohnXcode/HelloJohnXcode/ContentView.swift:171 | `obj[key] as? String` succeeds exactly when the key holds a string, and gives that string. |
| Text.LexLessTotal | HelloJohnXcode/HelloJohnXcode/TabOutputView.swift:14 | String order is total: two strings are equal or one is less. |
| Text.LexLessTransitive | HelloJohnXcode/HelloJohnXcode/TabOutputView.swift:14 | String order is transitive. |
| Text.LexLessAsymmetric | HelloJohnXcode/HelloJohnXcode/TabOutputView.swift:14 | String order is asymmetric. |
| Text.LexAtLeastTransitive | HelloJohnXcode/HelloJohnXcode/TabOutputView.swift:14 | "Not less than" is transitive, so non-increasing order chains. |
| Text.NatToString | HelloJohnXcode/HelloJohnXcode/TabLLMView.swift:247 | The decimal of a number is nonempty and has no leading zero. |
| Text.NatToStringDigits | HelloJohnXcode/HelloJohnXcode/TabLLMView.swift:247 | Every character of the decimal of a number is a digit. |
| Text.ParseNatToString | HelloJohnXcode/HelloJohnXcode/TabLLMView.swift:247 | Reading back the decimal of `n` gives `n`. |
| Text.NatToStringInjective | HelloJohnXcode/HelloJohnXcode/TabLLMView.swift:247 | Different numbers get different decimals. |
| Sorting.SortDesc | HelloJohnXcode/HelloJohnXcode/TabOutputView.swift:14-15 | The sort is a permutation of its input (same multiset), non-increasing in the key. |
| Sorting.Take | HelloJohnXcode/HelloJohnXcode/TabLLMView.swift:238 | `prefix(k)` has `min(k, n)` elements and is a prefix of its input. |
| Sorting.SortKeepsRecords | HelloJohnXcode/HelloJohnXcode/TabOutputView.swift:14-15 | A record is in the sorted list exactly when it was loaded, and the lengths agree. |
| Sorting.TopKAreMostRecent | HelloJohnXcode/HelloJohnXcode/TabLLMView.swift:235-238 | No loaded record left out of the first `k` was updated later than a record that was kept. |
| Sorting.SortedProjects | HelloJohnXcode/HelloJohnXcode/TabOutputView.swift:14 | The projects shown are a permutation of those loaded from `project__meta.json`, newest `updatedAt` first. |
| Sorting.SortedActions | HelloJohnXcode/HelloJohnXcode/TabOutputView.swift:15 | The actions shown are a permutation of those loaded from `project__actions.json`, newest `updatedAt` first. |
| OutputView.ProjectBulletLines | HelloJohnXcode/HelloJohnXcode/TabOutputView.swift:28-30 | The three bullet lines of a project card: `• Project Name: `, `• Current Action: ` and `• Created At: `, each followed by that property. |
| OutputView.ActionBulletLines | HelloJohnXcode/HelloJohnXcode/TabOutputView.swift:42-45 | The four bullet lines of an action card: Project ID, Description, Created At, and `• Status: [` status `]`. |
| OutputView.ProjectCard | HelloJohnXcode/HelloJohnXcode/TabOutputView.swift:27-31 | The text of a project card: its bullet lines joined by newlines, with no trailing newline. |
| OutputView.ActionCard | HelloJohnXcode/HelloJohnXcode/TabOutputView.swift:41-46 | The text of an action card, built the same way. |
| OutputView.ProjectCardLines | HelloJohnXcode/HelloJohnXcode/TabOutputView.swift:27-31 | A project card is exactly three lines, in order: `• Project Name:`, `• Current Action:`, `• Created At:`, each with its value. This holds when no value contains a newline. |
| OutputView.ActionCardLines | HelloJohnXcode/HelloJohnXcode/TabOutputView.swift:41-46 | An action card is exactly four lines: Project ID, Description, Created At, and Status with the status in `[` `]`. |
| OutputView.ProjectCards | HelloJohnXcode/HelloJohnXcode/TabOutputView.swift:26-31 | One card per loaded project, with no truncation. Card `i` renders sorted project `i`, and every loaded project's card is shown. |
| OutputView.ActionCards | HelloJohnXcode/HelloJohnXcode/TabOutputView.swift:40-46 | The same for actions. |
| LlmContext.ProjectLabel | HelloJohnXcode/HelloJohnXcode/TabLLMView.swift:239-242 | The label reflection gives each project property, which is its Swift name (`id`, `projectName`, …), not its JSON key. |
| LlmContext.ActionLabel | HelloJohnXcode/HelloJohnXcode/TabLLMView.swift:251-254 | The label reflection gives each action property (`id`, `projectId`, …, `nextFollowup`). |
| LlmContext.ArrayDescription | HelloJohnXcode/HelloJohnXcode/TabLLMView.swift:242 | How `\(child.value)` prints a `[String]`: each element in double quotes, separated by `, `, inside `[` `]`. |
| LlmContext.ProjectValueText | HelloJohnXcode/HelloJohnXcode/TabLLMView.swift:242 | How `\(child.value)` prints each project property: strings as they are, `skills` as an array description. |
| LlmContext.ActionValueText | HelloJohnXcode/HelloJohnXcode/TabLLMView.swift:254 | How `\(child.value)` prints each action property: every one is a string and prints as it is. |
| LlmContext.ProjectProperties | HelloJohnXcode/HelloJohnXcode/TabLLMView.swift:239-246 | One `label: value` line per stored project property (ten). |
| LlmContext.ActionProperties | HelloJohnXcode/HelloJohnXcode/TabLLMView.swift:251-258 | One `label: value` line per stored action property (nine). |
| LlmContext.Header | HelloJohnXcode/HelloJohnXcode/TabLLMView.swift:247 | The first line of a block: the number, `. `, the type name and a newline. |
| LlmContext.Block | HelloJohnXcode/HelloJohnXcode/TabLLMView.swift:247 | A block: the header, then the property lines joined by newlines. |
| LlmContext.ProjectBlocks | HelloJohnXcode/HelloJohnXcode/TabLLMView.swift:238-248 | One summary block per chosen project. |
| LlmContext.ActionBlocks | HelloJohnXcode/HelloJohnXcode/TabLLMView.swift:250-260 | One summary block per chosen action. |
| LlmContext.MetaSummary | HelloJohnXcode/HelloJohnXcode/TabLLMView.swift:238-248 | `metaSummary`: the blocks of the first three sorted projects, numbered from 1, separated by blank lines. |
| LlmContext.ActionSummary | HelloJohnXcode/HelloJohnXcode/TabLLMView.swift:250-260 | `actionSummary`: the same for the first five sorted actions. |
| LlmContext.CombinedExtraInfo | HelloJohnXcode/HelloJohnXcode/TabLLMView.swift:262-270 | `combinedExtraInfo`: the extra information, a blank line, the project header line, the project summaries, a blank line, the action header line and the action summaries. |
| LlmContext.ExtraContext | HelloJohnXcode/HelloJohnXcode/TabLLMView.swift:235-270 | The context text of a call: the combined text built from the cached files, each loaded and sorted newest first. |
| LlmContext.SummarisedProjects | HelloJohnXcode/HelloJohnXcode/TabLLMView.swift:235-238 | The projects summarised are the first `min(3, n)` of the sorted list. Each was loaded, and none is older than a loaded project left out. |
| LlmContext.SummarisedActions | HelloJohnXcode/HelloJohnXcode/TabLLMView.swift:250 | The actions summarised are the first `min(5, m)` of the sorted list. Each was loaded, and none is older than a loaded action left out. |
| LlmContext.ProjectBlockBodyLines | HelloJohnXcode/HelloJohnXcode/TabLLMView.swift:239-246 | A project block body splits into exactly ten lines, `label: value` for each property in declaration order. This holds when no value contains a newline. |
| LlmContext.ActionBlockBodyLines | HelloJohnXcode/HelloJohnXcode/TabLLMView.swift:251-258 | The same, with nine lines, for action blocks. |
| LlmContext.BlockOpensWithHeader | HelloJohnXcode/HelloJohnXcode/TabLLMView.swift:247 | A block starts with its number, `. `, the type name and a newline. |
| LlmContext.HeaderMismatch | HelloJohnXcode/HelloJohnXcode/TabLLMView.swift:247 | Headers with different numbers differ at a position both have: in the digits, or where the shorter number meets the `.`. |
| LlmContext.OnlyItsHeader | HelloJohnXcode/HelloJohnXcode/TabLLMView.swift:247 | A text that opens with the header numbered `n` opens with no header of another number. |
| LlmContext.BlockHeader | HelloJohnXcode/HelloJohnXcode/TabLLMView.swift:238-247 | Project block `k` opens with the header `"k+1. ProjectMeta\n"`, and no other block opens with that header, so the numbers tell the blocks apart. |
| LlmContext.ActionBlockHeader | HelloJohnXcode/HelloJohnXcode/TabLLMView.swift:250-259 | Action block `k` opens with `"k+1. EachAction\n"`, and no other action block opens with that header. |
| LlmContext.CombinedInOrder | HelloJohnXcode/HelloJohnXcode/TabLLMView.swift:262-270 | The combined text is, in order: the extra information, the project header, the project summaries, the action header, the action summaries. Each part sits at its stated offset. |
| LlmContext.ContextWithoutRecords | HelloJohnXcode/HelloJohnXcode/TabLLMView.swift:262-270 | When neither file yields a record, both summaries are empty and only the template follows the extra information. This covers a missing file, malformed JSON, `[]`, and an element that does not decode. |
| LlmChat.TurnMessage | HelloJohnXcode/HelloJohnXcode/TabLLMView.swift:275-282 | `newMessage`: `🟢 I Say - n:`, the input and a blank line, then `⚪️ LittleGreen - n:`, the result and a newline. |
| LlmChat.History | HelloJohnXcode/HelloJohnXcode/TabLLMView.swift:284-288 | The history after some turns: for each turn in order, a newline and its message numbered from 1. |
| LlmChat.Prompt | HelloJohnXcode/HelloJohnXcode/TabLLMView.swift:291-298 | The system prompt after some turns: it starts empty, and each turn appends the marker, the whole history so far and two newlines. |
| LlmChat.HistoryGrows | HelloJohnXcode/HelloJohnXcode/TabLLMView.swift:284-288 | The history after fewer turns is a prefix of the history after more turns. |
| LlmChat.PromptGrows | HelloJohnXcode/HelloJohnXcode/TabLLMView.swift:291-298 | The system prompt after fewer turns is a prefix of the prompt after more turns. |
| LlmChat.TurnInHistory | HelloJohnXcode/HelloJohnXcode/TabLLMView.swift:275-288 | Turn `i` appears in the history as `"\n"` plus its message numbered `i+1`, right after the history of the earlier turns. |
| LlmChat.PromptCarriesEveryTurn | HelloJohnXcode/HelloJohnXcode/TabLLMView.swift:288-298 | The latest prompt holds the previous prompt, the history marker, and then the whole history. Every turn's message is in it. |
| LlmChat.NextTurn | HelloJohnXcode/HelloJohnXcode/TabLLMView.swift:284-298 | One more turn adds `"\n"` and its message, numbered one past the earlier turns, to the history. It adds the marker, the new history and two newlines to the prompt. |
| LlmChat.NextTracks | HelloJohnXcode/HelloJohnXcode/TabLLMView.swift:275-298 | Appending the numbered `newMessage` to a history that matches the turns, and then the new history to the prompt, gives the history and prompt of the turns plus the new one. |
| LlmChat.TwoTurnTexts | HelloJohnXcode/HelloJohnXcode/TabLLMView.swift:275-298 | After two turns the history holds messages numbered 1 then 2. The prompt holds the one-turn history and then the two-turn history, each after the marker. |
| LlmChat.ChatSession.constructor | HelloJohnXcode/HelloJohnXcode/TabLLMView.swift:114-127 | The initial state: empty texts, count 1, the view's own `systemPrompt` empty, not fetching, phase 0. |
| LlmChat.ChatSession.TypeInput | HelloJohnXcode/HelloJohnXcode/TabLLMView.swift:144 | The editor's binding sets `userInput` and nothing else. |
| LlmChat.ChatSession.BeginSend | HelloJohnXcode/HelloJohnXcode/TabLLMView.swift:231-274 | Send marks the call in flight. The request carries the current input, the current system prompt and the context text built from the cached files. Nothing else changes. |
| LlmChat.ChatSession.Complete | HelloJohnXcode/HelloJohnXcode/TabLLMView.swift:274-300 | The reply is recorded under the pre-increment count, with the input before the result. Then: the count goes up by exactly 1; `responseText` and `historyChatRef` each grow by `"\n" + newMessage`; the prompt becomes the old prompt, the marker, the whole history and two newlines; the input is cleared; fetching stops. The invariant ties the new state to the turn list. |
| LlmChat.ChatSession.Tick | HelloJohnXcode/HelloJohnXcode/TabLLMView.swift:219-227 | While fetching, the phase advances modulo 5 and the frame of that phase is shown. Otherwise the phase is 0 and nothing is shown. The phase stays in `[0, 5)`. |
| LlmChat.TwoTurns | HelloJohnXcode/HelloJohnXcode/TabLLMView.swift:274-298 | Two sends in a row: the second request's system prompt is the one the first turn produced. The history and prompt afterwards are the ones the two turns produce. |
| Voice.TickRule | HelloJohnXcode/HelloJohnXcode/ContentView.swift:289-297 | A tick continues exactly when there is a positive count, and then lowers it by exactly 1. Otherwise it finishes. |
| Voice.CountdownFrom | HelloJohnXcode/HelloJohnXcode/ContentView.swift:283-299 | From `s >= 0`, the ticks see `s, s-1, …, 0`. Only the last of these `s+1` ticks finishes. |
| Voice.NegativeCountdownEndsAtOnce | HelloJohnXcode/HelloJohnXcode/ContentView.swift:289-297 | A negative count finishes on the first tick. |
| Voice.VoiceSession.constructor | HelloJohnXcode/HelloJohnXcode/ContentView.swift:15-28 | The initial state: "Not signed in", not recording, no count, no timer, not processing. |
| Voice.VoiceSession.StartRecording | HelloJohnXcode/HelloJohnXcode/ContentView.swift:216-233 | Refused authorisation sets only the message. Granted authorisation starts recording with an empty display and keeps `finalText`. |
| Voice.VoiceSession.OnRecognition | HelloJohnXcode/HelloJohnXcode/ContentView.swift:234-242 | A result sets `finalText` and the display to its text. Nothing else changes. |
| Voice.VoiceSession.StopRecording | HelloJohnXcode/HelloJohnXcode/ContentView.swift:256-263 | Recording stops, processing starts, `🧠 Processing...` is shown, and one settle step is scheduled. |
| Voice.VoiceSession.RecordButton | HelloJohnXcode/HelloJohnXcode/ContentView.swift:45-51 | The button stops when recording and starts otherwise, with those operations' effects. |
| Voice.VoiceSession.StartCountdown | HelloJohnXcode/HelloJohnXcode/ContentView.swift:283-288 | The count is set to `seconds`. The timer held before is dropped, and a new one is held. |
| Voice.VoiceSession.Settle | HelloJohnXcode/HelloJohnXcode/ContentView.swift:264-265 | A scheduled settle step starts a 5-tick countdown. With none scheduled, nothing changes. |
| Voice.VoiceSession.TimerFired | HelloJohnXcode/HelloJohnXcode/ContentView.swift:288-299 | Only the held timer acts, and the invariant makes it the most recently scheduled one, so only the newest countdown can complete. On a continue it lowers the count. On a finish it drops the timer, hides the count, ends processing, shows `finalText` and speaks exactly it, once. |
| Voice.HelloWorld | HelloJohnXcode/HelloJohnXcode/ContentView.swift:256-270 | Record, stop, settle, then six ticks: the reply is spoken only on the sixth tick, and it is exactly the transcription. |
| Voice.RestartedCountdown | HelloJohnXcode/HelloJohnXcode/ContentView.swift:284-287 | After a second stop, the first countdown's timer can no longer complete. |
| DriveSync.ListQuery | HelloJohnXcode/HelloJohnXcode/ContentView.swift:153 | The list query of one target: the files endpoint, the quoted folder id, `+in+parents+and+name=`, the quoted target name, then newest first, one result, and the fields `id,name,modifiedTime`. |
| DriveSync.DownloadUrl | HelloJohnXcode/HelloJohnXcode/ContentView.swift:182 | The download address: the files endpoint, the file id and `?alt=media`. |
| DriveSync.DownloadOutcome | HelloJohnXcode/HelloJohnXcode/ContentView.swift:181-201 | Download one file: an invalid address, no body, a failed write, or the saved body. |
| DriveSync.TargetOutcome | HelloJohnXcode/HelloJohnXcode/ContentView.swift:152-176 | One loop step: an invalid query, no listing, no first file id, or the download of the listed file. |
| DriveSync.Synced | HelloJohnXcode/HelloJohnXcode/ContentView.swift:152-178 | The documents after the loop: each target's outcome applied in list order, where only a save writes. |
| DriveSync.FirstFileId | HelloJohnXcode/HelloJohnXcode/ContentView.swift:168-171 | A file id is found exactly when the listing is an object whose `files` is a nonempty array of objects and the first has a string `id`. The id is that value. |
| DriveSync.SavedExactly | HelloJohnXcode/HelloJohnXcode/ContentView.swift:152-199 | A target is saved with `data` exactly when all of these hold: its query is a URL; the listing arrived and names a first file; the download address is a URL; the download gave `data`; the write succeeded. |
| DriveSync.SyncedClosedForm | HelloJohnXcode/HelloJohnXcode/ContentView.swift:150-176 | After the loop, a saved target holds its downloaded bytes, and any other name keeps what it had. |
| DriveSync.OnlyTargetsWritten | HelloJohnXcode/HelloJohnXcode/ContentView.swift:150-176 | Names outside the targets are never written. |
| DriveSync.InvalidQuerySkipsOnlyItsTarget | HelloJohnXcode/HelloJohnXcode/ContentView.swift:153-157 | A query that is not a URL gives that target's `InvalidListUrl` outcome and keeps its document. Every other target is handled as usual. |
| DriveSync.QuotedPieces | HelloJohnXcode/HelloJohnXcode/ContentView.swift:153 | Four quote-free pieces, each followed by a quote, are the first four pieces when the text is split at quotes. |
| DriveSync.ListQueryPieces | HelloJohnXcode/HelloJohnXcode/ContentView.swift:153 | Split at its quotes, the query gives back the base address, the folder id, the `in parents and name` part and the target name. This holds when neither the folder id nor the target contains a quote. |
| DriveSync.ListQueryInjective | HelloJohnXcode/HelloJohnXcode/ContentView.swift:153 | Different folders or target names give different queries. |
| DriveSync.DownloadUrlId | HelloJohnXcode/HelloJohnXcode/ContentView.swift:182 | The download address gives back its file id. |
| DriveSync.AppQueriesNameTheirTargets | HelloJohnXcode/HelloJohnXcode/ContentView.swift:36-41 | Each of the app's two queries names the app's folder and its own target. |
| DriveSync.Documents.Save | HelloJohnXcode/HelloJohnXcode/ContentView.swift:203-213 | A successful write replaces the document under that name. A failed write changes nothing. |
| DriveSync.DownloadDriveFile | HelloJohnXcode/HelloJohnXcode/ContentView.swift:181-201 | The outcome is the download specification's. Only a save writes, and only under the given name. |
| DriveSync.ListDriveFiles | HelloJohnXcode/HelloJohnXcode/ContentView.swift:145-179 | One outcome per target, in list order, each the per-target specification's. The documents end as the specification folds the targets. |
| DriveSync.FetchDriveJson | HelloJohnXcode/HelloJohnXcode/ContentView.swift:36-42 | The button fetches the app's folder for its two file names. |

## Left out

- Google Sign-In, the client-id plist and the `user` optional are identity plumbing and are not modelled. The Drive token is a parameter. The record and fetch buttons are modelled as if signed in.
- `URLSession`, `FileManager` and `JSONSerialization`/`JSONDecoder` text parsing are abstract parameters: a request-to-body function, a file map and a byte parser. HTTP status codes are not modelled. The network functions are deterministic, so two identical requests get the same answer.
- The Drive requests run concurrently in the app. The model runs them in list order. With distinct target names, the final documents do not depend on the order.
- `URL(string:)` is a predicate. Whether a query with a raw space in `modifiedTime desc` is accepted depends on the OS version.
- The speech recogniser, the audio engine and tap, and the synthesiser are not modelled, and neither are the voice, language and rate settings. Speaking is a ghost log.
- Voice.VoiceSession.OnRecognition: the recogniser's error and `isFinal` flags are not inputs, because the code's branch for them is empty.
- Real time is left out: the 1 s ticks, the 0.5 s settle, the 0.5 s animation and the `DispatchQueue` hops. These become the explicit calls `TimerFired`, `Settle` and `Tick`. Timer invalidation is modelled by the session no longer holding the timer's number.
- `testOpenAI` is not part of this model. Its reply is an input to `Complete`.
- `Mirror` reflection is replaced by an explicit property list in declaration order.
- LlmContext.ProjectValueText: a `[String]` value is printed as `["a", "b"]`. Swift's escaping of quotes and backslashes inside the elements is not modelled.
- Swift compares strings after Unicode canonical equivalence. The model compares scalars lexicographically, so the inputs are taken to be normalised already.
- Swift's `sorted(by:)` does not promise an order for records with equal `updatedAt`. The contracts only state sortedness and permutation, so they hold whatever order ties take.
- `Int` overflow of `chatCnt` and the countdown is not modelled. They are unbounded integers.
- The SwiftUI layout and the collapse toggle are not modelled. Neither are the `"NaN"` display check, the long global prompt literal (the view's own `systemPrompt` shadows it) and the debug `print`s.
- Some behaviours the code does not have are not modelled either: scanning `{key, value}` token records, change notices for secret files, skipping empty speech, rejecting a stop in an invalid state, and cancelling the countdown when a new recording starts.
