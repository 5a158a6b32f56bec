# Orbit-AI chat controller, modelled in Dafny

Orbit-AI is an Android chat app that runs a language model on the device.
Its `ChatScreen` composable keeps the chat session's state and event handlers:
- the conversation;
- the model life-cycle state (`IDLE`, `LOADING`, `LOADED`, `ERROR`, `GENERATING`);
- the persona list and the selected persona;
- the "include history" switch, the speech settings and the model in use.

This project models that controller and the helper functions it calls.
- **Sending a message:** the guard, the two appended messages, the prompt
  built for the engine, and how the reply lands in the bot's placeholder.
- **Personas:** adding, selecting and deleting, with the fallback selection.
- **Chats:** clearing a chat and opening a saved one.
- **Model loading:** the bundled default model, a picked file, a download
  from the catalogue, creating the inference engine, and the start-up
  fallback from the remembered model to the bundled one.
- **Preferences:** the speech settings and the remembered model.

Modules, one per concern:
- `Wrappers`: `Option`. Kotlin's nullable values and its `?:` operator.
- `Text`: `isBlank`, `trim`, `split`, `joinToString`, and how a string
  template renders `null`.
- `ChatModel`: the value types and the preference store.
- `Prompt`: building the prompt.
- `Transcript`: settling the reply placeholder.
- `Personas`: persona deletion.
- `Provisioning`: model files and engine creation.
- `ChatScreen`: the class `ChatScreenState` holds the screen's mutable
  state. Each event handler is a method of it that changes only the
  fields the handler changes.

Behaviour of the code worth knowing, which the model keeps:
- **History window:** the prompt takes the last ten entries first, and only
  then drops streaming ones. The reply placeholder is always the last entry
  and still streaming, so at most nine earlier messages reach the engine:
  eight before the user's line, plus that line.
- **Header line:** it is `"System: "` followed by the persona text.
- **No engine loaded:** the reply is the ordinary text
  `"Error: Model not loaded"`. It is not marked as an error.
- **Personas:** deleting the last persona is allowed. The selection then
  points at a persona that is no longer in the list.
- **Downloads and the bundled model:** a download or asset copy that fails
  part-way leaves a file at the final path. The next attempt takes that
  file for a finished one.
- **Picked files:** a picked file whose stream cannot be opened (the
  content resolver returns `null`) is still reported as loaded.

## Model

All source paths are under `app/src/main/java/com/ak/orbitai/`.

| member | source | states |
|---|---|---|
| Text.Trim | app/src/main/java/com/ak/orbitai/MainActivity.kt:327 | the trimmed text is empty exactly when the input is blank, and otherwise starts and ends with a character that is not whitespace |
| Text.TrimCutsWhitespace | app/src/main/java/com/ak/orbitai/MainActivity.kt:327 | trimming keeps one contiguous slice of the input; everything before and after it is whitespace |
| Text.Split | app/src/main/java/com/ak/orbitai/MainActivity.kt:1091 | `split("/")` yields at least one part, and no part contains the separator |
| Text.JoinSplit | app/src/main/java/com/ak/orbitai/MainActivity.kt:1091 | joining the parts of a split with the separator gives the original string back |
| Text.SplitJoin | app/src/main/java/com/ak/orbitai/MainActivity.kt:359 | splitting a newline-join of newline-free lines gives the lines back, so the prompt's lines can be recovered |
| Text.IsBlank | app/src/main/java/com/ak/orbitai/MainActivity.kt:325 | a text is blank exactly when its leading whitespace run covers all of it |
| Text.JoinEnds | app/src/main/java/com/ak/orbitai/MainActivity.kt:359 | `joinToString` starts with the first part and ends with the last, with a separator right after the first part when there are more |
| Text.SplitLast | app/src/main/java/com/ak/orbitai/MainActivity.kt:1091 | the last part of a split is a separator-free suffix, preceded by the separator when it is not the whole string |
| ChatModel.StateAfterLoad | app/src/main/java/com/ak/orbitai/MainActivity.kt:254 | every load callback moves to `LOADED` exactly when the error is null and to `ERROR` exactly when it is not |
| ChatModel.FindLanguage | app/src/main/java/com/ak/orbitai/MainActivity.kt:238 | a found language is among the values and has the code; nothing is found exactly when no value has it |
| ChatModel.TtsLanguageFor | app/src/main/java/com/ak/orbitai/MainActivity.kt:238 | a stored code selects the language with that code, and English when no language has it |
| ChatModel.RestoredTtsLanguage | app/src/main/java/com/ak/orbitai/MainActivity.kt:237-238 | with no stored language, or a stored code that no language has, the restored one is English; a stored language code restores that language |
| ChatModel.TtsLanguageRestored | app/src/main/java/com/ak/orbitai/MainActivity.kt:641-643 | a language stored from the settings is the one restored on the next start |
| ChatModel.GetString | app/src/main/java/com/ak/orbitai/MainActivity.kt:244 | a stored entry is returned as it is, and the caller's default only when the key has none |
| ChatModel.GetBool | app/src/main/java/com/ak/orbitai/MainActivity.kt:239 | a stored flag is returned as it is, and the caller's default only when the key has none |
| ChatModel.PutString | app/src/main/java/com/ak/orbitai/MainActivity.kt:642 | after a write the key reads back the written value, or its default when null was written; all other keys read as before |
| ChatModel.PutBool | app/src/main/java/com/ak/orbitai/MainActivity.kt:657-659 | after a boolean write the key reads back the value; other keys and the string entries are unchanged |
| Prompt.TakeLast | app/src/main/java/com/ak/orbitai/MainActivity.kt:353 | `takeLast(n)` is the suffix of length `min(n, size)` |
| Prompt.Settled | app/src/main/java/com/ak/orbitai/MainActivity.kt:354-358 | the filter never lengthens the list; its members and order are given by the three lemmas below |
| Prompt.SettledMembers | app/src/main/java/com/ak/orbitai/MainActivity.kt:354-358 | the filtered messages are exactly the non-streaming ones of the window |
| Prompt.SettledDropsStreaming | app/src/main/java/com/ak/orbitai/MainActivity.kt:354-358 | the filter drops nothing exactly when nothing streams, and otherwise shortens the list |
| Prompt.SettledAppend | app/src/main/java/com/ak/orbitai/MainActivity.kt:354-358 | filtering a concatenation filters each part |
| Prompt.Lines | app/src/main/java/com/ak/orbitai/MainActivity.kt:356 | one `"sender: text"` line per message, in order |
| Prompt.HistoryLines | app/src/main/java/com/ak/orbitai/MainActivity.kt:350-358 | a prompt with history has between one and eleven lines, and its first line is the persona header |
| Prompt.HistoryLinesFromWindow | app/src/main/java/com/ak/orbitai/MainActivity.kt:352-358 | every settled message of the last ten entries gives a line, and every line after the header comes from such a message, never from a streaming one |
| Prompt.ContextPrompt | app/src/main/java/com/ak/orbitai/MainActivity.kt:361 | with history off the prompt is the header and the user's line joined by a newline |
| Prompt.HistoryOffPromptLines | app/src/main/java/com/ak/orbitai/MainActivity.kt:361 | with history off the prompt does not depend on the conversation, and it splits into exactly those two lines |
| Prompt.HistoryPromptLines | app/src/main/java/com/ak/orbitai/MainActivity.kt:350-359 | when no line holds a newline, splitting the prompt at newlines gives back its history lines |
| Prompt.PlaceholderLeavesNine | app/src/main/java/com/ak/orbitai/MainActivity.kt:344-358 | while the last entry is streaming, the prompt has at most nine message lines besides the header |
| Prompt.FreshTurnLines | app/src/main/java/com/ak/orbitai/MainActivity.kt:327-358 | right after a send, the prompt is the header, then the settled entries among the eight before the user's line, then the user's line; the placeholder adds nothing |
| Prompt.FreshTurnContext | app/src/main/java/com/ak/orbitai/MainActivity.kt:327-362 | right after a send, with or without history, the prompt is a function of the conversation before the send |
| Prompt.LastTenVerbatim | app/src/main/java/com/ak/orbitai/MainActivity.kt:353-357 | when the last ten entries are all settled, the prompt carries exactly those ten, oldest first |
| Transcript.IndexOfFirst | app/src/main/java/com/ak/orbitai/MainActivity.kt:368 | the index of the first message with the id, or -1 exactly when no message has it |
| Transcript.ErrorText | app/src/main/java/com/ak/orbitai/MainActivity.kt:382 | a failed reply's text is `"Error: "` followed by the exception's message, or by `"Unknown error"` when it has none |
| Transcript.Resolved | app/src/main/java/com/ak/orbitai/MainActivity.kt:369-385 | a settled placeholder keeps its id and sender and stops streaming; it gets the reply text, or the error text with the error flag set |
| Transcript.Reply | app/src/main/java/com/ak/orbitai/MainActivity.kt:364-366 | without an engine the reply is `"Error: Model not loaded"` as an ordinary completion; with one it is the engine's answer or failure |
| Transcript.Settle | app/src/main/java/com/ak/orbitai/MainActivity.kt:368-387 | ids and length are kept; a chat without the id is unchanged; only the first message with the id can change, and it is resolved |
| Transcript.SettleFreshTurn | app/src/main/java/com/ak/orbitai/MainActivity.kt:330-376 | with fresh ids, settling after a send leaves the earlier chat untouched and ends in the user's line and the settled reply |
| Personas.RemoveFirst | app/src/main/java/com/ak/orbitai/MainActivity.kt:696 | `remove` drops the first equal element and keeps the order; as a multiset, one copy of the element is gone |
| Personas.AfterDelete | app/src/main/java/com/ak/orbitai/MainActivity.kt:695-700 | the first matching entry is removed; when the selection had the deleted persona's id and personas remain, the first remaining persona is selected, and otherwise the selection is kept; a selection in the list stays in it while the list is not empty |
| Personas.DeleteSelectedFallsBack | app/src/main/java/com/ak/orbitai/MainActivity.kt:696-699 | deleting the selected first persona selects the next one |
| Personas.DeleteLastPersona | app/src/main/java/com/ak/orbitai/MainActivity.kt:695-700 | deleting the only persona empties the list and leaves the selection on the removed persona |
| Personas.DeleteUndoesAdd | app/src/main/java/com/ak/orbitai/MainActivity.kt:691-700 | deleting a just-added persona restores the list but selects the first persona, not the earlier selection |
| Provisioning.CustomModelFileName | app/src/main/java/com/ak/orbitai/MainActivity.kt:1091 | the name has no `/`, is the suffix of the URI path after its last `/` (possibly empty), and is `custom_model.task` without a path |
| Provisioning.FilePath | app/src/main/java/com/ak/orbitai/MainActivity.kt:1041 | a file's path is the directory, a `/` and the name; an empty name is the directory itself |
| Provisioning.FilePathInjective | app/src/main/java/com/ak/orbitai/MainActivity.kt:1041 | two different names in the same directory never share a file |
| Provisioning.LoadDefaultModel | app/src/main/java/com/ak/orbitai/MainActivity.kt:1065-1086 | succeeds exactly when the file exists or the copy completes, and then reports the bundled model at its path; an existing file is used without copying; a failure reports the missing-asset text; an asset that cannot be opened creates no file, while a copy that fails part-way leaves the model's file behind |
| Provisioning.LoadCustomModel | app/src/main/java/com/ak/orbitai/MainActivity.kt:1088-1107 | succeeds exactly when no stream was returned or the copy completed; a failure reports `"Failed to load model: "` with the message or `null`; a stream that cannot be opened creates no file, while a copy that fails part-way leaves the file behind |
| Provisioning.DownloadModel | app/src/main/java/com/ak/orbitai/MainActivity.kt:1030-1063 | two reports, progress first; fetches exactly when the file is missing; on success remembers path and name, keeps every other preference, and reports the model with its size; on failure leaves the preferences alone; a fetch that cannot be opened creates no file, while one that fails part-way leaves the file behind |
| Provisioning.DownloadIsCached | app/src/main/java/com/ak/orbitai/MainActivity.kt:1041-1042 | after a successful download, downloading again fetches nothing and reports the same |
| Provisioning.PartialDownloadLooksCached | app/src/main/java/com/ak/orbitai/MainActivity.kt:1041-1047 | a download that failed part-way makes the next attempt report success without fetching |
| Provisioning.PartialDefaultCopyLooksCached | app/src/main/java/com/ak/orbitai/MainActivity.kt:1069-1075 | a bundled-model copy that failed part-way makes the next start report the model without copying again |
| Provisioning.Remember | app/src/main/java/com/ak/orbitai/MainActivity.kt:290-293 | stores the model's path and name (removes both for a null model) and leaves every other entry |
| Provisioning.SavedModel | app/src/main/java/com/ak/orbitai/MainActivity.kt:244-248 | a model is restored exactly when a remembered path exists on disk; it has that path and takes the remembered name, or "Saved Model" when no name is stored |
| Provisioning.RememberedModelIsRestored | app/src/main/java/com/ak/orbitai/MainActivity.kt:244-248 | a remembered model whose file exists is the one the next start picks |
| Provisioning.DownloadIsRestored | app/src/main/java/com/ak/orbitai/MainActivity.kt:1051-1054 | after a successful download the next start picks the downloaded file |
| Provisioning.InitializeLlm | app/src/main/java/com/ak/orbitai/MainActivity.kt:1109-1133 | the engine in use is closed first, and only then is one created from the path with the 1024-token limit; an engine is reported exactly when creation succeeds; a failure reports `"Invalid model file: "` with the message |
| Provisioning.InitializeClosesFirst | app/src/main/java/com/ak/orbitai/MainActivity.kt:1117-1123 | every engine is created while no other is open, and afterwards exactly the reported engine is open |
| ChatScreen.ChatScreenState.constructor | app/src/main/java/com/ak/orbitai/MainActivity.kt:186-211 | the initial screen: empty chat and input, no engine, `IDLE`, history on, English, no auto-speak, the six default personas with the first selected |
| ChatScreen.ChatScreenState.SetUserMessage | app/src/main/java/com/ak/orbitai/MainActivity.kt:624 | the input field holds the typed text |
| ChatScreen.ChatScreenState.SetIncludeHistory | app/src/main/java/com/ak/orbitai/MainActivity.kt:584 | the history switch takes the new value |
| ChatScreen.ChatScreenState.DismissError | app/src/main/java/com/ak/orbitai/MainActivity.kt:569 | the status card's text is cleared |
| ChatScreen.ChatScreenState.SendEnabled | app/src/main/java/com/ak/orbitai/MainActivity.kt:860 | sending is enabled exactly when a model is loaded and the trimmed input is not empty |
| ChatScreen.ChatScreenState.SendMessage | app/src/main/java/com/ak/orbitai/MainActivity.kt:324-346 | a blank input or a state other than `LOADED` changes nothing; otherwise the trimmed, non-empty text and an empty streaming placeholder are appended in that order, the input is cleared and the state is `GENERATING` |
| ChatScreen.ChatScreenState.RunTurn | app/src/main/java/com/ak/orbitai/MainActivity.kt:348-391 | the prompt is built from the current chat; the placeholder is settled with the reply or the error; a found, completed reply is spoken when auto-speak is on; the state ends `LOADED` on every path |
| ChatScreen.ChatScreenState.SendAndReply | app/src/main/java/com/ak/orbitai/MainActivity.kt:324-392 | a refused send changes nothing; otherwise the chat is the earlier chat plus the user's line and the placeholder, settled with the reply, whatever ids the clock gave; with fresh ids that is the earlier chat, the user's line and the settled reply; a completed reply is spoken exactly when auto-speak is on; the prompt is the fresh-turn prompt of the earlier chat |
| ChatScreen.ChatScreenState.ClearChat | app/src/main/java/com/ak/orbitai/MainActivity.kt:404-407 | "new chat" (and the clear button at line 516) empties the conversation |
| ChatScreen.ChatScreenState.LoadChat | app/src/main/java/com/ak/orbitai/MainActivity.kt:399-403 | opening a saved chat replaces the conversation with its messages verbatim |
| ChatScreen.ChatScreenState.SelectPersona | app/src/main/java/com/ak/orbitai/MainActivity.kt:690 | the chosen persona becomes the selection |
| ChatScreen.ChatScreenState.AddPersona | app/src/main/java/com/ak/orbitai/MainActivity.kt:691-694 | the persona is appended and selected |
| ChatScreen.ChatScreenState.DeletePersona | app/src/main/java/com/ak/orbitai/MainActivity.kt:695-700 | the list and selection become those of `AfterDelete` |
| ChatScreen.ChatScreenState.LoadPreferences | app/src/main/java/com/ak/orbitai/MainActivity.kt:236-240 | the speech language and the auto-speak switch are restored from the preferences |
| ChatScreen.ChatScreenState.SelectTtsLanguage | app/src/main/java/com/ak/orbitai/MainActivity.kt:639-643 | the language is used and its code stored |
| ChatScreen.ChatScreenState.SetAutoSpeak | app/src/main/java/com/ak/orbitai/MainActivity.kt:655-660 | the switch is used and stored |
| ChatScreen.ChatScreenState.OnEngineReady | app/src/main/java/com/ak/orbitai/MainActivity.kt:251-254 | engine and error are taken as reported, and the state follows the error |
| ChatScreen.ChatScreenState.OnModelResolved | app/src/main/java/com/ak/orbitai/MainActivity.kt:270-274 | the reported model replaces the current one, even when absent, and the state follows the error |
| ChatScreen.ChatScreenState.OnCustomModelResolved | app/src/main/java/com/ak/orbitai/MainActivity.kt:284-297 | as for the bundled model, and a success is remembered for the next start |
| ChatScreen.ChatScreenState.OnDownloadReport | app/src/main/java/com/ak/orbitai/MainActivity.kt:672-679 | an absent model leaves the current one, so the progress report shows as `ERROR` with the previous model still in place |
| ChatScreen.ChatScreenState.InitializeEngine | app/src/main/java/com/ak/orbitai/MainActivity.kt:306-310 | the engine, error and state become those of `InitializeLlm` on the engine in use |
| ChatScreen.ChatScreenState.InitializeForModelPath | app/src/main/java/com/ak/orbitai/MainActivity.kt:304-311 | with a model, an engine is created from its path; without one nothing changes |
| ChatScreen.ChatScreenState.LoadDefault | app/src/main/java/com/ak/orbitai/MainActivity.kt:268-275 | the bundled model's resolution is delivered: files, model, error and state |
| ChatScreen.ChatScreenState.AutoLoad | app/src/main/java/com/ak/orbitai/MainActivity.kt:243-277 | the remembered model is used when its file exists and an engine is created from it; otherwise the bundled model is resolved, with the engine closed by a failed attempt left closed |
| ChatScreen.ChatScreenState.PickCustomModel | app/src/main/java/com/ak/orbitai/MainActivity.kt:279-301 | a cancelled pick changes nothing; otherwise the copy's result is delivered and a success is remembered |
| ChatScreen.ChatScreenState.DownloadFromStore | app/src/main/java/com/ak/orbitai/MainActivity.kt:669-681 | after both reports: the download's files and preferences, the new model on success or the previous one on failure, and the state following the final error |

## Left out

- Composables, dialogs, toasts, scrolling and the clipboard are not modelled. They present state and do not decide it. The send button's enabled rule is kept as `SendEnabled`.
- Text-to-speech is not modelled. `RunTurn` returns the text that would be spoken. Setting the locale, and an exception thrown while speaking, are left out. In the source such an exception would turn the reply into an error message.
- Coroutines and their scheduling are not modelled. Each handler runs to completion. A reply can still find its placeholder gone or moved, because the caller may run other handlers between `SendMessage` and `RunTurn`. `RunTurn` builds the prompt and settles the placeholder in one step. A change to the chat while the engine is generating is therefore not expressible.
- `InitializeForModelPath`: the effect keyed on the model's path is a method the caller invokes. When the path changes is left to the caller. Start-up therefore does not also start the second engine creation that the effect would begin. In the app that effect can start while the start-up `initializeLlm` is still running, read the engine as still null, and create a second engine without closing the first. Two engines would then be open, which the one-engine rule of `InitializeClosesFirst`, proved for a single call, does not exclude across overlapping calls.
- The inference engine is a function from prompt to answer or thrown message. Its internals, and a `null` answer from `generateResponse`, are not modelled.
- Streams, assets, the content resolver and the network are not modelled. Each copy is an abstract outcome: it fails before creating the file, fails after creating it, or completes. A file is a path in a set. Directories and file contents are not modelled.
- `close()` throwing in `initializeLlm` is not modelled.
- Clock readings are not modelled. Message ids are parameters, and message, chat and model-load timestamps are dropped.
- The chat-history store is not modelled. `saveChat`, `loadChatHistories`, `deleteChat` and `exportChat` are empty stubs, so a chat to open is a parameter.
- The model-store catalogue is not modelled. It is static data, and a chosen entry is a parameter.
- `SelectPersona`: the persona dialog in the source is a stub that never calls its callbacks. The persona operations are modelled as the handlers are written, for any persona.
