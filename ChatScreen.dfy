/**
 * The state held by the chat screen and the operations its event handlers
 * perform on it. Clock readings, the engine, the file-system outcomes and
 * the picked URI are parameters; the preference store and the set of
 * existing files are fields, because the handlers read and write them.
 */
module ChatScreen {
  import opened Wrappers
  import opened ChatModel
  import opened Text
  import opened Prompt
  import opened Transcript
  import opened Personas
  import opened Provisioning

  class ChatScreenState {
    /** The text in the input field. */
    var userMessage: string
    /** The conversation, oldest first. */
    var messages: seq<Message>
    /** The engine in use, if one was created. */
    var llm: Option<Engine>
    /** The text of the status card; absent when the card is hidden. */
    var errorMessage: Option<string>
    /** The model shown in the title bar and whose path the engine is created from. */
    var modelInfo: Option<ModelInfo>
    var modelState: ModelState
    /** Whether prompts carry the recent conversation. */
    var includeHistory: bool
    var ttsLanguage: TtsLanguage
    /** Whether replies are read aloud as they arrive. */
    var autoSpeak: bool
    var personas: seq<SystemPrompt>
    var selectedPersona: SystemPrompt
    /** The app's preference store. */
    var prefs: Preferences
    /** The paths of the files that exist. */
    var files: set<string>
    /** The app's private files directory. */
    const filesDir: string

    /** The screen as it is first composed. */
    constructor (prefs: Preferences, files: set<string>, filesDir: string)
      ensures userMessage == "" && messages == [] && llm.None?
      ensures errorMessage.None? && modelInfo.None? && modelState == Idle
      ensures includeHistory && ttsLanguage == English && !autoSpeak
      ensures personas == DefaultPersonas && selectedPersona == DefaultPersonas[0]
      ensures this.prefs == prefs && this.files == files && this.filesDir == filesDir
    {
      userMessage := "";
      messages := [];
      llm := None;
      errorMessage := None;
      modelInfo := None;
      modelState := Idle;
      includeHistory := true;
      ttsLanguage := English;
      autoSpeak := false;
      personas := DefaultPersonas;
      selectedPersona := DefaultPersonas[0];
      this.prefs := prefs;
      this.files := files;
      this.filesDir := filesDir;
    }

    /** Whether the send button is enabled: a model is loaded and the input is not blank. */
    predicate SendEnabled()
      reads this`modelState, this`userMessage
      ensures SendEnabled() <==> modelState == Loaded && Trim(userMessage) != []
    {
      modelState == Loaded && !IsBlank(userMessage)
    }

    /** Typing in the input field. */
    method SetUserMessage(text: string)
      modifies this`userMessage
      ensures userMessage == text
    {
      userMessage := text;
    }

    /** The history switch next to the persona. */
    method SetIncludeHistory(on: bool)
      modifies this`includeHistory
      ensures includeHistory == on
    {
      includeHistory := on;
    }

    /** Dismissing the status card. */
    method DismissError()
      modifies this`errorMessage
      ensures errorMessage.None?
    {
      errorMessage := None;
    }

    /**
     * The synchronous part of sending: unless the send button would be
     * disabled, the trimmed input and an empty streaming placeholder are
     * appended, the input is cleared and the model is marked busy. The
     * returned turn is what the reply needs to find its placeholder.
     */
    method SendMessage(userTime: int, botTime: int) returns (turn: Option<Turn>)
      modifies this`messages, this`userMessage, this`modelState
      ensures !old(SendEnabled()) ==>
        turn.None? && messages == old(messages) && userMessage == old(userMessage) && modelState == old(modelState)
      ensures old(SendEnabled()) ==>
        var text := Trim(old(userMessage));
        && text != []
        && turn == Some(Turn(botTime + 1, text))
        && messages == old(messages) + [UserMessage(userTime, text), Placeholder(botTime + 1)]
        && userMessage == ""
        && modelState == Generating
    {
      if IsBlank(userMessage) || modelState != Loaded {
        return None;
      }
      var userText := Trim(userMessage);
      messages := messages + [UserMessage(userTime, userText)];
      userMessage := "";
      var botId := botTime + 1;
      messages := messages + [Placeholder(botId)];
      modelState := Generating;
      turn := Some(Turn(botId, userText));
    }

    /**
     * The reply of a turn: the prompt is built from the chat as it is now,
     * the engine answers (or the missing-engine text stands in), and the
     * first message with the placeholder's id takes the answer or the error.
     * A completed reply that found its placeholder is read aloud when
     * auto-speak is on. The model is marked loaded again on every path.
     */
    method RunTurn(turn: Turn, generate: (Engine, string) -> EngineResult) returns (prompt: string, spoken: Option<string>)
      modifies this`messages, this`modelState
      ensures prompt == ContextPrompt(includeHistory, selectedPersona.content, old(messages), turn.userText)
      ensures var outcome := Reply(llm, generate, prompt);
        && messages == Settle(old(messages), turn.botId, outcome)
        && spoken == (if autoSpeak && outcome.Completed? && !FreshId(old(messages), turn.botId)
                      then Some(outcome.response) else None)
      ensures modelState == Loaded
    {
      prompt := ContextPrompt(includeHistory, selectedPersona.content, messages, turn.userText);
      var outcome := Reply(llm, generate, prompt);
      var i := IndexOfFirst(messages, turn.botId);
      spoken := None;
      if i != -1 {
        messages := messages[i := Resolved(messages[i], outcome)];
        if autoSpeak && outcome.Completed? {
          spoken := Some(outcome.response);
        }
      }
      modelState := Loaded;
    }

    /**
     * A send whose reply arrives before anything else touches the chat.
     * The placeholder is always found, so a completed reply is read aloud
     * whenever auto-speak is on. When the clock gave the two new messages
     * ids that no other message has, the chat ends with the user's line and the settled reply, and a
     * prompt with history consists of the header, the settled messages
     * among the eight entries before the user's line, and the user's line.
     */
    method SendAndReply(userTime: int, botTime: int, generate: (Engine, string) -> EngineResult)
      returns (turn: Option<Turn>, prompt: string, spoken: Option<string>)
      modifies this`messages, this`userMessage, this`modelState
      ensures !old(SendEnabled()) ==>
        turn.None? && messages == old(messages) && userMessage == old(userMessage) && modelState == old(modelState)
        && spoken.None?
      ensures old(SendEnabled()) ==>
        var text := Trim(old(userMessage));
        && turn == Some(Turn(botTime + 1, text))
        && userMessage == ""
        && modelState == Loaded
        && prompt == FreshTurnPrompt(includeHistory, selectedPersona.content, old(messages), text)
        && messages == Settle(old(messages) + [UserMessage(userTime, text), Placeholder(botTime + 1)],
                              botTime + 1, Reply(llm, generate, prompt))
        && spoken == (if autoSpeak && Reply(llm, generate, prompt).Completed?
                      then Some(Reply(llm, generate, prompt).response) else None)
        && (userTime != botTime + 1 && FreshId(old(messages), botTime + 1) ==>
              messages == old(messages)
                          + [UserMessage(userTime, text), Resolved(Placeholder(botTime + 1), Reply(llm, generate, prompt))])
    {
      ghost var prior := messages;
      prompt, spoken := "", None;
      turn := SendMessage(userTime, botTime);
      if turn.Some? {
        var text := turn.value.userText;
        ghost var u, p := UserMessage(userTime, text), Placeholder(botTime + 1);
        assert messages == prior + [u, p];
        assert (prior + [u, p])[|prior| + 1].id == botTime + 1;
        prompt, spoken := RunTurn(turn.value, generate);
        ghost var outcome := Reply(llm, generate, prompt);
        assert messages == Settle(prior + [u, p], botTime + 1, outcome);
        FreshTurnContext(includeHistory, selectedPersona.content, prior, userTime, text, botTime + 1);
        if userTime != botTime + 1 && FreshId(prior, botTime + 1) {
          SettleFreshTurn(prior, u, botTime + 1, outcome);
        }
      }
    }

    /** "New chat" in the drawer and the clear button: the conversation is emptied. */
    method ClearChat()
      modifies this`messages
      ensures messages == []
    {
      messages := [];
    }

    /** Opening a saved chat: its messages replace the conversation verbatim. */
    method LoadChat(history: ChatHistory)
      modifies this`messages
      ensures messages == history.messages
    {
      messages := history.messages;
    }

    /** Choosing a persona. */
    method SelectPersona(p: SystemPrompt)
      modifies this`selectedPersona
      ensures selectedPersona == p
    {
      selectedPersona := p;
    }

    /** Adding a persona appends it and selects it. */
    method AddPersona(p: SystemPrompt)
      modifies this`personas, this`selectedPersona
      ensures personas == old(personas) + [p]
      ensures selectedPersona == p
    {
      personas := personas + [p];
      selectedPersona := p;
    }

    /**
     * Deleting a persona removes its first equal entry; a selection with
     * the same id moves to the first remaining persona, if there is one.
     */
    method DeletePersona(p: SystemPrompt)
      modifies this`personas, this`selectedPersona
      ensures Selection(personas, selectedPersona) == AfterDelete(Selection(old(personas), old(selectedPersona)), p)
    {
      personas := RemoveFirst(personas, p);
      if selectedPersona.id == p.id && |personas| > 0 {
        selectedPersona := personas[0];
      }
    }

    /** Restoring the speech settings at start-up. */
    method LoadPreferences()
      modifies this`ttsLanguage, this`autoSpeak
      ensures ttsLanguage == RestoredTtsLanguage(prefs)
      ensures autoSpeak == GetBool(prefs, AutoSpeakKey, false)
    {
      ttsLanguage := RestoredTtsLanguage(prefs);
      autoSpeak := GetBool(prefs, AutoSpeakKey, false);
    }

    /** Choosing a speech language in the settings: used now and stored by its code. */
    method SelectTtsLanguage(language: TtsLanguage)
      modifies this`ttsLanguage, this`prefs
      ensures ttsLanguage == language
      ensures prefs == PutString(old(prefs), TtsLanguageKey, Some(language.Code()))
    {
      ttsLanguage := language;
      prefs := PutString(prefs, TtsLanguageKey, Some(language.Code()));
    }

    /** The auto-speak switch in the settings: used now and stored. */
    method SetAutoSpeak(enabled: bool)
      modifies this`autoSpeak, this`prefs
      ensures autoSpeak == enabled
      ensures prefs == PutBool(old(prefs), AutoSpeakKey, enabled)
    {
      autoSpeak := enabled;
      prefs := PutBool(prefs, AutoSpeakKey, enabled);
    }

    /** The engine callback: the new engine (or none) and its error are taken as they are. */
    method OnEngineReady(newLlm: Option<Engine>, error: Option<string>)
      modifies this`llm, this`errorMessage, this`modelState
      ensures llm == newLlm && errorMessage == error
      ensures modelState == StateAfterLoad(error)
    {
      llm := newLlm;
      errorMessage := error;
      modelState := StateAfterLoad(error);
    }

    /** The callback of the bundled model: the reported model replaces the current one, even when absent. */
    method OnModelResolved(report: Report)
      modifies this`modelInfo, this`errorMessage, this`modelState
      ensures modelInfo == report.info && errorMessage == report.error
      ensures modelState == StateAfterLoad(report.error)
    {
      modelInfo := report.info;
      errorMessage := report.error;
      modelState := StateAfterLoad(report.error);
    }

    /** The callback of a picked model: as for the bundled one, and a success is remembered. */
    method OnCustomModelResolved(report: Report)
      modifies this`modelInfo, this`errorMessage, this`modelState, this`prefs
      ensures modelInfo == report.info && errorMessage == report.error
      ensures modelState == StateAfterLoad(report.error)
      ensures prefs == if report.error.None? then Remember(old(prefs), report.info) else old(prefs)
    {
      modelInfo := report.info;
      errorMessage := report.error;
      modelState := StateAfterLoad(report.error);
      if report.error.None? {
        prefs := Remember(prefs, report.info);
      }
    }

    /**
     * The callback of a download: a reported model replaces the current
     * one, an absent one leaves it; the progress text therefore shows as an
     * error with the previous model still in place.
     */
    method OnDownloadReport(report: Report)
      modifies this`modelInfo, this`errorMessage, this`modelState
      ensures modelInfo == if report.info.Some? then report.info else old(modelInfo)
      ensures errorMessage == report.error
      ensures modelState == StateAfterLoad(report.error)
    {
      if report.info.Some? {
        modelInfo := report.info;
      }
      errorMessage := report.error;
      modelState := StateAfterLoad(report.error);
    }

    /** Creating an engine from a path, closing the one in use first, and delivering the result. */
    method InitializeEngine(path: string, create: CreateOutcome)
      modifies this`llm, this`errorMessage, this`modelState
      ensures var r := InitializeLlm(old(llm), path, create);
        llm == r.llm && errorMessage == r.error && modelState == StateAfterLoad(r.error)
    {
      var r := InitializeLlm(llm, path, create);
      OnEngineReady(r.llm, r.error);
    }

    /** Reacting to a new model path: an engine is created from it; without a model nothing happens. */
    method InitializeForModelPath(create: CreateOutcome)
      modifies this`llm, this`errorMessage, this`modelState
      ensures modelInfo.None? ==> llm == old(llm) && errorMessage == old(errorMessage) && modelState == old(modelState)
      ensures modelInfo.Some? ==>
        var r := InitializeLlm(old(llm), modelInfo.value.path, create);
        llm == r.llm && errorMessage == r.error && modelState == StateAfterLoad(r.error)
    {
      if modelInfo.Some? {
        InitializeEngine(modelInfo.value.path, create);
      }
    }

    /** Resolving the bundled model and delivering the result. */
    method LoadDefault(asset: CopyOutcome)
      modifies this`files, this`modelInfo, this`errorMessage, this`modelState
      ensures var r := LoadDefaultModel(old(files), filesDir, asset);
        && files == r.files
        && modelInfo == r.report.info && errorMessage == r.report.error
        && modelState == StateAfterLoad(r.report.error)
    {
      var r := LoadDefaultModel(files, filesDir, asset);
      files := r.files;
      OnModelResolved(r.report);
    }

    /**
     * Start-up loading: the remembered model is used when its file exists
     * and an engine can be created from it; otherwise (no remembered
     * model, a missing file, or a failed engine) the bundled model is
     * resolved instead, and the engine closed on the failed attempt stays
     * closed.
     */
    method AutoLoad(create: CreateOutcome, asset: CopyOutcome)
      modifies this`llm, this`errorMessage, this`modelState, this`modelInfo, this`files
      ensures var saved := SavedModel(prefs, old(files));
        var dflt := LoadDefaultModel(old(files), filesDir, asset);
        if saved.Some? && create.NewEngine? then
          && modelInfo == saved && llm == Some(create.engine) && errorMessage.None?
          && modelState == Loaded && files == old(files)
        else
          && modelInfo == dflt.report.info && errorMessage == dflt.report.error
          && modelState == StateAfterLoad(dflt.report.error) && files == dflt.files
          && llm == (if saved.Some? then None else old(llm))
    {
      var saved := SavedModel(prefs, files);
      if saved.Some? {
        modelInfo := saved;
        modelState := Loading;
        InitializeEngine(saved.value.path, create);
        if errorMessage.Some? {
          LoadDefault(asset);
        }
      } else {
        LoadDefault(asset);
      }
    }

    /**
     * The file picker's result: a cancelled pick changes nothing; a picked
     * file is copied under its derived name and delivered, and a success
     * becomes the model remembered for the next start.
     */
    method PickCustomModel(uri: Option<PickedUri>)
      modifies this`files, this`modelInfo, this`errorMessage, this`modelState, this`prefs
      ensures uri.None? ==>
        && files == old(files) && modelInfo == old(modelInfo) && errorMessage == old(errorMessage)
        && modelState == old(modelState) && prefs == old(prefs)
      ensures uri.Some? ==>
        var r := LoadCustomModel(old(files), filesDir, uri.value.path, uri.value.stream);
        && files == r.files
        && modelInfo == r.report.info && errorMessage == r.report.error
        && modelState == StateAfterLoad(r.report.error)
        && prefs == (if r.report.error.None? then Remember(old(prefs), r.report.info) else old(prefs))
    {
      if uri.Some? {
        var r := LoadCustomModel(files, filesDir, uri.value.path, uri.value.stream);
        files := r.files;
        OnCustomModelResolved(r.report);
      }
    }

    /**
     * Choosing a model in the store: the progress report and then the
     * outcome are delivered in order; a successful download becomes the
     * model in use and the one remembered for the next start, a failed one
     * leaves the previous model in place.
     */
    method DownloadFromStore(model: DownloadableModel, fetch: CopyOutcome)
      modifies this`files, this`modelInfo, this`errorMessage, this`modelState, this`prefs
      ensures var d := DownloadModel(old(files), old(prefs), filesDir, model, fetch);
        && files == d.files && prefs == d.prefs
        && modelInfo == (if d.reports[1].info.Some? then d.reports[1].info else old(modelInfo))
        && errorMessage == d.reports[1].error
        && modelState == StateAfterLoad(d.reports[1].error)
    {
      var d := DownloadModel(files, prefs, filesDir, model, fetch);
      OnDownloadReport(d.reports[0]);
      files, prefs := d.files, d.prefs;
      OnDownloadReport(d.reports[1]);
    }
  }
}
