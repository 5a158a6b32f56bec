/**
 * Turning a model reference into a local file and an engine: the bundled
 * default, a file the user picked, a catalogue download, and the creation
 * of the engine from a path. The file system is the set of paths that
 * exist; each stream either cannot be opened, fails part-way (after its
 * target file was created), or copies completely. Results come back as
 * the (model, error) reports the callbacks receive, in order.
 */
module Provisioning {
  import opened Wrappers
  import opened ChatModel
  import opened Text

  /** The bundled model copied out of the app's assets. */
  const DefaultModelName := "gemma-2b-it-cpu-int4.task"

  /** The name a picked file gets when its URI has no path. */
  const CustomModelFallbackName := "custom_model.task"

  /** The token limit every engine is created with. */
  const MaxTokens := 1024

  /**
   * `File(dir, name).absolutePath` for an absolute directory: an empty name
   * resolves to the directory itself.
   */
  function FilePath(dir: string, name: string): (r: string)
    ensures name == "" ==> r == dir
    ensures name != "" ==> |r| == |dir| + 1 + |name| && dir <= r && r[|dir|] == '/' && r[|dir| + 1..] == name
  {
    if name == "" then dir else dir + "/" + name
  }

  /** Two different names in one directory never resolve to the same file. */
  lemma FilePathInjective(dir: string, a: string, b: string)
    requires a != b
    ensures FilePath(dir, a) != FilePath(dir, b)
  {
    if a != "" && b != "" {
      assert FilePath(dir, a)[|dir| + 1..] != FilePath(dir, b)[|dir| + 1..];
    }
  }

  /** One callback invocation: the model that was resolved, or an error text. */
  datatype Report = Report(info: Option<ModelInfo>, error: Option<string>)

  /** How copying a stream into a local file ended. */
  datatype CopyOutcome =
    | OpenFailed(message: Option<string>)  // thrown before the target file was created
    | CopyFailed(message: Option<string>)  // thrown after the target file was created
    | Copied

  /** A file the user picked: the resolver may hand back no stream at all. */
  datatype PickedStream = NoStream | Stream(copy: CopyOutcome)

  /** What the file picker returned: nothing, or a URI with its (nullable) path and its stream. */
  datatype PickedUri = PickedUri(path: Option<string>, stream: PickedStream)

  /** The files that exist after a resolution, and its report. */
  datatype Resolution = Resolution(files: set<string>, report: Report)

  /** A catalogue download: files and preferences afterwards, whether the network was used, and both reports. */
  datatype Download = Download(files: set<string>, prefs: Preferences, fetched: bool, reports: seq<Report>)

  /** The name a remembered model gets when no name was stored with its path. */
  const SavedModelFallbackName := "Saved Model"

  /**
   * Storing a model's path and name as the one to load on the next start;
   * a missing model (null path and name) removes both entries.
   */
  function Remember(prefs: Preferences, info: Option<ModelInfo>): (q: Preferences)
    ensures GetString(q, SavedModelPathKey, None) == if info.Some? then Some(info.value.path) else None
    ensures GetString(q, SavedModelNameKey, None) == if info.Some? then Some(info.value.name) else None
    ensures forall k, d :: k != SavedModelPathKey && k != SavedModelNameKey ==> GetString(q, k, d) == GetString(prefs, k, d)
    ensures q.bools == prefs.bools
  {
    var path := if info.Some? then Some(info.value.path) else None;
    var name := if info.Some? then Some(info.value.name) else None;
    PutString(PutString(prefs, SavedModelPathKey, path), SavedModelNameKey, name)
  }

  /**
   * The model start-up tries first: the remembered path, when a file
   * exists there, under the remembered name or the fallback name.
   */
  function SavedModel(prefs: Preferences, files: set<string>): (m: Option<ModelInfo>)
    ensures var path := GetString(prefs, SavedModelPathKey, None);
      m.Some? <==> path.Some? && path.value in files
    ensures m.Some? ==> m.value.path == GetString(prefs, SavedModelPathKey, None).value && m.value.size == ""
    ensures m.Some? && GetString(prefs, SavedModelNameKey, None).None? ==> m.value.name == SavedModelFallbackName
    ensures m.Some? && GetString(prefs, SavedModelNameKey, None).Some? ==>
      m.value.name == GetString(prefs, SavedModelNameKey, None).value
  {
    match GetString(prefs, SavedModelPathKey, None)
    case Some(path) =>
      if path in files then
        var name := GetString(prefs, SavedModelNameKey, Some(SavedModelFallbackName));
        Some(ModelInfo(name.GetOr(SavedModelFallbackName), path, ""))
      else None
    case None => None
  }

  /**
   * A remembered model whose file exists is the one start-up picks, under
   * the name it was remembered with (its size is not remembered).
   */
  lemma RememberedModelIsRestored(prefs: Preferences, files: set<string>, info: ModelInfo)
    requires info.path in files
    ensures SavedModel(Remember(prefs, Some(info)), files) == Some(ModelInfo(info.name, info.path, ""))
  {
  }

  /**
   * The name a picked file is stored under: the text after the last "/" of
   * the URI's path (possibly empty), or the fallback name without a path.
   */
  function CustomModelFileName(uriPath: Option<string>): (name: string)
    ensures '/' !in name
    ensures uriPath.None? ==> name == CustomModelFallbackName
    ensures uriPath.Some? ==>
      var p := uriPath.value;
      && |name| <= |p|
      && name == p[|p| - |name|..]
      && (|name| < |p| ==> p[|p| - |name| - 1] == '/')
  {
    match uriPath
    case None => CustomModelFallbackName
    case Some(p) =>
      var parts := Split(p, '/');
      SplitLast(p, '/');
      parts[|parts| - 1]
  }

  /**
   * `loadDefaultModel`: an existing copy of the bundled model is used as it
   * is; otherwise the asset is copied out first. Any failure reports the
   * missing-asset error, and a copy that failed part-way leaves its file.
   */
  function LoadDefaultModel(files: set<string>, dir: string, asset: CopyOutcome): (r: Resolution)
    ensures var path := FilePath(dir, DefaultModelName);
      && (r.report.error.None? <==> path in files || asset.Copied?)
      && (r.report.error.None? ==> r.report.info == Some(ModelInfo(DefaultModelName, path, "")) && path in r.files)
      && (r.report.error.Some? ==> r.report == Report(None, Some("Default model not found in assets")))
      && (path in files ==> r.files == files)
      && (path !in files && asset.OpenFailed? ==> r.files == files)
      && (path !in files && !asset.OpenFailed? ==> r.files == files + {path})
      && files <= r.files <= files + {path}
  {
    var path := FilePath(dir, DefaultModelName);
    var ok := Report(Some(ModelInfo(DefaultModelName, path, "")), None);
    var failed := Report(None, Some("Default model not found in assets"));
    if path in files then Resolution(files, ok)
    else
      match asset
      case OpenFailed(_) => Resolution(files, failed)
      case CopyFailed(_) => Resolution(files + {path}, failed)
      case Copied => Resolution(files + {path}, ok)
  }

  /**
   * `loadCustomModel`: the picked file is copied under its derived name.
   * A resolver that hands back no stream copies nothing and still reports
   * success; a thrown exception reports the load error with its message.
   */
  function LoadCustomModel(files: set<string>, dir: string, uriPath: Option<string>, picked: PickedStream): (r: Resolution)
    ensures var name := CustomModelFileName(uriPath); var path := FilePath(dir, name);
      && (r.report.error.None? <==> (picked.NoStream? || picked.copy.Copied?))
      && (r.report.error.None? ==> r.report.info == Some(ModelInfo(name, path, "")))
      && (r.report.error.Some? ==>
            r.report == Report(None, Some("Failed to load model: " + Nullable(picked.copy.message))))
      && (picked.NoStream? ==> r.files == files)
      && (picked.Stream? && picked.copy.OpenFailed? ==> r.files == files)
      && (picked.Stream? && !picked.copy.OpenFailed? ==> r.files == files + {path})
      && files <= r.files <= files + {path}
  {
    var name := CustomModelFileName(uriPath);
    var path := FilePath(dir, name);
    var ok := Report(Some(ModelInfo(name, path, "")), None);
    match picked
    case NoStream => Resolution(files, ok)
    case Stream(OpenFailed(m)) => Resolution(files, Report(None, Some("Failed to load model: " + Nullable(m))))
    case Stream(CopyFailed(m)) => Resolution(files + {path}, Report(None, Some("Failed to load model: " + Nullable(m))))
    case Stream(Copied) => Resolution(files + {path}, ok)
  }

  /**
   * `downloadAndLoadModel`: first a progress report through the error slot,
   * then either the model (after remembering its path and name) or the
   * download error. The network is used only when no file of that name
   * exists yet.
   */
  function DownloadModel(files: set<string>, prefs: Preferences, dir: string, model: DownloadableModel, fetch: CopyOutcome): (d: Download)
    ensures var path := FilePath(dir, model.name);
      && |d.reports| == 2
      && d.reports[0] == Report(None, Some("Downloading " + model.name + "..."))
      && (d.fetched <==> path !in files)
      && (d.reports[1].error.None? <==> path in files || fetch.Copied?)
      && (d.reports[1].error.None? ==>
            && d.reports[1].info == Some(ModelInfo(model.name, path, model.size))
            && path in d.files
            && GetString(d.prefs, SavedModelPathKey, None) == Some(path)
            && GetString(d.prefs, SavedModelNameKey, None) == Some(model.name)
            && d.prefs == Remember(prefs, d.reports[1].info))
      && (d.reports[1].error.Some? ==>
            d.reports[1] == Report(None, Some("Failed to download model: " + Nullable(fetch.message)))
            && d.prefs == prefs)
      && (path in files ==> d.files == files)
      && (path !in files && fetch.OpenFailed? ==> d.files == files)
      && (path !in files && !fetch.OpenFailed? ==> d.files == files + {path})
      && files <= d.files <= files + {path}
  {
    var path := FilePath(dir, model.name);
    var progress := Report(None, Some("Downloading " + model.name + "..."));
    var ok := Report(Some(ModelInfo(model.name, path, model.size)), None);
    var saved := Remember(prefs, ok.info);
    if path in files then Download(files, saved, false, [progress, ok])
    else
      match fetch
      case OpenFailed(m) => Download(files, prefs, true, [progress, Report(None, Some("Failed to download model: " + Nullable(m)))])
      case CopyFailed(m) => Download(files + {path}, prefs, true, [progress, Report(None, Some("Failed to download model: " + Nullable(m)))])
      case Copied => Download(files + {path}, saved, true, [progress, ok])
  }

  /**
   * Downloading a model a second time after a successful download uses the
   * cached file: no network fetch, the same model reported.
   */
  lemma DownloadIsCached(files: set<string>, prefs: Preferences, dir: string, model: DownloadableModel, first: CopyOutcome, second: CopyOutcome)
    requires DownloadModel(files, prefs, dir, model, first).reports[1].error.None?
    ensures var d1 := DownloadModel(files, prefs, dir, model, first);
      var d2 := DownloadModel(d1.files, d1.prefs, dir, model, second);
      && !d2.fetched
      && d2.files == d1.files
      && d2.reports == d1.reports
  {
  }

  /**
   * The download writes straight to its final path, so a transfer that
   * failed part-way leaves a file that the next attempt takes for a
   * complete download: it reports success without fetching again.
   */
  lemma PartialDownloadLooksCached(files: set<string>, prefs: Preferences, dir: string, model: DownloadableModel, message: Option<string>, second: CopyOutcome)
    requires FilePath(dir, model.name) !in files
    ensures var d1 := DownloadModel(files, prefs, dir, model, CopyFailed(message));
      var d2 := DownloadModel(d1.files, d1.prefs, dir, model, second);
      && d1.reports[1].error.Some?
      && !d2.fetched
      && d2.reports[1].error.None?
  {
  }

  /**
   * The bundled model is copied straight to its final path, so a copy that
   * failed part-way leaves a file the next start-up takes for a complete
   * copy: it reports the model without copying again.
   */
  lemma PartialDefaultCopyLooksCached(files: set<string>, dir: string, message: Option<string>, second: CopyOutcome)
    requires FilePath(dir, DefaultModelName) !in files
    ensures var r1 := LoadDefaultModel(files, dir, CopyFailed(message));
      var r2 := LoadDefaultModel(r1.files, dir, second);
      && r1.report.error.Some?
      && r2.report.error.None?
      && r2.files == r1.files
  {
  }

  /** After a successful download the next start-up loads the downloaded file. */
  lemma DownloadIsRestored(files: set<string>, prefs: Preferences, dir: string, model: DownloadableModel, fetch: CopyOutcome)
    requires DownloadModel(files, prefs, dir, model, fetch).reports[1].error.None?
    ensures var d := DownloadModel(files, prefs, dir, model, fetch);
      SavedModel(d.prefs, d.files) == Some(ModelInfo(model.name, FilePath(dir, model.name), ""))
  {
    var d := DownloadModel(files, prefs, dir, model, fetch);
    RememberedModelIsRestored(prefs, d.files, ModelInfo(model.name, FilePath(dir, model.name), model.size));
  }

  /** An engine being opened or closed. */
  datatype EngineEvent = Closed(engine: Engine) | Created(engine: Engine, path: string, maxTokens: int)

  /** What `createFromOptions` did: a new engine, or the exception it threw. */
  datatype CreateOutcome = NewEngine(engine: Engine) | CreateFailed(message: Option<string>)

  /** The engine events of one initialisation and the (engine, error) report it delivers. */
  datatype Init = Init(events: seq<EngineEvent>, llm: Option<Engine>, error: Option<string>)

  /**
   * `initializeLlm`: the engine in use is closed before a new one is
   * created from the path; a failed creation reports the invalid-model
   * error and no engine.
   */
  function InitializeLlm(current: Option<Engine>, path: string, create: CreateOutcome): (r: Init)
    ensures r.error.None? <==> create.NewEngine?
    ensures r.llm.Some? <==> create.NewEngine?
    ensures create.NewEngine? ==> r.llm == Some(create.engine)
    ensures create.CreateFailed? ==> r.error == Some("Invalid model file: " + Nullable(create.message))
    ensures current.Some? ==> |r.events| >= 1 && r.events[0] == Closed(current.value)
    ensures r.events == (if current.Some? then [Closed(current.value)] else [])
      + (if create.NewEngine? then [Created(create.engine, path, MaxTokens)] else [])
  {
    var closing := if current.Some? then [Closed(current.value)] else [];
    match create
    case NewEngine(e) => Init(closing + [Created(e, path, MaxTokens)], Some(e), None)
    case CreateFailed(m) => Init(closing, None, Some("Invalid model file: " + Nullable(m)))
  }

  /** The engines that are open after one event. */
  function Step(live: set<Engine>, event: EngineEvent): set<Engine> {
    match event
    case Closed(e) => live - {e}
    case Created(e, _, _) => live + {e}
  }

  /** The engines that are open after a series of events. */
  function LiveAfter(live: set<Engine>, events: seq<EngineEvent>): set<Engine>
    decreases |events|
  {
    if |events| == 0 then live else LiveAfter(Step(live, events[0]), events[1..])
  }

  /**
   * Initialising closes before it creates: starting from the engine in use
   * (if any), every engine is created while no other one is open, and
   * afterwards exactly the reported engine is open.
   */
  lemma InitializeClosesFirst(current: Option<Engine>, path: string, create: CreateOutcome)
    ensures var live := if current.Some? then {current.value} else {};
      var r := InitializeLlm(current, path, create);
      && (forall k :: 0 <= k < |r.events| && r.events[k].Created? ==> LiveAfter(live, r.events[..k]) == {})
      && LiveAfter(live, r.events) == (if r.llm.Some? then {r.llm.value} else {})
  {
    var live: set<Engine> := if current.Some? then {current.value} else {};
    var r := InitializeLlm(current, path, create);
    LiveAfterShort(live, r.events);
    if current.Some? && create.NewEngine? {
      assert r.events == [Closed(current.value), Created(create.engine, path, MaxTokens)];
    } else if create.NewEngine? {
      assert r.events == [Created(create.engine, path, MaxTokens)];
    } else if current.Some? {
      assert r.events == [Closed(current.value)];
    } else {
      assert r.events == [];
    }
  }

  /** `LiveAfter` over the prefixes of at most two events. */
  lemma LiveAfterShort(live: set<Engine>, events: seq<EngineEvent>)
    requires |events| <= 2
    ensures LiveAfter(live, events[..0]) == live
    ensures |events| == 0 ==> LiveAfter(live, events) == live
    ensures |events| >= 1 ==> LiveAfter(live, events[..1]) == Step(live, events[0])
    ensures |events| == 1 ==> LiveAfter(live, events) == Step(live, events[0])
    ensures |events| == 2 ==> LiveAfter(live, events) == Step(Step(live, events[0]), events[1])
  {
    if |events| >= 1 {
      assert events[..1][1..] == [];
      assert events[..1][0] == events[0];
      var rest := events[1..];
      assert LiveAfter(live, events) == LiveAfter(Step(live, events[0]), rest);
      if |events| == 2 {
        assert rest[1..] == [];
        assert rest[0] == events[1];
      }
    }
  }
}
