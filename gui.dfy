/** The main window's logic apart from its widgets: the model labels of the drop-down and their
    parsing, the guards around synthesis and playback, the training flag, the validation of the
    training parameters, and saving, loading and resetting the seven settings. Each entry widget
    is a string field; dialogs and log lines are left out. */
module Gui {
  import opened Common
  import opened FileSystem
  import Engine
  import Models

  // ---------------------------------------------------------------------------------------------
  // Model labels

  /** The drop-down label of a model: `"{model_name} ({language})"`. Splitting it on " (" gives
      the name back, for a name without '('. */
  function Label(name: string, language: string): (r: string)
    ensures IsPrefix(name, r)
    ensures '(' !in name ==> SplitHead(r, " (") == name
  {
    var r := name + " (" + language + ")";
    assert r == name + " (" + (language + ")");
    assert '(' !in name ==> SplitHead(r, " (") == name by {
      if '(' !in name {
        SplitHeadBeforeParen(name, language + ")");
      }
    }
    r
  }

  /** The labels of the first `j` models of one language's table, in table order. */
  function LanguageLabels(language: string, models: Table<string>, j: nat): (r: seq<string>)
    requires j <= |models|
    ensures |r| == j
    ensures forall k :: 0 <= k < j ==> r[k] == Label(models[k].0, language)
  {
    if j == 0 then [] else LanguageLabels(language, models, j - 1) + [Label(models[j - 1].0, language)]
  }

  /** The labels of the first `i` languages of a catalogue, language after language. */
  function LabelsUpTo(catalogue: Table<Table<string>>, i: nat): seq<string>
    requires i <= |catalogue|
  {
    if i == 0 then []
    else LabelsUpTo(catalogue, i - 1) + LanguageLabels(catalogue[i - 1].0, catalogue[i - 1].1, |catalogue[i - 1].1|)
  }

  function Labels(catalogue: Table<Table<string>>): seq<string> {
    LabelsUpTo(catalogue, |catalogue|)
  }

  /** The number of models in the first `i` languages of a catalogue. */
  function ModelCount(catalogue: Table<Table<string>>, i: nat): nat
    requires i <= |catalogue|
  {
    if i == 0 then 0 else ModelCount(catalogue, i - 1) + |catalogue[i - 1].1|
  }

  /** One label per catalogue entry: as many labels as models in all the tables together. */
  lemma {:induction false} LabelCount(catalogue: Table<Table<string>>, i: nat)
    requires i <= |catalogue|
    ensures |LabelsUpTo(catalogue, i)| == ModelCount(catalogue, i)
  {
    if i > 0 {
      LabelCount(catalogue, i - 1);
    }
  }

  /** `choice` is the label of model `b` of language `a` of a catalogue. */
  predicate EntryLabel(catalogue: Table<Table<string>>, a: nat, b: nat, choice: string) {
    a < |catalogue| && b < |catalogue[a].1| && choice == Label(catalogue[a].1[b].0, catalogue[a].0)
  }

  /** The labels of one language's table are exactly the labels of its entries. */
  lemma LanguageLabelsOfEntries(catalogue: Table<Table<string>>, a: nat, choice: string)
    requires a < |catalogue|
    ensures choice in LanguageLabels(catalogue[a].0, catalogue[a].1, |catalogue[a].1|) <==>
              exists b: nat :: EntryLabel(catalogue, a, b, choice)
  {
    var last := LanguageLabels(catalogue[a].0, catalogue[a].1, |catalogue[a].1|);
    if choice in last {
      var b :| 0 <= b < |last| && last[b] == choice;
      assert EntryLabel(catalogue, a, b, choice);
    }
    if exists b: nat :: EntryLabel(catalogue, a, b, choice) {
      var b: nat :| EntryLabel(catalogue, a, b, choice);
      assert last[b] == choice;
    }
  }

  /** Every label among the first `i` languages is the label of one of their entries. */
  lemma {:induction false} LabelEntry(catalogue: Table<Table<string>>, i: nat, choice: string) returns (a: nat, b: nat)
    requires i <= |catalogue| && choice in LabelsUpTo(catalogue, i)
    ensures a < i && EntryLabel(catalogue, a, b, choice)
  {
    var last := LanguageLabels(catalogue[i - 1].0, catalogue[i - 1].1, |catalogue[i - 1].1|);
    assert LabelsUpTo(catalogue, i) == LabelsUpTo(catalogue, i - 1) + last;
    if choice in last {
      var k :| 0 <= k < |last| && last[k] == choice;
      a, b := i - 1, k;
    } else {
      a, b := LabelEntry(catalogue, i - 1, choice);
    }
  }

  /** The label of every entry of the first `i` languages is among their labels. */
  lemma {:induction false} EntryLabelListed(catalogue: Table<Table<string>>, i: nat, a: nat, b: nat, choice: string)
    requires i <= |catalogue| && a < i && EntryLabel(catalogue, a, b, choice)
    ensures choice in LabelsUpTo(catalogue, i)
  {
    var last := LanguageLabels(catalogue[i - 1].0, catalogue[i - 1].1, |catalogue[i - 1].1|);
    assert LabelsUpTo(catalogue, i) == LabelsUpTo(catalogue, i - 1) + last;
    if a == i - 1 {
      LanguageLabelsOfEntries(catalogue, a, choice);
    } else {
      EntryLabelListed(catalogue, i - 1, a, b, choice);
    }
  }

  /** Every entry of the catalogue has its label, and every label is the label of an entry. */
  lemma LabelsOfEntries(catalogue: Table<Table<string>>, i: nat, choice: string)
    requires i <= |catalogue|
    ensures choice in LabelsUpTo(catalogue, i) <==> exists a: nat, b: nat :: a < i && EntryLabel(catalogue, a, b, choice)
  {
    if choice in LabelsUpTo(catalogue, i) {
      var a, b := LabelEntry(catalogue, i, choice);
    }
    if exists a: nat, b: nat :: a < i && EntryLabel(catalogue, a, b, choice) {
      var a: nat, b: nat :| a < i && EntryLabel(catalogue, a, b, choice);
      EntryLabelListed(catalogue, i, a, b, choice);
    }
  }

  /** The nested loops of `get_available_models`, over any catalogue: one label per model,
      language after language and in table order. */
  method CatalogueLabels(catalogue: Table<Table<string>>) returns (labels: seq<string>)
    ensures labels == Labels(catalogue)
  {
    labels := [];
    var i := 0;
    while i < |catalogue|
      invariant 0 <= i <= |catalogue|
      invariant labels == LabelsUpTo(catalogue, i)
    {
      var language: string, models: Table<string> := catalogue[i].0, catalogue[i].1;
      var j := 0;
      while j < |models|
        invariant 0 <= j <= |models|
        invariant labels == LabelsUpTo(catalogue, i) + LanguageLabels(language, models, j)
      {
        labels := labels + [Label(models[j].0, language)];
        j := j + 1;
      }
      i := i + 1;
    }
  }

  /** No model name of the catalogue contains a '('. */
  lemma CatalogueNamesPlain(a: nat, b: nat)
    requires a < |Engine.AvailableModels| && b < |Engine.AvailableModels[a].1|
    ensures '(' !in Engine.AvailableModels[a].1[b].0
  {
  }

  /** `choice.split(" (")[0]` recovers the model name from every label of the catalogue, and the
      voice-cloning controls are shown for that label exactly when the model is XTTS v2. */
  lemma CatalogueLabelParses(a: nat, b: nat)
    requires a < |Engine.AvailableModels| && b < |Engine.AvailableModels[a].1|
    ensures var name := Engine.AvailableModels[a].1[b].0;
            SplitHead(Label(name, Engine.AvailableModels[a].0), " (") == name
    ensures var name := Engine.AvailableModels[a].1[b].0;
            CloningSelected(Label(name, Engine.AvailableModels[a].0)) <==> name == "XTTS v2"
  {
    var name := Engine.AvailableModels[a].1[b].0;
    var language := Engine.AvailableModels[a].0;
    CatalogueNamesPlain(a, b);
    assert Label(name, language) == name + " (" + (language + ")");
    SplitHeadBeforeParen(name, language + ")");
    Engine.CatalogueKeysDistinct();
    Engine.CatalogueEntryPath(a, b);
    Engine.CatalogueModelsHaveInfo(language, name);
    var i :| 0 <= i < |Engine.ModelConfigs| && Engine.ModelConfigs[i].0 == name;
    LookupPair(Engine.ModelConfigs, name, Engine.ModelConfigs[i].1);
  }

  /** `model_info.get("support_voice_cloning", False)` for the model named by a drop-down choice:
      of the configured models only XTTS v2 supports voice cloning. */
  function CloningSelected(choice: string): (r: bool)
    ensures r <==> SplitHead(choice, " (") == "XTTS v2"
  {
    var name := SplitHead(choice, " (");
    var r := match Engine.ModelInfo(name)
             case None => false
             case Some(info) => info.supportVoiceCloning;
    assert r <==> name == "XTTS v2" by {
      Engine.CatalogueKeysDistinct();
      if Engine.ModelInfo(name).Some? {
        var i :| 0 <= i < |Engine.ModelConfigs| && Engine.ModelConfigs[i].0 == name;
        LookupPair(Engine.ModelConfigs, name, Engine.ModelConfigs[i].1);
      }
    }
    r
  }

  // ---------------------------------------------------------------------------------------------
  // Training parameters

  /** What `float(text)` yields: a finite value, an infinity, or NaN. */
  datatype PyFloat = Finite(value: real) | Infinity(negative: bool) | NaN

  /** `x <= 0` on a float: false for NaN, as every comparison with NaN is. */
  predicate AtMostZero(x: PyFloat) {
    match x
    case Finite(v) => v <= 0.0
    case Infinity(negative) => negative
    case NaN => false
  }

  /** `x > 0` on a float. */
  predicate Positive(x: PyFloat) {
    match x
    case Finite(v) => v > 0.0
    case Infinity(negative) => !negative
    case NaN => false
  }

  /** `validate_training_params` as written: both counts parse as integers and the learning rate
      parses as a float (`lr` is None when `float` raises), and none of the three is `<= 0`. */
  function TrainingParamsAcceptedAsWritten(epochsText: string, batchText: string, lr: Option<PyFloat>): (r: bool)
    ensures r ==> ParseInt(epochsText).Some? && ParseInt(epochsText).value > 0
    ensures r ==> ParseInt(batchText).Some? && ParseInt(batchText).value > 0
    ensures r ==> lr.Some? && (lr.value == NaN || Positive(lr.value))
  {
    var epochs, batchSize := ParseInt(epochsText), ParseInt(batchText);
    var r := && epochs.Some? && batchSize.Some? && lr.Some?
             && !(epochs.value <= 0 || batchSize.value <= 0 || AtMostZero(lr.value));
    assert r ==> lr.Some? && (lr.value == NaN || Positive(lr.value)) by {
      if r {
        assert lr.value.Finite? || lr.value.Infinity? || lr.value.NaN?;
      }
    }
    r
  }

  /** "nan" is accepted as a learning rate, since `nan <= 0` is false. */
  lemma NanLearningRateAccepted()
    ensures TrainingParamsAcceptedAsWritten("1", "1", Some(NaN))
    ensures !Positive(NaN)
  {
    assert DigitGroups("1");
    assert DigitsValue("1") == 1 by {
      assert "1"[..0] == [];
    }
    assert "1" == "" + "" + "1" + "";
    ParseIntAccepts("1", "", "", "1", "");
  }

  /** `validate_training_params` with the comparison its error message asks for: all three values
      are positive. */
  function TrainingParamsValid(epochsText: string, batchText: string, lr: Option<PyFloat>): (r: bool)
    ensures r ==> TrainingParamsAcceptedAsWritten(epochsText, batchText, lr)
    ensures r ==> lr.Some? && Positive(lr.value)
  {
    && ParseInt(epochsText).Some? && ParseInt(batchText).Some? && lr.Some?
    && ParseInt(epochsText).value > 0 && ParseInt(batchText).value > 0 && Positive(lr.value)
  }

  /** The two validations agree on every input but a NaN learning rate, which only the code as
      written accepts; the corrected one accepts only positive values. */
  lemma TrainingParamsDifferOnlyOnNaN(epochsText: string, batchText: string, lr: Option<PyFloat>)
    ensures TrainingParamsValid(epochsText, batchText, lr) ==>
              && ParseInt(epochsText).value > 0 && ParseInt(batchText).value > 0
              && (lr.value.Finite? ==> lr.value.value > 0.0) && lr.value != NaN
    ensures (TrainingParamsAcceptedAsWritten(epochsText, batchText, lr) != TrainingParamsValid(epochsText, batchText, lr))
              ==> lr == Some(NaN)
  {
    var e, b := ParseInt(epochsText), ParseInt(batchText);
    if e.Some? && b.Some? && lr.Some? {
      match lr.value
      case Finite(v) =>
      case Infinity(negative) =>
      case NaN =>
    }
  }

  // ---------------------------------------------------------------------------------------------
  // Settings and the configuration file

  /** The seven settings the configuration file holds, as the widgets show them. */
  datatype Settings = Settings(modelsDir: string, outputDir: string, defaultLanguage: string,
                               epochs: string, batchSize: string, learningRate: string, baseModel: string)

  /** The defaults of the settings. */
  const Defaults := Settings("", "", "pt-br", "1000", "32", "0.0002", "VITS")

  /** A parsed JSON value, as far as loading the settings looks at it. `JOther` is any other value
      (a number, a boolean, a list), with the text a widget shows for it. */
  datatype Json = JString(text: string) | JObject(members: map<string, Json>) | JNull | JOther(text: string)

  /** The configuration file: absent, unreadable or not JSON, or a parsed document. */
  datatype ConfigFile = NoFile | Unreadable | Document(json: Json)

  /** How `load_config` ends. */
  datatype LoadOutcome = Loaded | NotFound | LoadFailed

  /** `d.get(key, default)` */
  function Get(members: map<string, Json>, key: string, default: Json): Json {
    if key in members then members[key] else default
  }

  /** The text a choice variable shows after `set(value)`: a null shows as "None". */
  function Shown(value: Json): string {
    match value
    case JString(text) => text
    case JOther(text) => text
    case JNull => "None"
    case JObject(_) => ""
  }

  /** The text an entry shows after `insert(0, value)`, or None when Tk raises: a null ends the
      argument list of the Tcl command, which then lacks the text to insert. */
  function Inserted(value: Json): Option<string> {
    if value.JNull? then None else Some(Shown(value))
  }

  /** What `save_config` writes: an object with the three top-level settings and a "training"
      object with the four others, every value a string. */
  function ConfigDocument(s: Settings): (r: Json)
    ensures r.JObject? && r.members.Keys == {"models_dir", "output_dir", "default_language", "training"}
    ensures r.members["training"].JObject?
    ensures r.members["training"].members.Keys == {"epochs", "batch_size", "learning_rate", "base_model"}
    ensures forall k :: k in r.members && k != "training" ==> r.members[k].JString?
    ensures forall k :: k in r.members["training"].members ==> r.members["training"].members[k].JString?
  {
    JObject(map[
      "models_dir" := JString(s.modelsDir),
      "output_dir" := JString(s.outputDir),
      "default_language" := JString(s.defaultLanguage),
      "training" := JObject(map[
        "epochs" := JString(s.epochs),
        "batch_size" := JString(s.batchSize),
        "learning_rate" := JString(s.learningRate),
        "base_model" := JString(s.baseModel)])])
  }

  /** The settings after part of `load_config`, and whether that part went through without raising. */
  datatype Loading = Loading(settings: Settings, complete: bool)

  /** The training part of `load_config` from the members `t` of the "training" object, the epochs
      entry already emptied. A null epochs, batch size or learning rate stops it with that entry empty. */
  function TrainingLoaded(t: map<string, Json>, s: Settings): Loading {
    match Inserted(Get(t, "epochs", JString("1000")))
    case None => Loading(s, false)
    case Some(epochs) =>
      var s1 := s.(epochs := epochs, batchSize := "");
      match Inserted(Get(t, "batch_size", JString("32")))
      case None => Loading(s1, false)
      case Some(batchSize) =>
        var s2 := s1.(batchSize := batchSize, learningRate := "");
        match Inserted(Get(t, "learning_rate", JString("0.0002")))
        case None => Loading(s2, false)
        case Some(learningRate) =>
          Loading(s2.(learningRate := learningRate, baseModel := Shown(Get(t, "base_model", JString("VITS")))), true)
  }

  /** `load_config` once the file has parsed into `config`, over the settings `s`. Fields are replaced
      one after the other, each entry emptied before its new value is computed, so an error leaves the
      fields before it updated, its own entry empty and the fields after it as they were: a document that
      is not an object empties only the models directory, a "training" entry that is not an object
      empties only the epochs, and a null under an entry's key empties that entry. */
  function DocumentLoaded(config: Json, s: Settings): Loading {
    if !config.JObject? then Loading(s.(modelsDir := ""), false)
    else
      var m := config.members;
      match Inserted(Get(m, "models_dir", JString("")))
      case None => Loading(s.(modelsDir := ""), false)
      case Some(modelsDir) =>
        var s1 := s.(modelsDir := modelsDir, outputDir := "");
        match Inserted(Get(m, "output_dir", JString("")))
        case None => Loading(s1, false)
        case Some(outputDir) =>
          var s2 := s1.(outputDir := outputDir, defaultLanguage := Shown(Get(m, "default_language", JString("pt-br"))),
                        epochs := "");
          var training := Get(m, "training", JObject(map[]));
          if !training.JObject? then Loading(s2, false)
          else TrainingLoaded(training.members, s2)
  }

  /** The settings after `load_config` reads `file` over the settings `s`; a missing or unreadable
      file changes nothing. */
  function LoadedSettings(file: ConfigFile, s: Settings): Settings {
    match file
    case NoFile => s
    case Unreadable => s
    case Document(config) => DocumentLoaded(config, s).settings
  }

  /** A parsed document `load_config` reads without raising: the document and its "training" entry are
      objects, and none of the five values it inserts into entries is null. */
  predicate LoadsCleanly(config: Json) {
    && config.JObject?
    && var m := config.members;
    && var training := Get(m, "training", JObject(map[]));
    && !Get(m, "models_dir", JString("")).JNull? && !Get(m, "output_dir", JString("")).JNull?
    && training.JObject?
    && !Get(training.members, "epochs", JString("1000")).JNull?
    && !Get(training.members, "batch_size", JString("32")).JNull?
    && !Get(training.members, "learning_rate", JString("0.0002")).JNull?
  }

  function LoadResult(file: ConfigFile): LoadOutcome {
    match file
    case NoFile => NotFound
    case Unreadable => LoadFailed
    case Document(config) => if DocumentLoaded(config, Defaults).complete then Loaded else LoadFailed
  }

  /** Whether the load completes depends only on the document, and it completes exactly when the
      document loads cleanly. */
  lemma CompleteIffClean(config: Json, s: Settings)
    ensures DocumentLoaded(config, s).complete <==> LoadsCleanly(config)
    ensures LoadResult(Document(config)) == if LoadsCleanly(config) then Loaded else LoadFailed
  {
  }

  /** In any document, a null under a top-level key whose value goes into an entry makes the load
      fail with that entry empty, the entries before it loaded and every later field unchanged; a null
      default language shows as "None" and does not stop the load. */
  lemma NullEntryFails(config: Json, s: Settings)
    requires config.JObject?
    ensures var m := config.members;
            Get(m, "models_dir", JString("")) == JNull ==>
              DocumentLoaded(config, s) == Loading(s.(modelsDir := ""), false)
    ensures var m := config.members;
            Get(m, "models_dir", JString("")) != JNull && Get(m, "output_dir", JString("")) == JNull ==>
              DocumentLoaded(config, s) == Loading(s.(modelsDir := Shown(Get(m, "models_dir", JString(""))), outputDir := ""), false)
    ensures var m := config.members;
            Get(m, "default_language", JString("pt-br")) == JNull && LoadsCleanly(config) ==>
              DocumentLoaded(config, s).complete && DocumentLoaded(config, s).settings.defaultLanguage == "None"
  {
  }

  /** In any "training" object, a null epochs, batch size or learning rate makes the load fail with
      that entry empty, the entries before it loaded and every later field unchanged. */
  lemma NullTrainingEntryFails(t: map<string, Json>, s: Settings)
    ensures Get(t, "epochs", JString("1000")) == JNull ==> TrainingLoaded(t, s) == Loading(s, false)
    ensures Get(t, "epochs", JString("1000")) != JNull && Get(t, "batch_size", JString("32")) == JNull ==>
              TrainingLoaded(t, s) == Loading(s.(epochs := Shown(Get(t, "epochs", JString("1000"))), batchSize := ""), false)
    ensures Get(t, "epochs", JString("1000")) != JNull && Get(t, "batch_size", JString("32")) != JNull
            && Get(t, "learning_rate", JString("0.0002")) == JNull ==>
              TrainingLoaded(t, s) == Loading(s.(epochs := Shown(Get(t, "epochs", JString("1000"))),
                                                 batchSize := Shown(Get(t, "batch_size", JString("32"))),
                                                 learningRate := ""), false)
  {
  }

  /** Loading what `save_config` wrote restores all seven settings, whatever they were before. */
  lemma SaveLoadRoundTrip(saved: Settings, before: Settings)
    ensures LoadedSettings(Document(ConfigDocument(saved)), before) == saved
    ensures LoadResult(Document(ConfigDocument(saved))) == Loaded
  {
  }

  /** The fallbacks of `load_config` are the defaults: an empty document loads them, whatever the settings were. */
  lemma EmptyDocumentLoadsDefaults(before: Settings)
    ensures LoadedSettings(Document(JObject(map[])), before) == Defaults
  {
  }

  /** Without a configuration file the settings stay as they are. */
  lemma MissingFileKeepsSettings(before: Settings)
    ensures LoadedSettings(NoFile, before) == before && LoadResult(NoFile) == NotFound
  {
  }

  // ---------------------------------------------------------------------------------------------
  // The window

  /** What `generate_audio` hands to the engine. */
  datatype SpeechRequest = SpeechRequest(text: string, outputPath: string, language: string, speakerWav: Option<string>)

  /** How `generate_audio` ends: a warning for a blank text, or a request and what the engine did with it. */
  datatype GenerateOutcome = BlankText | Requested(request: SpeechRequest, speech: Engine.Speech)

  /** Everything of the window that its methods change. */
  datatype WindowState = WindowState(settings: Settings, currentAudioFile: Option<string>, isPlaying: bool,
                                     trainingInProgress: bool, voiceCloneVisible: bool, voicePath: string)

  function Min(a: nat, b: nat): nat {
    if a <= b then a else b
  }

  class MainWindow {
    const engine: Engine.TtsEngine
    const modelManager: Models.ModelManager
    var currentAudioFile: Option<string>
    var isPlaying: bool
    var trainingInProgress: bool
    var voiceCloneVisible: bool
    var voicePath: string
    // the entries of the settings and training tabs
    var modelsDir: string
    var outputDir: string
    var defaultLanguage: string
    var epochs: string
    var batchSize: string
    var learningRate: string
    var baseModel: string

    function CurrentSettings(): Settings
      reads this
    {
      Settings(modelsDir, outputDir, defaultLanguage, epochs, batchSize, learningRate, baseModel)
    }

    function State(): WindowState
      reads this
    {
      WindowState(CurrentSettings(), currentAudioFile, isPlaying, trainingInProgress, voiceCloneVisible, voicePath)
    }

    /** `MainWindow()`: a fresh engine with no model and a model manager over "./models"; nothing to
        play and no training; the widgets start at the defaults with the cloning controls shown;
        then the configuration file is loaded over them. */
    constructor (disk: Disk, dirSize: nat, cudaAvailable: bool, file: ConfigFile)
      requires disk.Valid()
      requires "./models" in disk.entries || forall a :: a in Ancestors("./models") && a in disk.entries ==> disk.entries[a].Dir?
      modifies disk
      ensures disk.Valid() && Exists(disk.entries, "./models")
      ensures engine.currentModel == None && modelManager.modelsDir == "./models"
      ensures State() == WindowState(LoadedSettings(file, Defaults), None, false, false, true, "")
    {
      engine := new Engine.TtsEngine(cudaAvailable);
      modelManager := new Models.ModelManager(disk, dirSize);
      currentAudioFile := None;
      isPlaying := false;
      trainingInProgress := false;
      voiceCloneVisible := true;
      voicePath := "";
      modelsDir := "";
      outputDir := "";
      defaultLanguage := "pt-br";
      epochs := "1000";
      batchSize := "32";
      learningRate := "0.0002";
      baseModel := "VITS";
      new;
      var outcome := LoadConfig(file);
    }

    /** `get_available_models`: the label of every model of the catalogue, language after language
        and in table order. */
    method GetAvailableModels() returns (labels: seq<string>)
      ensures labels == Labels(Engine.AvailableModels)
    {
      var catalogue := Engine.ListAvailableModels(None).catalogue;
      labels := CatalogueLabels(catalogue);
    }

    /** `on_model_change`: shows the cloning controls exactly when the chosen model's settings
        support voice cloning; an unknown model hides them. */
    method OnModelChange(choice: string)
      modifies this
      ensures State() == old(State()).(voiceCloneVisible := CloningSelected(choice))
    {
      var modelName := SplitHead(choice, " (");
      var info := Engine.ModelInfo(modelName);
      voiceCloneVisible := info.Some? && info.value.supportVoiceCloning;
    }

    /** `generate_audio` and the work it starts: nothing for a blank text; otherwise a request with
        the text, "output.wav", the selected language and the voice file only when its path is
        non-empty and exists; a written file becomes the current audio file. While the engine has no
        model, which is always so in this window, every request ends in the engine's error. */
    method GenerateAudio(text: string, fs: Fs, synthesisFails: bool) returns (outcome: GenerateOutcome)
      modifies this
      ensures outcome == BlankText <==> Strip(text) == []
      ensures outcome.Requested? ==>
                outcome.request == SpeechRequest(text, "output.wav", defaultLanguage,
                                                 if voicePath != "" && Exists(fs, voicePath) then Some(voicePath) else None)
      ensures State() == if outcome.Requested? && outcome.speech.Written?
                         then old(State()).(currentAudioFile := Some(outcome.speech.path))
                         else old(State())
      ensures outcome.Requested? && engine.currentModel == None ==> outcome.speech == Engine.NoModelLoaded
    {
      if Strip(text) == [] {
        return BlankText;
      }
      var speakerWav := if voicePath != "" && Exists(fs, voicePath) then Some(voicePath) else None;
      var request := SpeechRequest(text, "output.wav", defaultLanguage, speakerWav);
      var speech := engine.GenerateSpeech(text, synthesisFails, request.outputPath, request.speakerWav, Some(request.language));
      if speech.Written? {
        currentAudioFile := Some(speech.path);
      }
      return Requested(request, speech);
    }

    /** `play_audio`: starts playing only when there is a current audio file that exists and playback
        does not raise. */
    method PlayAudio(fs: Fs, playbackFails: bool)
      modifies this
      ensures State() == old(State()).(isPlaying := if Truthy(old(currentAudioFile)) && Exists(fs, old(currentAudioFile).value) && !playbackFails
                                                     then true else old(isPlaying))
    {
      if Truthy(currentAudioFile) && Exists(fs, currentAudioFile.value) {
        if !playbackFails {
          isPlaying := true;
        }
      }
    }

    /** `stop_audio`: acts only while playing, and stops. */
    method StopAudio()
      modifies this
      ensures State() == old(State()).(isPlaying := false)
    {
      if isPlaying {
        isPlaying := false;
      }
    }

    /** `start_training`: sets the training flag only when the parameters are valid. `lr` is what
        `float` makes of the learning-rate entry. */
    method StartTraining(lr: Option<PyFloat>) returns (started: bool)
      modifies this
      ensures started <==> TrainingParamsValid(epochs, batchSize, lr)
      ensures State() == if started then old(State()).(trainingInProgress := true) else old(State())
    {
      if !TrainingParamsValid(epochs, batchSize, lr) {
        return false;
      }
      trainingInProgress := true;
      return true;
    }

    /** The training thread: up to ten simulated epochs, each only while the flag is set, and the
        flag cleared at the end. `stopBefore` is the epoch before which `stop_training` runs (ten or
        more: never). */
    method TrainingThread(stopBefore: nat) returns (epochsRun: nat)
      modifies this
      ensures epochsRun == if old(trainingInProgress) then Min(stopBefore, 10) else 0
      ensures State() == old(State()).(trainingInProgress := false)
    {
      epochsRun := 0;
      var i := 0;
      while i < 10
        invariant 0 <= i <= 10
        invariant i == 0 || (old(trainingInProgress) && i <= stopBefore)
        invariant epochsRun == i
        invariant State() == old(State())
      {
        if i == stopBefore {
          StopTraining();
        }
        if !trainingInProgress {
          break;
        }
        epochsRun := epochsRun + 1;
        i := i + 1;
      }
      trainingInProgress := false;
    }

    /** `stop_training`: clears the training flag. */
    method StopTraining()
      modifies this
      ensures State() == old(State()).(trainingInProgress := false)
    {
      trainingInProgress := false;
    }

    /** `save_config`: the document of the current settings, or the file unchanged when it cannot be written. */
    method SaveConfig(file: ConfigFile, writable: bool) returns (written: ConfigFile)
      ensures written == if writable then Document(ConfigDocument(CurrentSettings())) else file
    {
      var config := ConfigDocument(CurrentSettings());
      if !writable {
        return file;
      }
      return Document(config);
    }

    /** `load_config`: the settings become those `LoadedSettings` describes, field by field. */
    method LoadConfig(file: ConfigFile) returns (outcome: LoadOutcome)
      modifies this
      ensures outcome == LoadResult(file)
      ensures State() == old(State()).(settings := LoadedSettings(file, old(CurrentSettings())))
    {
      match file {
        case NoFile => return NotFound;
        case Unreadable => return LoadFailed;
        case Document(config) =>
          var complete := LoadDocument(config);
          CompleteIffClean(config, old(CurrentSettings()));
          CompleteIffClean(config, Defaults);
          outcome := if complete then Loaded else LoadFailed;
      }
    }

    /** `load_config` once the file has been parsed into `config`; `complete` is false when an
        exception ends it. */
    method LoadDocument(config: Json) returns (complete: bool)
      modifies this
      ensures complete == DocumentLoaded(config, old(CurrentSettings())).complete
      ensures State() == old(State()).(settings := DocumentLoaded(config, old(CurrentSettings())).settings)
    {
      modelsDir := "";
      if !config.JObject? {
        return false;
      }
      var value := Inserted(Get(config.members, "models_dir", JString("")));
      if value.None? {
        return false;
      }
      modelsDir := value.value;
      outputDir := "";
      value := Inserted(Get(config.members, "output_dir", JString("")));
      if value.None? {
        return false;
      }
      outputDir := value.value;
      defaultLanguage := Shown(Get(config.members, "default_language", JString("pt-br")));
      var training := Get(config.members, "training", JObject(map[]));
      epochs := "";
      if !training.JObject? {
        return false;
      }
      complete := LoadTraining(training.members);
    }

    /** The training part of `load_config`, from the "training" object's members, once the epochs
        entry has been emptied; `complete` is false when an exception ends it. */
    method LoadTraining(t: map<string, Json>) returns (complete: bool)
      modifies this
      ensures complete == TrainingLoaded(t, old(CurrentSettings())).complete
      ensures State() == old(State()).(settings := TrainingLoaded(t, old(CurrentSettings())).settings)
    {
      var value := Inserted(Get(t, "epochs", JString("1000")));
      if value.None? {
        return false;
      }
      epochs := value.value;
      batchSize := "";
      value := Inserted(Get(t, "batch_size", JString("32")));
      if value.None? {
        return false;
      }
      batchSize := value.value;
      learningRate := "";
      value := Inserted(Get(t, "learning_rate", JString("0.0002")));
      if value.None? {
        return false;
      }
      learningRate := value.value;
      baseModel := Shown(Get(t, "base_model", JString("VITS")));
      return true;
    }

    /** `reset_config`: after confirmation every setting returns to its default. */
    method ResetConfig(confirmed: bool)
      modifies this
      ensures State() == if confirmed then old(State()).(settings := Defaults) else old(State())
    {
      if confirmed {
        modelsDir := "";
        outputDir := "";
        defaultLanguage := "pt-br";
        epochs := "1000";
        batchSize := "32";
        learningRate := "0.0002";
        baseModel := "VITS";
      }
    }
  }

  /** Saving and then loading gives back the settings of the window. */
  lemma WindowSaveLoad(window: MainWindow)
    ensures LoadedSettings(Document(ConfigDocument(window.CurrentSettings())), Defaults) == window.CurrentSettings()
  {
    SaveLoadRoundTrip(window.CurrentSettings(), Defaults);
  }
}
