/** The synthesis engine: the fixed catalogue of models per language, the per-model settings,
    the currently loaded model, and the keyword arguments handed to the synthesizer. The
    synthesizer itself is outside the model; what the program reads from it is a record. */
module Engine {
  import opened Common

  /** A loaded synthesizer as the engine sees it: `model_name` (the catalogue path it was built
      from), its `speakers` attribute when it has one, and its `language` attribute when it has one. */
  datatype TtsModel = TtsModel(modelName: string, speakers: Option<seq<string>>, language: Option<string>)

  /** How building the synthesizer from a catalogue path and moving it to the device turned out:
      it either raised, or produced a model with these attributes. */
  datatype Construction = ConstructionFailed | Constructed(speakers: Option<seq<string>>, language: Option<string>)

  /** The path XTTS v2 is built from, listed under two languages: "tts_models/multilingual/multi-dataset/xtts_v2",
      written in the pieces that the two name tests look for. */
  const XttsPath := "tts_models/" + "multilingual" + "/multi-dataset/" + "xtts" + "_v2"

  /** `available_models`: language code, then model name, then model path. */
  const AvailableModels: Table<Table<string>> := [
    ("pt-br", [("VITS", "tts_models/pt/cv/vits"),
               ("XTTS v2", XttsPath)]),
    ("en", [("Tacotron2", "tts_models/en/ljspeech/tacotron2-DDC"),
            ("VITS", "tts_models/en/ljspeech/vits"),
            ("Neural HMM", "tts_models/en/ljspeech/neural_hmm")]),
    ("es", [("Tacotron2", "tts_models/es/mai/tacotron2-DDC"),
            ("VITS", "tts_models/es/css10/vits")]),
    ("multilingual", [("XTTS v2", XttsPath)])
  ]

  /** One entry of `model_configs`. */
  datatype ModelConfig = ModelConfig(supportVoiceCloning: bool, requiresSpeakerWav: bool, languages: seq<string>)

  const ModelConfigs: Table<ModelConfig> := [
    ("XTTS v2", ModelConfig(true, true, ["pt-br", "en", "es"])),
    ("VITS", ModelConfig(false, false, ["pt-br", "en", "es"])),
    ("Tacotron2", ModelConfig(false, false, ["en", "es"])),
    ("Neural HMM", ModelConfig(false, false, ["en"]))
  ]

  /** The languages a multilingual model reports. */
  const MultilingualLanguages: seq<string> := ["pt-br", "en", "es"]

  /** `available_models[language].get(model_name)` behind the `language in available_models` guard. */
  function CataloguePath(language: string, modelName: string): (r: Option<string>)
    ensures r.Some? ==> exists models :: (language, models) in AvailableModels && (modelName, r.value) in models
  {
    match Lookup(AvailableModels, language)
    case None => None
    case Some(models) => Lookup(models, modelName)
  }

  /** `get_model_info`: the settings of a model, None standing for the empty dict of an unknown name. */
  function ModelInfo(modelName: string): (r: Option<ModelConfig>)
    ensures r.Some? <==> exists i :: 0 <= i < |ModelConfigs| && ModelConfigs[i].0 == modelName
    ensures r.Some? ==> (modelName, r.value) in ModelConfigs
  {
    Lookup(ModelConfigs, modelName)
  }

  /** What `list_available_models` returns: the whole catalogue, or one language's table. */
  datatype Listing = WholeCatalogue(catalogue: Table<Table<string>>) | LanguageModels(models: Table<string>)

  /** `list_available_models(language)`: a non-empty language selects its table, `{}` when unknown;
      None or the empty string selects the whole catalogue. */
  function ListAvailableModels(language: Option<string>): (r: Listing)
    ensures !Truthy(language) <==> r == WholeCatalogue(AvailableModels)
    ensures Truthy(language) && !HasKey(AvailableModels, language.value) ==> r == LanguageModels([])
    ensures Truthy(language) && HasKey(AvailableModels, language.value) ==> r.LanguageModels? && (language.value, r.models) in AvailableModels
  {
    if Truthy(language) then LanguageModels(Lookup(AvailableModels, language.value).GetOr([]))
    else WholeCatalogue(AvailableModels)
  }

  /** The keyword arguments of the synthesis call, with their values. */
  type Arguments = map<string, string>

  /** How `generate_speech` ends. */
  datatype Speech =
    | NoModelLoaded                          // raised before anything else
    | Written(path: string, call: Arguments)  // the synthesizer was called with `call` and the path is returned
    | SynthesisFailed(call: Arguments)        // the synthesizer was called with `call` and raised

  class TtsEngine {
    var currentModel: Option<TtsModel>
    const device: string

    /** Every model the engine holds was built from a catalogue path. */
    ghost predicate Valid()
      reads this
    {
      currentModel.Some? ==> exists language, name :: CataloguePath(language, name) == Some(currentModel.value.modelName)
    }

    /** `TTSEngine()`: no model, and the device chosen from CUDA availability. */
    constructor (cudaAvailable: bool)
      ensures Valid()
      ensures currentModel == None
      ensures device == if cudaAvailable then "cuda" else "cpu"
    {
      currentModel := None;
      device := if cudaAvailable then "cuda" else "cpu";
    }

    /** `load_model`: succeeds exactly when the language is a catalogue key, the model is in that
        language's table and building the synthesizer does not raise; only then is the current model
        replaced, by one whose name is the catalogue path. */
    method LoadModel(construction: Construction, modelName: string, language: string := "pt-br") returns (ok: bool)
      requires Valid()
      modifies this
      ensures Valid()
      ensures ok <==> CataloguePath(language, modelName).Some? && construction.Constructed?
      ensures ok ==> currentModel == Some(TtsModel(CataloguePath(language, modelName).value, construction.speakers, construction.language))
      ensures !ok ==> currentModel == old(currentModel)
      ensures ok ==> ListSpeakers() == construction.speakers.GetOr([])
    {
      ok := false;
      if HasKey(AvailableModels, language) {
        var modelPath := Lookup(AvailableModels, language).value;
        var path := Lookup(modelPath, modelName);
        if Truthy(path) {
          match construction
          case ConstructionFailed =>
          case Constructed(speakers, lang) =>
            currentModel := Some(TtsModel(path.value, speakers, lang));
            ok := true;
        } else if path.Some? {
          CataloguePathsNonEmpty(language, modelName);
        }
      }
    }

    /** `generate_speech`: raises when no model is loaded; otherwise calls the synthesizer with `text`
        and `file_path`, adds `speaker_wav` when one is given and the model has speakers, adds `language`
        when one is given and the model is multilingual, and returns the output path unchanged.
        `synthesisFails` stands for the synthesizer raising. */
    method GenerateSpeech(text: string, synthesisFails: bool, outputPath: string := "output.wav",
                          speakerWav: Option<string> := None, language: Option<string> := None) returns (r: Speech)
      ensures currentModel.None? <==> r == NoModelLoaded
      ensures r.Written? <==> currentModel.Some? && !synthesisFails
      ensures r.Written? ==> r.path == outputPath
      ensures !r.NoModelLoaded? ==> r.call.Keys == {"text", "file_path"}
                                                     + (if Truthy(speakerWav) && currentModel.value.speakers.Some? then {"speaker_wav"} else {})
                                                     + (if Truthy(language) && Contains(currentModel.value.modelName, "multilingual") then {"language"} else {})
      ensures !r.NoModelLoaded? ==> r.call["text"] == text && r.call["file_path"] == outputPath
      ensures !r.NoModelLoaded? && "speaker_wav" in r.call ==> r.call["speaker_wav"] == speakerWav.value
      ensures !r.NoModelLoaded? && "language" in r.call ==> r.call["language"] == language.value
    {
      if currentModel.None? {
        return NoModelLoaded;
      }
      var model := currentModel.value;
      var kwargs := map["text" := text, "file_path" := outputPath];
      if Truthy(speakerWav) && model.speakers.Some? {
        kwargs := kwargs["speaker_wav" := speakerWav.value];
      }
      if Truthy(language) && Contains(model.modelName, "multilingual") {
        kwargs := kwargs["language" := language.value];
      }
      if synthesisFails {
        return SynthesisFailed(kwargs);
      }
      return Written(outputPath, kwargs);
    }

    /** `list_speakers`: the model's speakers when it has the attribute, otherwise none. */
    function ListSpeakers(): (r: seq<string>)
      reads this
      ensures currentModel.None? ==> r == []
      ensures currentModel.Some? && currentModel.value.speakers.Some? ==> r == currentModel.value.speakers.value
      ensures currentModel.Some? && currentModel.value.speakers.None? ==> r == []
    {
      if currentModel.Some? && currentModel.value.speakers.Some? then currentModel.value.speakers.value else []
    }

    /** `supports_voice_cloning`: a loaded model whose lower-cased name contains "xtts". Since the
        engine only holds catalogue models, that is exactly the XTTS v2 model. */
    function SupportsVoiceCloning(): (r: bool)
      reads this
      ensures r ==> currentModel.Some?
      ensures Valid() ==> (r <==> currentModel.Some? && currentModel.value.modelName == XttsPath)
    {
      var r := currentModel.Some? && Contains(Lower(currentModel.value.modelName), "xtts");
      assert Valid() && currentModel.Some? ==> (r <==> currentModel.value.modelName == XttsPath) by {
        if Valid() && currentModel.Some? {
          var language, name :| CataloguePath(language, name) == Some(currentModel.value.modelName);
          CataloguePathTests(language, name);
        }
      }
      r
    }

    /** `get_model_languages`: nothing without a model, the three languages for a multilingual model,
        otherwise the model's own language when it has one. */
    function ModelLanguages(): (r: seq<string>)
      reads this
      ensures currentModel.None? ==> r == []
      ensures currentModel.Some? && Contains(currentModel.value.modelName, "multilingual") ==> r == MultilingualLanguages
      ensures |r| <= 3
    {
      if currentModel.None? then []
      else if Contains(currentModel.value.modelName, "multilingual") then MultilingualLanguages
      else if currentModel.value.language.Some? then [currentModel.value.language.value]
      else []
    }
  }

  // ---------------------------------------------------------------------------------------------
  // Facts about the two tables

  /** The catalogue is a dict of dicts: no language and, within a language, no model name twice. */
  lemma CatalogueKeysDistinct()
    ensures DistinctKeys(AvailableModels)
    ensures forall i :: 0 <= i < |AvailableModels| ==> DistinctKeys(AvailableModels[i].1)
    ensures DistinctKeys(ModelConfigs)
  {
  }

  /** Model `b` of language `a` of the catalogue is the one `load_model` finds under that language
      and that name, with its own path. */
  lemma CatalogueEntryPath(a: nat, b: nat)
    requires a < |AvailableModels| && b < |AvailableModels[a].1|
    ensures CataloguePath(AvailableModels[a].0, AvailableModels[a].1[b].0) == Some(AvailableModels[a].1[b].1)
  {
    CatalogueKeysDistinct();
    LookupStored(AvailableModels, a);
    LookupStored(AvailableModels[a].1, b);
  }

  /** Every catalogue path is non-empty, so the `if model_path` guard only rejects unknown names. */
  lemma CataloguePathsNonEmpty(language: string, modelName: string)
    ensures CataloguePath(language, modelName).Some? ==> CataloguePath(language, modelName).value != ""
  {
  }

  /** A model listed for a language is one `load_model` finds under that language, with the listed path. */
  lemma ListedModelsLoad(language: string, name: string, path: string)
    requires language != ""
    requires (name, path) in ListAvailableModels(Some(language)).models
    ensures CataloguePath(language, name) == Some(path)
  {
    CatalogueKeysDistinct();
    var models := Lookup(AvailableModels, language).value;
    var i :| 0 <= i < |AvailableModels| && AvailableModels[i] == (language, models);
    LookupPair(models, name, path);
  }

  /** Conversely, every model `load_model` finds under a language is listed for that language. */
  lemma CatalogueModelsListed(language: string, name: string, path: string)
    requires CataloguePath(language, name) == Some(path)
    ensures language != "" && (name, path) in ListAvailableModels(Some(language)).models
  {
    var models := Lookup(AvailableModels, language).value;
    assert (language, models) in AvailableModels;
  }

  /** Every model of the catalogue has settings in `model_configs`. */
  lemma CatalogueModelsHaveInfo(language: string, name: string)
    requires CataloguePath(language, name).Some?
    ensures ModelInfo(name).Some?
  {
    var models :| (language, models) in AvailableModels && (name, CataloguePath(language, name).value) in models;
    assert name in {"VITS", "XTTS v2", "Tacotron2", "Neural HMM"};
    if name == "XTTS v2" {
      assert ModelConfigs[0].0 == name;
    } else if name == "VITS" {
      assert ModelConfigs[1].0 == name;
    } else if name == "Tacotron2" {
      assert ModelConfigs[2].0 == name;
    } else {
      assert ModelConfigs[3].0 == name;
    }
  }

  /** A language-specific catalogue entry is backed by the model's settings: the settings list that language. */
  lemma CatalogueLanguagesInInfo(language: string, name: string)
    requires CataloguePath(language, name).Some?
    requires language != "multilingual"
    ensures ModelInfo(name).Some? && language in ModelInfo(name).value.languages
  {
    CatalogueModelsHaveInfo(language, name);
    CatalogueKeysDistinct();
    var models :| (language, models) in AvailableModels && (name, CataloguePath(language, name).value) in models;
    if name == "XTTS v2" {
      LookupPair(ModelConfigs, name, ModelConfigs[0].1);
    } else if name == "VITS" {
      LookupPair(ModelConfigs, name, ModelConfigs[1].1);
    } else if name == "Tacotron2" {
      LookupPair(ModelConfigs, name, ModelConfigs[2].1);
    } else {
      assert name == "Neural HMM";
      LookupPair(ModelConfigs, name, ModelConfigs[3].1);
    }
  }

  /** The catalogue path of XTTS v2 passes the multilingual test... */
  lemma XttsPathMultilingual()
    ensures Contains(XttsPath, "multilingual")
  {
    var head, rest := "tts_models/" + "multilingual", "/multi-dataset/" + "xtts";
    AppendAssoc(head, "/multi-dataset/", "xtts");
    AppendAssoc(head, rest, "_v2");
    OccursInfix("tts_models/", "multilingual", rest + "_v2");
  }

  /** ...and the voice-cloning test. */
  lemma XttsPathCloning()
    ensures Contains(Lower(XttsPath), "xtts")
  {
    LowerOccursInfix("tts_models/" + "multilingual" + "/multi-dataset/", "xtts", "_v2");
  }

  /** The catalogue paths other than the XTTS v2 one. */
  const PlainPaths: set<string> := {"tts_models/pt/cv/vits", "tts_models/en/ljspeech/tacotron2-DDC", "tts_models/en/ljspeech/vits",
                                    "tts_models/en/ljspeech/neural_hmm", "tts_models/es/mai/tacotron2-DDC", "tts_models/es/css10/vits"}

  /** The letters whose absence rules out both name tests: 'x' and 'X' for "xtts", 'g' for
      "multilingual". */
  predicate NameLetter(c: char) {
    c == 'x' || c == 'X' || c == 'g'
  }

  // One lemma per plain path: checking a literal character by character is linear in its length,
  // and six paths at once make one proof too large.
  lemma PtVitsLacks(c: char) requires NameLetter(c) ensures c !in "tts_models/pt/cv/vits" {}
  lemma EnTacotronLacks(c: char) requires NameLetter(c) ensures c !in "tts_models/en/ljspeech/tacotron2-DDC" {}
  lemma EnVitsLacks(c: char) requires NameLetter(c) ensures c !in "tts_models/en/ljspeech/vits" {}
  lemma EnNeuralHmmLacks(c: char) requires NameLetter(c) ensures c !in "tts_models/en/ljspeech/neural_hmm" {}
  lemma EsTacotronLacks(c: char) requires NameLetter(c) ensures c !in "tts_models/es/mai/tacotron2-DDC" {}
  lemma EsVitsLacks(c: char) requires NameLetter(c) ensures c !in "tts_models/es/css10/vits" {}

  /** None of 'x', 'X' and 'g' occurs in a plain catalogue path. */
  lemma PlainPathLacks(path: string, c: char)
    requires path in PlainPaths && NameLetter(c)
    ensures c !in path
  {
    if path == "tts_models/pt/cv/vits" {
      PtVitsLacks(c);
    } else if path == "tts_models/en/ljspeech/tacotron2-DDC" {
      EnTacotronLacks(c);
    } else if path == "tts_models/en/ljspeech/vits" {
      EnVitsLacks(c);
    } else if path == "tts_models/en/ljspeech/neural_hmm" {
      EnNeuralHmmLacks(c);
    } else if path == "tts_models/es/mai/tacotron2-DDC" {
      EsTacotronLacks(c);
    } else {
      assert path == "tts_models/es/css10/vits";
      EsVitsLacks(c);
    }
  }

  /** A path without 'x', 'X' and 'g' fails both name tests. */
  lemma OtherPathTests(path: string)
    requires 'x' !in path && 'X' !in path && 'g' !in path
    ensures !Contains(Lower(path), "xtts") && !Contains(path, "multilingual")
  {
    LowerAbsent(path, 'x');
    AbsentCharNotContained(Lower(path), "xtts", 0);
    AbsentCharNotContained(path, "multilingual", 8);
  }

  /** Which catalogue paths the name tests of `supports_voice_cloning` and `get_model_languages`
      pick out: exactly the XTTS v2 path, for both tests. */
  lemma CataloguePathTests(language: string, name: string)
    requires CataloguePath(language, name).Some?
    ensures Contains(Lower(CataloguePath(language, name).value), "xtts") <==> name == "XTTS v2"
    ensures Contains(CataloguePath(language, name).value, "multilingual") <==> name == "XTTS v2"
    ensures CataloguePath(language, name).value == XttsPath <==> name == "XTTS v2"
  {
    var path := CataloguePath(language, name).value;
    var models :| (language, models) in AvailableModels && (name, path) in models;
    if name == "XTTS v2" {
      assert path == XttsPath;
      XttsPathMultilingual();
      XttsPathCloning();
    } else {
      assert path in PlainPaths;
      PlainPathLacks(path, 'x');
      PlainPathLacks(path, 'X');
      PlainPathLacks(path, 'g');
      OtherPathTests(path);
    }
  }

  /** After loading a catalogue model, `supports_voice_cloning` agrees with that model's
      `support_voice_cloning` setting. */
  lemma LoadedCloningMatchesInfo(engine: TtsEngine, language: string, name: string)
    requires CataloguePath(language, name).Some?
    requires engine.currentModel.Some? && engine.currentModel.value.modelName == CataloguePath(language, name).value
    ensures ModelInfo(name).Some?
    ensures engine.SupportsVoiceCloning() <==> ModelInfo(name).value.supportVoiceCloning
  {
    CataloguePathTests(language, name);
    CatalogueModelsHaveInfo(language, name);
    CatalogueKeysDistinct();
    if name == "XTTS v2" {
      LookupPair(ModelConfigs, name, ModelConfigs[0].1);
    } else {
      var i :| 0 <= i < |ModelConfigs| && ModelConfigs[i].0 == name;
      LookupPair(ModelConfigs, name, ModelConfigs[i].1);
    }
  }

  /** After loading a multilingual catalogue model, `get_model_languages` lists exactly the languages
      of its settings; any other catalogue model reports at most its own language. */
  lemma LoadedLanguagesMatchInfo(engine: TtsEngine, language: string, name: string)
    requires CataloguePath(language, name).Some?
    requires engine.currentModel.Some? && engine.currentModel.value.modelName == CataloguePath(language, name).value
    ensures name == "XTTS v2" ==> ModelInfo(name).Some? && engine.ModelLanguages() == ModelInfo(name).value.languages
    ensures name != "XTTS v2" ==> engine.ModelLanguages() == if engine.currentModel.value.language.Some? then [engine.currentModel.value.language.value] else []
  {
    CataloguePathTests(language, name);
    CatalogueKeysDistinct();
    LookupPair(ModelConfigs, "XTTS v2", ModelConfigs[0].1);
  }
}
