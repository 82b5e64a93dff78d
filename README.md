# Coqui TTS desktop interface — decision logic in Dafny

The application is a desktop window over the Coqui TTS library. A user picks a pretrained
voice model, types text, synthesizes and plays audio, and can start a training run. Speech
synthesis, training, audio playback and the widgets all belong to foreign code. This project
models the decisions the application makes around them:

- **Training manager** (`training.dfy`, module `Training`)
  - `validate_dataset` runs an ordered series of checks and reports either an error or
    success with counts and flags:
    1. the dataset directory;
    2. `metadata.csv`;
    3. `wavs/`;
    4. the required columns;
    5. one pass over the rows collecting the audio files that are missing.
  - `prepare_training` looks the model up in the training table, logs warnings, and switches
    `use_cuda` off when CUDA is unavailable. The `TrainingConfig` record is a class because
    this change happens in place.
- **Synthesis engine** (`engine.dfy`, module `Engine`)
  - The language → model → path catalogue and the per-model settings table.
  - A `TtsEngine` class whose `current_model` field is set by `load_model`.
  - The keyword arguments `generate_speech` builds step by step.
  - The read-only queries: `get_model_info`, `list_available_models`, `list_speakers`,
    `supports_voice_cloning` and `get_model_languages`.
- **Model-file inventory** (`models.dfy`, module `Models`): a `ModelManager` class that:
  - creates its models directory;
  - lists the `.pth`/`.pt` files below it by relative path;
  - removes and validates one model file;
  - holds the predefined table.
- **Main window** (`gui.dfy`, module `Gui`): a `MainWindow` class with one string field per
  settings entry, plus the flags `is_playing`, `current_audio_file` and `training_in_progress`.
  It covers:
  - the `"name (language)"` labels of the model drop-down and their parsing;
  - the guards of `generate_audio`, `play_audio` and `stop_audio`;
  - the training flag;
  - training-parameter validation;
  - saving, loading and resetting the seven settings.
- **Shared pieces** (`common.dfy`, `filesystem.dfy`):
  - Python string operations: `strip`, `split(...)[0]`, `in`, `lower`, `int()`.
  - Insertion-ordered dicts as tables of pairs.
  - The file system as a map from path to file or directory, with its size. The `Disk` class
    holds that map, and `os.remove` and `os.makedirs` change it in place, keeping every path
    below existing directories.

Inputs from outside the program are parameters of the operations; what the widget toolkit does with a value is a fixed function:

| Outside input | How the model takes it |
|---|---|
| What `pd.read_csv` parsed | `CsvRead` |
| Whether CUDA is available | a boolean |
| Whether building a `TTS` object raised, and which `speakers` and `language` attributes the result has | `Construction` |
| Whether the synthesizer or pygame raised | a boolean |
| The parsed JSON configuration file | `ConfigFile` |
| What `float()` made of the learning-rate entry | `PyFloat` |
| What Tk does with a value inserted into an entry: raise for a null, otherwise show its text | `Inserted` |

Nothing in the window calls `load_model`, so its engine never holds a model.
`MainWindow.constructor` states that the engine starts without one, and no window method
changes the engine. `MainWindow.GenerateAudio` states that, in that state, every request ends
in the engine's "no model loaded" error.

## Model

| member | source | states |
|---|---|---|
| Training.MissingRequired | core/training_manager.py:90-93 | a column is reported missing exactly when it is `file_name` or `text` and absent from the header; none is missing exactly when both are present |
| Training.FirstNonText | core/training_manager.py:96-100 | None exactly when every row has a text `file_name`; otherwise the index of the first row without one |
| Training.MissingAmongSound | core/training_manager.py:97-100 | every name collected as missing belongs to one of the rows looked at, and its file does not exist under `wavs/` |
| Training.MissingAmongComplete | core/training_manager.py:97-100 | every row looked at whose audio file does not exist has its name collected |
| Training.MissingAmongGrows | core/training_manager.py:97-100 | looking at more rows only appends to the missing list, so the list is in metadata order |
| Training.FirstFive | core/training_manager.py:103 | the listed names are a prefix of the missing list, of length min(5, its length) |
| Training.NoMissingFiles | core/training_manager.py:96-102 | the missing list is empty exactly when every row names an audio file that exists |
| Training.ChecksInOrder | core/training_manager.py:74-83 | the dataset directory is checked first, then `metadata.csv`, then `wavs/`; the first one absent decides the error |
| Training.MissingColumnsBeforeAudio | core/training_manager.py:89-93 | a missing `file_name` or `text` column gives the missing-columns error whatever the rows and audio files are |
| Training.SuccessIffAllAudioPresent | core/training_manager.py:72-115 | success exactly when both directories and the metadata exist, the CSV parsed, both required columns are present and every row's audio file exists |
| Training.SuccessReport | core/training_manager.py:106-115 | on success `total_files` is the number of rows, and `has_phonemes`/`has_speaker_info` hold exactly when the `phonemes`/`speaker_name` columns exist |
| Training.MissingAudioListsFirstFive | core/training_manager.py:97-103 | the missing-audio error lists 1 to 5 names: the first missing ones in metadata order, each with no file under `wavs/` |
| Training.ValidateDataset | core/training_manager.py:62-122 | the checks and the loop over the rows compute exactly the report of the lemmas above, and every failure is an error report rather than an exception |
| Training.TrainingModelConfig | core/training_manager.py:31-52 | a training configuration exists exactly for VITS, Tacotron2, FastSpeech2 and XTTS; each requires phonemes; all but Tacotron2 support several speakers |
| Training.PrepareOutcome | core/training_manager.py:134-161 | the preparation succeeds exactly for a valid dataset and a supported model, and warnings do not change that; a failure logs no warning; the phoneme and speaker warnings are logged exactly when the dataset lacks the column the model wants; `use_cuda` only goes from true to false, exactly when CUDA is unavailable, and the CPU warning goes with it |
| Training.TrainingConfig.constructor | core/training_manager.py:11-20 | the record holds the given fields, with language "pt-br" and `use_cuda` true by default |
| Training.PrepareTraining | core/training_manager.py:124-161 | the result, the warnings and the new `use_cuda` are those `PrepareOutcome` describes for the dataset the configuration names; no other field changes |
| FileSystem.Disk.RemoveFile | core/model_manager.py:57 | removing a file takes exactly that path away and keeps every path below existing directories |
| FileSystem.Disk.MakeDirs | core/model_manager.py:29 | `os.makedirs` fails exactly for an empty or existing path or a file among its ancestors, and then changes nothing; otherwise the path and its missing ancestors become directories |
| Engine.CataloguePath | core/tts_engine.py:61-62 | a path is found only for a language of the catalogue and a model of that language's table, and it is the path stored there |
| Engine.ModelInfo | core/tts_engine.py:109-111 | settings are found exactly for the four configured model names, and they are the stored ones |
| Engine.ListAvailableModels | core/tts_engine.py:113-117 | a missing or empty language gives the whole catalogue; a catalogue language gives exactly the table stored under it; an unknown language gives an empty table |
| Engine.ListedModelsLoad | core/tts_engine.py:58-67 | every model listed for a language is one `load_model` finds for that language, with the listed path |
| Engine.CatalogueEntryPath | core/tts_engine.py:58-67 | every entry of the catalogue is the one `load_model` finds under its language and name, and the path found is the entry's own |
| Engine.CatalogueModelsListed | core/tts_engine.py:58-67 | conversely, every model `load_model` finds under a language is listed for that language, with that path |
| Engine.CatalogueKeysDistinct | core/tts_engine.py:15-56 | no language, model name within a language, or configured model name occurs twice |
| Engine.CataloguePathsNonEmpty | core/tts_engine.py:15-32 | every catalogue path is non-empty, so `if model_path` only rejects unknown names |
| Engine.CatalogueModelsHaveInfo | core/tts_engine.py:15-56 | every model of the catalogue has settings |
| Engine.CatalogueLanguagesInInfo | core/tts_engine.py:15-56 | a model listed under a language other than "multilingual" has that language among its settings' languages |
| Engine.XttsPathMultilingual | core/tts_engine.py:135 | the XTTS v2 path contains "multilingual" |
| Engine.XttsPathCloning | core/tts_engine.py:129 | the lower-cased XTTS v2 path contains "xtts" |
| Engine.OtherPathTests | core/tts_engine.py:125-137 | a name without 'x', 'X' and 'g' fails both the "xtts" and the "multilingual" test |
| Engine.PlainPathLacks | core/tts_engine.py:15-32 | no catalogue path other than XTTS v2's contains 'x', 'X' or 'g' |
| Engine.CataloguePathTests | core/tts_engine.py:125-137 | among catalogue paths, exactly the XTTS v2 path passes the voice-cloning test and the multilingual test, and it belongs to XTTS v2 alone |
| Engine.TtsEngine.constructor | core/tts_engine.py:9-12 | a new engine holds no model, and the device is "cuda" exactly when CUDA is available |
| Engine.TtsEngine.LoadModel | core/tts_engine.py:58-70 | the load succeeds exactly when the language and model are in the catalogue and building the synthesizer does not raise; only then is the current model replaced, by one built from the catalogue path; the engine only ever holds catalogue models; after a load `list_speakers` gives the new model's speakers, or none without the attribute |
| Engine.TtsEngine.GenerateSpeech | core/tts_engine.py:72-107 | no model gives the "no model loaded" error; otherwise the synthesizer receives `text` and `file_path`, `speaker_wav` exactly when one is given and the model has speakers, and `language` exactly when one is given and the model name contains "multilingual"; the output path comes back unchanged |
| Engine.TtsEngine.ListSpeakers | core/tts_engine.py:119-123 | no speakers without a model or for a model without the `speakers` attribute; otherwise the model's own speakers |
| Engine.TtsEngine.SupportsVoiceCloning | core/tts_engine.py:125-129 | false without a model; for an engine holding only catalogue models, true exactly when the XTTS v2 model is loaded |
| Engine.TtsEngine.ModelLanguages | core/tts_engine.py:131-137 | no languages without a model; exactly pt-br, en and es for a multilingual model; at most three in any case |
| Engine.LoadedCloningMatchesInfo | core/tts_engine.py:125-129 | after a catalogue model is loaded, `supports_voice_cloning` agrees with that model's `support_voice_cloning` setting |
| Engine.LoadedLanguagesMatchInfo | core/tts_engine.py:131-137 | after XTTS v2 is loaded, `get_model_languages` equals the languages of its settings; any other catalogue model reports only its own language attribute |
| Models.Relative | core/model_manager.py:37 | the relative path, appended to the models directory and a separator, gives back the file's path |
| Models.RelativeJoins | core/model_manager.py:37 | joining the models directory with a relative path (one that does not start with '/') gives back the file's path |
| Models.ModelManager.constructor | core/model_manager.py:7-24 | the manager keeps its directory, and afterwards the directory exists, created with its missing ancestors when it was absent |
| Models.ModelManager.EnsureModelsDir | core/model_manager.py:26-29 | an existing directory is left alone; otherwise it is created with its missing ancestors, or `os.makedirs` raises and nothing changes |
| Models.ModelManager.GetInstalledModels | core/model_manager.py:31-38 | on a file system whose paths all hang below existing directories, every entry is the relative path of a regular file below the directory whose name ends in ".pth" or ".pt"; every such file is listed; none is listed twice |
| Models.ModelManager.GetPredefinedModels | core/model_manager.py:40-42 | every manager returns the same fixed table of seven models under three language labels, whose paths `PredefinedPathsInCatalogue` ties to the engine's catalogue |
| Models.ModelManager.RemoveModel | core/model_manager.py:53-59 | true exactly when a file existed at `models_dir/model_path`, and then that file alone is gone; false exactly when nothing existed, and nothing changes; a directory makes `os.remove` raise and changes nothing |
| Models.ModelManager.ValidateModel | core/model_manager.py:61-64 | a path validates only when it exists, and an existing path validates exactly when its size is positive (a directory included, with its own size) |
| Models.InstalledModelValidates | core/model_manager.py:61-64 | an installed model file validates under its relative path exactly when it is not empty |
| Models.RemovedModelInvalid | core/model_manager.py:53-64 | once a model file is removed, it no longer validates |
| Models.PredefinedPathsInCatalogue | core/model_manager.py:10-24 | every path in the table any manager's `get_predefined_models` returns is one the engine's catalogue can load |
| Common.ParseInt | gui/main_window.py:454-455 | whatever `int()` accepts splits into whitespace, an optional sign, digit groups and whitespace, and the result is the digits' value with that sign; the whitespace is `isspace()` whitespace other than the separators U+001C to U+001F |
| Common.ParseIntAccepts | gui/main_window.py:454-455 | conversely, `int()` accepts every such text and gives that value |
| Common.StripRemovesSeparator | gui/main_window.py:303 | `str.strip()` removes a leading U+001C |
| Common.IntKeepsSeparator | gui/main_window.py:454 | `int()` rejects a count with a leading U+001C, which it does not skip as whitespace |
| Common.StripEmptyIffBlank | gui/main_window.py:303 | `text.strip()` is empty exactly when every character is whitespace |
| Common.SplitHeadBeforeParen | gui/main_window.py:290 | `split(" (")[0]` of `name + " (" + rest` is `name` when `name` has no '(' |
| Gui.Label | gui/main_window.py:286 | a label starts with its model name, and splitting it on " (" gives the name back when the name has no '(' |
| Gui.LanguageLabels | gui/main_window.py:285-286 | one label per model of a table, in table order, each of the form "name (language)" |
| Gui.LabelCount | gui/main_window.py:282-287 | there are as many labels as models in all the tables together |
| Gui.LanguageLabelsOfEntries | gui/main_window.py:284-285 | the labels one language contributes are exactly the labels of that language's entries |
| Gui.LabelEntry | gui/main_window.py:282-287 | every label among the first languages names an entry of one of them |
| Gui.EntryLabelListed | gui/main_window.py:282-287 | the label of every entry of the first languages is among their labels |
| Gui.LabelsOfEntries | gui/main_window.py:282-287 | a text is a label exactly when it is "name (language)" for an entry of the catalogue |
| Gui.CatalogueNamesPlain | core/tts_engine.py:15-32 | no catalogue model name contains '(' |
| Gui.CatalogueLabelParses | gui/main_window.py:289-297 | the drop-down choice of any catalogue entry parses back to its model name, and it shows the cloning controls exactly for XTTS v2 |
| Gui.CloningSelected | gui/main_window.py:289-294 | a drop-down choice shows the cloning controls exactly when the text before " (" is "XTTS v2", the one configured model supporting voice cloning |
| Gui.TrainingParamsAcceptedAsWritten | gui/main_window.py:451-464 | the validation as written accepts only positive integer counts and a learning rate that is positive or NaN |
| Gui.TrainingParamsValid | gui/main_window.py:451-464 | the corrected validation accepts only positive counts and a positive learning rate, and only what the code as written accepts |
| Gui.NanLearningRateAccepted | gui/main_window.py:451-464 | the code as written accepts a NaN learning rate, which is not positive |
| Gui.TrainingParamsDifferOnlyOnNaN | gui/main_window.py:451-464 | the corrected validation accepts only positive counts and a positive learning rate, and it differs from the code as written only on a NaN learning rate |
| Gui.ConfigDocument | gui/main_window.py:490-501 | `save_config` writes an object with `models_dir`, `output_dir`, `default_language` and a `training` object with `epochs`, `batch_size`, `learning_rate` and `base_model`, every value a string |
| Gui.CompleteIffClean | gui/main_window.py:511-540 | `load_config` completes exactly when the document and its "training" entry are objects and none of the five values bound for entries is null, whatever the settings were |
| Gui.NullEntryFails | gui/main_window.py:516-522 | in any document, a null models or output directory fails the load with that entry empty, the entries before it loaded and every later field unchanged; a null default language in an otherwise clean document shows as "None" and the load completes |
| Gui.NullTrainingEntryFails | gui/main_window.py:524-532 | in any "training" object, a null epochs, batch size or learning rate fails the load with that entry empty, the entries before it loaded and every later field unchanged |
| Gui.SaveLoadRoundTrip | gui/main_window.py:490-540 | loading the document `save_config` writes restores all seven settings and reports success, whatever the settings were before |
| Gui.EmptyDocumentLoadsDefaults | gui/main_window.py:511-534 | the fallbacks of `load_config` are the defaults "", "", "pt-br", "1000", "32", "0.0002", "VITS" |
| Gui.MissingFileKeepsSettings | gui/main_window.py:536-537 | without a configuration file every setting stays as it was |
| Gui.WindowSaveLoad | gui/main_window.py:490-540 | the window's current settings survive saving and loading |
| Gui.MainWindow.constructor | gui/main_window.py:13-39 | the window starts with an engine without a model, the models directory in place, nothing to play, no training, the cloning controls shown and the settings at the same defaults, and then loads the configuration file over them |
| Gui.MainWindow.GetAvailableModels | gui/main_window.py:282-287 | the drop-down holds exactly the labels of the engine's catalogue, language after language and in table order |
| Gui.CatalogueLabels | gui/main_window.py:282-287 | the nested loops over any catalogue produce exactly its labels, language after language and in table order |
| Gui.MainWindow.OnModelChange | gui/main_window.py:289-299 | the cloning controls become visible exactly when the chosen model's settings support voice cloning; an unknown model hides them; nothing else changes |
| Gui.MainWindow.GenerateAudio | gui/main_window.py:301-343 | a blank text starts nothing; otherwise the request carries the text, "output.wav", the selected language, and the voice file exactly when its path is non-empty and exists; only a written file becomes the current audio file; with no model loaded every request fails |
| Gui.MainWindow.PlayAudio | gui/main_window.py:345-355 | playback starts only when a current audio file exists and pygame does not raise; nothing else changes |
| Gui.MainWindow.StopAudio | gui/main_window.py:357-362 | afterwards nothing is playing; nothing else changes |
| Gui.MainWindow.StartTraining | gui/main_window.py:415-426 | the training flag is set exactly when the parameters are valid; nothing else changes |
| Gui.MainWindow.TrainingThread | gui/main_window.py:428-445 | the flagged run does ten epochs, or stops at the epoch before which `stop_training` is called; a run whose flag was already clear does none; the flag is clear at the end |
| Gui.MainWindow.StopTraining | gui/main_window.py:447-449 | the training flag is cleared and nothing else changes |
| Gui.MainWindow.SaveConfig | gui/main_window.py:490-509 | the file receives the document of the current settings, or stays as it was when it cannot be written |
| Gui.MainWindow.LoadConfig | gui/main_window.py:511-540 | the settings become those `LoadedSettings` gives for the file, field by field and including the partial updates before an error (a non-object document or "training" entry, a null bound for an entry); the outcome is loaded, not found or failed |
| Gui.MainWindow.LoadDocument | gui/main_window.py:516-534 | the settings and completion are `DocumentLoaded`'s for a file that parsed, a null models or output directory included |
| Gui.MainWindow.LoadTraining | gui/main_window.py:524-534 | the four training settings take the values of the "training" object, with their defaults, and a null epochs, batch size or learning rate stops the load with that entry empty |
| Gui.MainWindow.ResetConfig | gui/main_window.py:542-553 | after confirmation every setting takes its default, the same defaults as the constructor and `load_config`; without confirmation nothing changes |

## Left out

- Widgets and their layout, dialogs, message boxes, the status label, the progress bar and log lines are not modelled.
- Threads are not modelled: `generate_audio` runs its worker inline, and `_training_thread` runs as a plain method. A `stop_training` during training is modelled only at an epoch boundary, given by the epoch number `stopBefore`.
- Foreign calls are parameters:
  - the construction of `TTS(...)` and `.to(device)`;
  - `tts_to_file`;
  - pygame loading and playback;
  - `pd.read_csv`;
  - `json.load`/`json.dump`;
  - `torch.cuda.is_available`.
- `Engine.TtsEngine.LoadModel` takes the construction outcome as its first parameter. It also assumes the built synthesizer's `model_name` is the catalogue path it was built from.
- `Engine.TtsEngine.ListSpeakers`: a `speakers` attribute holding None is not distinguished from an empty list.
- `Common.ParseInt`: only ASCII digits are accepted. Python's `int()` also accepts other Unicode decimal digits.
- `Common.ParseInt` does not model the limit of 4300 digits above which Python 3.9.14, 3.10.7, 3.11 and later raise ValueError; the model accepts any number of digits, as earlier Python versions do.
- `Gui.MainWindow.StartTraining` uses the corrected parameter validation from the Findings below, not the code as written. `Gui.NanLearningRateAccepted` models the code as written.
- Floating point is not modelled: `float()` parsing and the learning rate of `TrainingConfig` are real numbers; `PyFloat` keeps only the NaN and infinity cases.
- `Gui.MainWindow.LoadConfig`: a JSON object stored under a setting's key shows up as the empty string in the model, not as the text Tk makes of a dict. A JSON null is modelled (`JNull`): Tk raises when it is inserted into an entry, and a choice variable shows "None". Numbers, booleans and lists are a `JOther` carrying the text the widget shows, which the model takes as given.
- `Models.ModelManager.constructor` and `Gui.MainWindow.constructor` require that the models directory exists or can be created. The case where `os.makedirs` raises during construction is not modelled.
- Paths are compared as spelled: every path is taken in one normal spelling, with no trailing `/`, no `//` and no `.` or `..` component. The operating system resolves other spellings to the same file, the model does not. This concerns `Training.DatasetValidation` and `Training.ValidateDataset`, `Models.ModelManager.RemoveModel`, `Models.ModelManager.ValidateModel`, `FileSystem.Disk.MakeDirs` and the voice path of `Gui.MainWindow.GenerateAudio`.
- `Models.ModelManager.GetInstalledModels` takes a relative path as the text after `models_dir/`. The order of `os.walk` is left open. Not modelled: `os.path.relpath`'s normalisation of `.` and `..` components, and symbolic links.
- `validate_dataset` drops the `total_duration` and `sample_rate` fields (always "N/A") and replaces error message texts with the `DatasetProblem` datatype.
- Stubs with no behaviour are not modelled:
  - the training manager's `start_training`, `stop_training`, `get_training_progress` and `export_model`;
  - `ModelManager.download_model`;
  - the window's `download_model`, `remove_model`, `refresh_models` and `validate_dataset` (which only shows a message).
- Also not modelled: `TrainingManager.__init__` and `ensure_directories` (directory creation with `exist_ok`), `save_audio` (a file copy), and the `browse_*` dialogs.
- Logging setup, the setup and download scripts, the test scripts and the two entry points are not part of this model.

## Findings

| source | as written | input that shows it | evidently intended | confidence | as-written member | corrected member |
|---|---|---|---|---|---|---|
| gui/main_window.py:458 | `lr <= 0` is false when `lr` is NaN, so the check lets a NaN learning rate through | epochs "1", batch size "1", learning rate "nan" | reject every learning rate that is not positive, as the error message "values must be positive" says | not executed; high that NaN passes, medium that it was unintended | Gui.NanLearningRateAccepted | Gui.TrainingParamsDifferOnlyOnNaN |
