/** The training manager: dataset validation and the pre-flight check run before training
    (core/training_manager.py). */
module Training {
  import opened Common
  import opened FileSystem

  /** One row of metadata.csv as pandas parsed it: column name to cell text. A column absent
      from the map stands for a cell pandas does not hand back as text (NaN for an empty or
      absent field, or a value it read as a number). */
  type Row = map<string, string>

  /** The parsed metadata file: its header and its rows, in file order. */
  datatype Metadata = Metadata(columns: seq<string>, rows: seq<Row>)

  /** What `pd.read_csv(metadata_path, sep="|")` produced: a table, or an exception. */
  datatype CsvRead = Parsed(table: Metadata) | ReadFailed

  /** Why a dataset was rejected; each one is a ValueError (or another exception) caught by
      `validate_dataset` and reported with status "error". */
  datatype DatasetProblem =
    | DatasetNotFound(path: string)
    | MetadataNotFound(path: string)
    | WavsNotFound(path: string)
    | MetadataUnreadable
    | MissingColumns(columns: seq<string>)
    | FileNameNotText(row: nat)
    | MissingAudioFiles(listed: seq<string>)

  /** The dictionary `validate_dataset` returns. */
  datatype DatasetReport =
    | Success(totalFiles: nat, hasPhonemes: bool, hasSpeakerInfo: bool)
    | Error(problem: DatasetProblem)

  const RequiredColumns: seq<string> := ["file_name", "text"]

  /** `[col for col in required_columns if col not in metadata.columns]` */
  function MissingRequired(columns: seq<string>): (m: seq<string>)
    ensures forall c :: c in m <==> c in RequiredColumns && c !in columns
    ensures m == [] <==> "file_name" in columns && "text" in columns
  {
    (if "file_name" in columns then [] else ["file_name"]) + (if "text" in columns then [] else ["text"])
  }

  /** The index of the first row whose `file_name` cell is not text, if any. */
  function FirstNonText(rows: seq<Row>): (r: Option<nat>)
    ensures r.None? <==> forall i :: 0 <= i < |rows| ==> "file_name" in rows[i]
    ensures r.Some? ==> r.value < |rows| && "file_name" !in rows[r.value]
    ensures r.Some? ==> forall i :: 0 <= i < r.value ==> "file_name" in rows[i]
  {
    if rows == [] then None
    else if "file_name" !in rows[0] then Some(0)
    else match FirstNonText(rows[1..])
      case None => None
      case Some(k) => Some(k + 1)
  }

  /** The first `n` rows all have a text `file_name` cell. */
  predicate NamedUpTo(rows: seq<Row>, n: nat) {
    n <= |rows| && forall k :: 0 <= k < n ==> "file_name" in rows[k]
  }

  /** The audio file names of the first `n` rows whose file is missing under `wavs`, in row
      order: the list `missing_files` after `n` turns of the loop over the rows. */
  function MissingAmong(fs: Fs, wavs: string, rows: seq<Row>, n: nat): (m: seq<string>)
    requires NamedUpTo(rows, n)
    ensures |m| <= n
  {
    if n == 0 then []
    else
      var name := rows[n - 1]["file_name"];
      MissingAmong(fs, wavs, rows, n - 1) + (if Exists(fs, Join(wavs, name)) then [] else [name])
  }

  /** Every listed name is the name of one of the first `n` rows, and its file is missing. */
  lemma {:induction false} MissingAmongSound(fs: Fs, wavs: string, rows: seq<Row>, n: nat)
    requires NamedUpTo(rows, n)
    ensures forall x :: x in MissingAmong(fs, wavs, rows, n) ==>
      !Exists(fs, Join(wavs, x)) && exists k :: 0 <= k < n && "file_name" in rows[k] && rows[k]["file_name"] == x
  {
    if n > 0 {
      MissingAmongSound(fs, wavs, rows, n - 1);
    }
  }

  /** Every one of the first `n` rows whose file is missing has its name listed. */
  lemma {:induction false} MissingAmongComplete(fs: Fs, wavs: string, rows: seq<Row>, n: nat)
    requires NamedUpTo(rows, n)
    ensures forall k :: 0 <= k < n && !Exists(fs, Join(wavs, rows[k]["file_name"])) ==>
      rows[k]["file_name"] in MissingAmong(fs, wavs, rows, n)
  {
    if n > 0 {
      MissingAmongComplete(fs, wavs, rows, n - 1);
    }
  }

  /** Looking at more rows only appends to the list: it keeps metadata order. */
  lemma {:induction false} MissingAmongGrows(fs: Fs, wavs: string, rows: seq<Row>, n: nat, m: nat)
    requires n <= m && NamedUpTo(rows, m)
    ensures IsPrefix(MissingAmong(fs, wavs, rows, n), MissingAmong(fs, wavs, rows, m))
  {
    if n < m {
      MissingAmongGrows(fs, wavs, rows, n, m - 1);
    }
  }

  /** At most the first five entries of the missing list: `missing_files[:5]`. */
  function FirstFive(m: seq<string>): (r: seq<string>)
    ensures |r| <= 5 && IsPrefix(r, m)
    ensures |r| == if |m| < 5 then |m| else 5
  {
    if |m| < 5 then m else m[..5]
  }

  /** Every file named in the metadata is present under `wavs/`. */
  predicate AllAudioPresent(fs: Fs, wavs: string, rows: seq<Row>) {
    forall i :: 0 <= i < |rows| ==> "file_name" in rows[i] && Exists(fs, Join(wavs, rows[i]["file_name"]))
  }

  lemma NoMissingFiles(fs: Fs, wavs: string, rows: seq<Row>)
    requires NamedUpTo(rows, |rows|)
    ensures MissingAmong(fs, wavs, rows, |rows|) == [] <==> AllAudioPresent(fs, wavs, rows)
  {
    MissingAmongSound(fs, wavs, rows, |rows|);
    MissingAmongComplete(fs, wavs, rows, |rows|);
    var m := MissingAmong(fs, wavs, rows, |rows|);
    if m != [] {
      assert m[0] in m;
    }
  }

  /** What `validate_dataset(dataset_path)` returns, given the file system and what pandas read
      from the metadata file. */
  function DatasetValidation(fs: Fs, datasetPath: string, metadata: CsvRead): DatasetReport
  {
    var metadataPath := Join(datasetPath, "metadata.csv");
    var wavsDir := Join(datasetPath, "wavs");
    if !Exists(fs, datasetPath) then Error(DatasetNotFound(datasetPath))
    else if !Exists(fs, metadataPath) then Error(MetadataNotFound(datasetPath))
    else if !Exists(fs, wavsDir) then Error(WavsNotFound(datasetPath))
    else if metadata.ReadFailed? then Error(MetadataUnreadable)
    else
      var table := metadata.table;
      var missingColumns := MissingRequired(table.columns);
      if missingColumns != [] then Error(MissingColumns(missingColumns))
      else match FirstNonText(table.rows)
        case Some(i) => Error(FileNameNotText(i))
        case None =>
          var missing := MissingAmong(fs, wavsDir, table.rows, |table.rows|);
          if missing != [] then Error(MissingAudioFiles(FirstFive(missing)))
          else Success(|table.rows|, "phonemes" in table.columns, "speaker_name" in table.columns)
  }

  /** The first three checks fire in a fixed order, and the first item missing decides the error. */
  lemma ChecksInOrder(fs: Fs, datasetPath: string, metadata: CsvRead)
    ensures var r := DatasetValidation(fs, datasetPath, metadata);
      && (r == Error(DatasetNotFound(datasetPath)) <==> !Exists(fs, datasetPath))
      && (r == Error(MetadataNotFound(datasetPath)) <==>
            Exists(fs, datasetPath) && !Exists(fs, Join(datasetPath, "metadata.csv")))
      && (r == Error(WavsNotFound(datasetPath)) <==>
            Exists(fs, datasetPath) && Exists(fs, Join(datasetPath, "metadata.csv")) && !Exists(fs, Join(datasetPath, "wavs")))
  {
  }

  /** A missing `file_name` or `text` column is reported whatever the rows and the audio files are. */
  lemma MissingColumnsBeforeAudio(fs: Fs, datasetPath: string, columns: seq<string>, rows: seq<Row>)
    requires Exists(fs, datasetPath) && Exists(fs, Join(datasetPath, "metadata.csv")) && Exists(fs, Join(datasetPath, "wavs"))
    requires "file_name" !in columns || "text" !in columns
    ensures DatasetValidation(fs, datasetPath, Parsed(Metadata(columns, rows))) == Error(MissingColumns(MissingRequired(columns)))
    ensures MissingRequired(columns) != []
  {
  }

  /** Success exactly when the directories and the metadata are in place, both required columns
      are present and every row names an audio file that exists under `wavs/`. */
  lemma SuccessIffAllAudioPresent(fs: Fs, datasetPath: string, metadata: CsvRead)
    ensures DatasetValidation(fs, datasetPath, metadata).Success? <==>
      && Exists(fs, datasetPath) && Exists(fs, Join(datasetPath, "metadata.csv")) && Exists(fs, Join(datasetPath, "wavs"))
      && metadata.Parsed? && "file_name" in metadata.table.columns && "text" in metadata.table.columns
      && AllAudioPresent(fs, Join(datasetPath, "wavs"), metadata.table.rows)
  {
    if metadata.Parsed? && NamedUpTo(metadata.table.rows, |metadata.table.rows|) {
      NoMissingFiles(fs, Join(datasetPath, "wavs"), metadata.table.rows);
    }
  }

  /** On success the report counts the metadata rows and flags the optional columns. */
  lemma SuccessReport(fs: Fs, datasetPath: string, metadata: CsvRead)
    requires DatasetValidation(fs, datasetPath, metadata).Success?
    ensures metadata.Parsed?
    ensures var r := DatasetValidation(fs, datasetPath, metadata);
      && r.totalFiles == |metadata.table.rows|
      && (r.hasPhonemes <==> "phonemes" in metadata.table.columns)
      && (r.hasSpeakerInfo <==> "speaker_name" in metadata.table.columns)
  {
  }

  /** The missing-audio error lists the first missing names, at most five, in metadata order. */
  lemma MissingAudioListsFirstFive(fs: Fs, datasetPath: string, metadata: CsvRead)
    requires DatasetValidation(fs, datasetPath, metadata).Error?
    requires DatasetValidation(fs, datasetPath, metadata).problem.MissingAudioFiles?
    ensures metadata.Parsed? && NamedUpTo(metadata.table.rows, |metadata.table.rows|)
    ensures var listed := DatasetValidation(fs, datasetPath, metadata).problem.listed;
      var rows := metadata.table.rows;
      && 0 < |listed| <= 5
      && listed == FirstFive(MissingAmong(fs, Join(datasetPath, "wavs"), rows, |rows|))
      && forall x :: x in listed ==> !Exists(fs, Join(Join(datasetPath, "wavs"), x))
  {
    MissingAmongSound(fs, Join(datasetPath, "wavs"), metadata.table.rows, |metadata.table.rows|);
  }

  /** `validate_dataset`: the checks in order, then one pass over the rows collecting the names
      whose audio file is missing. Never raises: every failure is an Error report. */
  method ValidateDataset(fs: Fs, datasetPath: string, metadata: CsvRead) returns (report: DatasetReport)
    ensures report == DatasetValidation(fs, datasetPath, metadata)
  {
    if !Exists(fs, datasetPath) {
      return Error(DatasetNotFound(datasetPath));
    }
    var metadataPath := Join(datasetPath, "metadata.csv");
    if !Exists(fs, metadataPath) {
      return Error(MetadataNotFound(datasetPath));
    }
    var wavsDir := Join(datasetPath, "wavs");
    if !Exists(fs, wavsDir) {
      return Error(WavsNotFound(datasetPath));
    }
    if metadata.ReadFailed? {
      return Error(MetadataUnreadable);
    }
    var table := metadata.table;
    var missingColumns := MissingRequired(table.columns);
    if missingColumns != [] {
      return Error(MissingColumns(missingColumns));
    }
    var missingFiles: seq<string> := [];
    var i := 0;
    while i < |table.rows|
      invariant 0 <= i <= |table.rows|
      invariant NamedUpTo(table.rows, i)
      invariant missingFiles == MissingAmong(fs, wavsDir, table.rows, i)
    {
      var row := table.rows[i];
      if "file_name" !in row {
        return Error(FileNameNotText(i));
      }
      var audioFile := row["file_name"];
      if !Exists(fs, Join(wavsDir, audioFile)) {
        missingFiles := missingFiles + [audioFile];
      }
      i := i + 1;
    }
    if missingFiles != [] {
      return Error(MissingAudioFiles(FirstFive(missingFiles)));
    }
    return Success(|table.rows|, "phonemes" in table.columns, "speaker_name" in table.columns);
  }

  /** The per-model settings a training run starts from. */
  datatype ModelTrainingConfig = ModelTrainingConfig(configPath: string, requiresPhonemes: bool, supportsMultiSpeaker: bool)

  const SupportedModels: set<string> := {"VITS", "Tacotron2", "FastSpeech2", "XTTS"}

  /** `self.model_configs.get(model_name)`: the settings of the four supported models, in the
      order of the `self.model_configs` table, and none for any other name. */
  function TrainingModelConfig(modelName: string): (r: Option<ModelTrainingConfig>)
    ensures r.Some? <==> modelName in SupportedModels
    ensures r.Some? ==> r.value.requiresPhonemes
    ensures r.Some? ==> (r.value.supportsMultiSpeaker <==> modelName != "Tacotron2")
  {
    if modelName == "VITS" then Some(ModelTrainingConfig("config/vits_config.json", true, true))
    else if modelName == "Tacotron2" then Some(ModelTrainingConfig("config/tacotron2_config.json", true, false))
    else if modelName == "FastSpeech2" then Some(ModelTrainingConfig("config/fastspeech2_config.json", true, true))
    else if modelName == "XTTS" then Some(ModelTrainingConfig("config/xtts_config.json", true, true))
    else None
  }

  /** The warnings `prepare_training` logs. */
  datatype TrainingWarning = NoPhonemes | SingleSpeaker | CpuFallback

  /** The outcome of `prepare_training`: its result, what it logged as warnings, and the value
      `config.use_cuda` holds afterwards. */
  datatype Preparation = Preparation(ok: bool, warnings: seq<TrainingWarning>, useCuda: bool)

  /** What `prepare_training` decides from the dataset report, the model name, the configured
      `use_cuda` and whether CUDA is available. */
  function Prepare(report: DatasetReport, modelName: string, useCuda: bool, cudaAvailable: bool): Preparation
  {
    if report.Error? then Preparation(false, [], useCuda)
    else match TrainingModelConfig(modelName)
      case None => Preparation(false, [], useCuda)
      case Some(config) =>
        var w1 := if config.requiresPhonemes && !report.hasPhonemes then [NoPhonemes] else [];
        var w2 := if config.supportsMultiSpeaker && !report.hasSpeakerInfo then [SingleSpeaker] else [];
        var downgrade := useCuda && !cudaAvailable;
        var w3 := if downgrade then [CpuFallback] else [];
        Preparation(true, w1 + w2 + w3, if downgrade then false else useCuda)
  }

  /** The result of the pre-flight check and its effect on `use_cuda`. */
  lemma PrepareOutcome(report: DatasetReport, modelName: string, useCuda: bool, cudaAvailable: bool)
    // an invalid dataset or an unsupported model fails; nothing else does, warnings included
    ensures Prepare(report, modelName, useCuda, cudaAvailable).ok <==> report.Success? && modelName in SupportedModels
    // use_cuda only ever goes from true to false, and exactly when CUDA is unavailable
    ensures Prepare(report, modelName, useCuda, cudaAvailable).useCuda ==> useCuda
    ensures Prepare(report, modelName, useCuda, cudaAvailable).useCuda != useCuda <==> Prepare(report, modelName, useCuda, cudaAvailable).ok && useCuda && !cudaAvailable
    // a failed preparation stops before any warning
    ensures !Prepare(report, modelName, useCuda, cudaAvailable).ok ==> Prepare(report, modelName, useCuda, cudaAvailable).warnings == []
    ensures Prepare(report, modelName, useCuda, cudaAvailable).ok ==> (NoPhonemes in Prepare(report, modelName, useCuda, cudaAvailable).warnings <==> !report.hasPhonemes)
    ensures Prepare(report, modelName, useCuda, cudaAvailable).ok ==> (SingleSpeaker in Prepare(report, modelName, useCuda, cudaAvailable).warnings <==> !report.hasSpeakerInfo && modelName != "Tacotron2")
    ensures CpuFallback in Prepare(report, modelName, useCuda, cudaAvailable).warnings <==> Prepare(report, modelName, useCuda, cudaAvailable).useCuda != useCuda
  {
  }

  /** The `TrainingConfig` dataclass; `prepare_training` changes its `use_cuda` in place. */
  class TrainingConfig {
    var modelName: string
    var datasetPath: string
    var outputPath: string
    var epochs: int
    var batchSize: int
    var learningRate: real
    var language: string
    var useCuda: bool

    constructor (modelName: string, datasetPath: string, outputPath: string, epochs: int,
                 batchSize: int, learningRate: real, language: string := "pt-br", useCuda: bool := true)
      ensures this.modelName == modelName && this.datasetPath == datasetPath && this.outputPath == outputPath
      ensures this.epochs == epochs && this.batchSize == batchSize && this.learningRate == learningRate
      ensures this.language == language && this.useCuda == useCuda
    {
      this.modelName := modelName;
      this.datasetPath := datasetPath;
      this.outputPath := outputPath;
      this.epochs := epochs;
      this.batchSize := batchSize;
      this.learningRate := learningRate;
      this.language := language;
      this.useCuda := useCuda;
    }
  }

  /** `prepare_training(config)`: validates the dataset named by the configuration, looks the
      model up, logs the warnings and falls back to the CPU when CUDA is not available. */
  method PrepareTraining(config: TrainingConfig, fs: Fs, metadata: CsvRead, cudaAvailable: bool)
    returns (ok: bool, warnings: seq<TrainingWarning>)
    modifies config
    ensures var p := Prepare(DatasetValidation(fs, old(config.datasetPath), metadata), old(config.modelName), old(config.useCuda), cudaAvailable);
      ok == p.ok && warnings == p.warnings && config.useCuda == p.useCuda
    ensures config.modelName == old(config.modelName) && config.datasetPath == old(config.datasetPath)
    ensures config.outputPath == old(config.outputPath) && config.epochs == old(config.epochs)
    ensures config.batchSize == old(config.batchSize) && config.learningRate == old(config.learningRate)
    ensures config.language == old(config.language)
  {
    var info := ValidateDataset(fs, config.datasetPath, metadata);
    ghost var expected := Prepare(info, config.modelName, config.useCuda, cudaAvailable);
    if info.Error? {
      assert expected == Preparation(false, [], config.useCuda);
      return false, [];
    }
    var modelConfig := TrainingModelConfig(config.modelName);
    if modelConfig.None? {
      assert expected == Preparation(false, [], config.useCuda);
      return false, [];
    }
    ghost var w1 := if modelConfig.value.requiresPhonemes && !info.hasPhonemes then [NoPhonemes] else [];
    ghost var w2 := if modelConfig.value.supportsMultiSpeaker && !info.hasSpeakerInfo then [SingleSpeaker] else [];
    ghost var w3 := if config.useCuda && !cudaAvailable then [CpuFallback] else [];
    assert expected == Preparation(true, w1 + w2 + w3, config.useCuda && cudaAvailable);
    warnings := [];
    if modelConfig.value.requiresPhonemes && !info.hasPhonemes {
      warnings := warnings + [NoPhonemes];
    }
    assert warnings == w1;
    if modelConfig.value.supportsMultiSpeaker && !info.hasSpeakerInfo {
      warnings := warnings + [SingleSpeaker];
    }
    assert warnings == w1 + w2;
    if config.useCuda && !cudaAvailable {
      warnings := warnings + [CpuFallback];
      config.useCuda := false;
    }
    assert warnings == w1 + w2 + w3;
    return true, warnings;
  }
}
