/** The inventory of model files kept under a models directory: creating that directory, listing
    the weight files below it, removing and checking one of them, and the fixed table of
    predefined models. */
module Models {
  import opened Common
  import opened FileSystem
  import Engine

  /** `predefined_models`: language label, then model name, then model path. */
  const PredefinedModels: Table<Table<string>> := [
    ("Português BR", [("VITS", "tts_models/pt/cv/vits"),
                      ("XTTS", Engine.XttsPath)]),
    ("Inglês", [("Tacotron2", "tts_models/en/ljspeech/tacotron2-DDC"),
                ("VITS", "tts_models/en/ljspeech/vits"),
                ("Neural HMM", "tts_models/en/ljspeech/neural_hmm")]),
    ("Espanhol", [("Tacotron2", "tts_models/es/mai/tacotron2-DDC"),
                  ("VITS", "tts_models/es/css10/vits")])
  ]

  /** A weight file by its name: it ends in ".pth" or ".pt". */
  predicate IsWeightFile(name: string) {
    EndsWith(name, ".pth") || EndsWith(name, ".pt")
  }

  /** The prefix every path below `modelsDir` starts with. */
  function DirPrefix(modelsDir: string): string {
    Join(modelsDir, "")
  }

  /** `p` is a regular weight file somewhere below `modelsDir`; `os.walk("")` visits nothing. */
  predicate InstalledFile(fs: Fs, modelsDir: string, p: string) {
    && modelsDir != ""
    && p in fs && fs[p].File?
    && IsPrefix(DirPrefix(modelsDir), p) && |p| > |DirPrefix(modelsDir)|
    && IsWeightFile(p)
  }

  /** The path of `p` relative to `modelsDir`, for a `p` below it. */
  function Relative(modelsDir: string, p: string): (r: string)
    requires IsPrefix(DirPrefix(modelsDir), p)
    ensures DirPrefix(modelsDir) + r == p
  {
    p[|DirPrefix(modelsDir)|..]
  }

  /** A relative path names a file below the directory exactly when it does not start with a separator. */
  lemma RelativeJoins(modelsDir: string, p: string)
    requires IsPrefix(DirPrefix(modelsDir), p)
    requires !(|Relative(modelsDir, p)| > 0 && Relative(modelsDir, p)[0] == '/')
    ensures Join(modelsDir, Relative(modelsDir, p)) == p
  {
    JoinRelative(modelsDir, Relative(modelsDir, p));
  }

  class ModelManager {
    const modelsDir: string
    const predefinedModels: Table<Table<string>> := PredefinedModels

    /** `ModelManager(models_dir)`: remembers the directory, makes sure it exists, and keeps the
        predefined table. The directory must be creatable, as the constructor raises otherwise. */
    constructor (disk: Disk, dirSize: nat, modelsDir: string := "./models")
      requires disk.Valid()
      requires modelsDir in disk.entries || (modelsDir != [] && forall a :: a in Ancestors(modelsDir) && a in disk.entries ==> disk.entries[a].Dir?)
      modifies disk
      ensures disk.Valid()
      ensures this.modelsDir == modelsDir
      ensures Exists(disk.entries, modelsDir)
      ensures disk.entries == if modelsDir in old(disk.entries) then old(disk.entries)
                              else old(disk.entries) + NewDirs(old(disk.entries), modelsDir, dirSize)
    {
      this.modelsDir := modelsDir;
      new;
      var ok := EnsureModelsDir(disk, dirSize);
    }

    /** `ensure_models_dir`: creates the directory with its missing ancestors when it does not exist.
        `ok` is false when `os.makedirs` raises (an empty name, or an ancestor that is a file), and
        then nothing changes. */
    method EnsureModelsDir(disk: Disk, dirSize: nat) returns (ok: bool)
      requires disk.Valid()
      modifies disk
      ensures disk.Valid()
      ensures ok <==> modelsDir in old(disk.entries) || (modelsDir != [] && forall a :: a in Ancestors(modelsDir) && a in old(disk.entries) ==> old(disk.entries)[a].Dir?)
      ensures ok ==> Exists(disk.entries, modelsDir)
      ensures disk.entries == if ok && modelsDir !in old(disk.entries) then old(disk.entries) + NewDirs(old(disk.entries), modelsDir, dirSize)
                              else old(disk.entries)
    {
      if !Exists(disk.entries, modelsDir) {
        ok := disk.MakeDirs(modelsDir, dirSize);
      } else {
        ok := true;
      }
    }

    /** `get_installed_models`: the path, relative to the models directory, of every regular file
        below it whose name ends in ".pth" or ".pt", each once; the walk order is left open. */
    method GetInstalledModels(fs: Fs) returns (installed: seq<string>)
      requires IsTree(fs)
      ensures forall i :: 0 <= i < |installed| ==> InstalledFile(fs, modelsDir, DirPrefix(modelsDir) + installed[i])
      ensures forall p :: InstalledFile(fs, modelsDir, p) ==> Relative(modelsDir, p) in installed
      ensures forall i, j :: 0 <= i < j < |installed| ==> installed[i] != installed[j]
    {
      installed := [];
      if modelsDir == "" {
        return;
      }
      var prefix := DirPrefix(modelsDir);
      var pending := fs.Keys;
      while pending != {}
        invariant pending <= fs.Keys
        invariant forall i :: 0 <= i < |installed| ==> InstalledFile(fs, modelsDir, prefix + installed[i])
        invariant forall i :: 0 <= i < |installed| ==> prefix + installed[i] !in pending
        invariant forall p :: p in fs && p !in pending && InstalledFile(fs, modelsDir, p) ==> Relative(modelsDir, p) in installed
        invariant forall i, j :: 0 <= i < j < |installed| ==> installed[i] != installed[j]
        decreases pending
      {
        var p :| p in pending;
        pending := pending - {p};
        if fs[p].File? && IsPrefix(prefix, p) && |p| > |prefix| && IsWeightFile(p) {
          var rel := p[|prefix|..];
          assert prefix + rel == p;
          installed := installed + [rel];
        }
      }
    }

    /** `get_predefined_models`: the fixed table, whichever manager is asked. */
    function GetPredefinedModels(): (r: Table<Table<string>>)
      ensures r == PredefinedModels
    {
      predefinedModels
    }

    /** `remove_model`: removes the file `models_dir/model_path` when it exists and reports whether it
        did; a directory there makes `os.remove` raise, and nothing changes. */
    method RemoveModel(disk: Disk, modelPath: string) returns (r: Removal)
      requires disk.Valid()
      modifies disk
      ensures disk.Valid()
      ensures r == Removed <==> Join(modelsDir, modelPath) in old(disk.entries) && old(disk.entries)[Join(modelsDir, modelPath)].File?
      ensures r == NotFound <==> Join(modelsDir, modelPath) !in old(disk.entries)
      ensures r == Removed ==> disk.entries == old(disk.entries) - {Join(modelsDir, modelPath)}
      ensures r != Removed ==> disk.entries == old(disk.entries)
      ensures !Exists(disk.entries, Join(modelsDir, modelPath)) <==> r != IsADirectory
    {
      var fullPath := Join(modelsDir, modelPath);
      if Exists(disk.entries, fullPath) {
        if disk.entries[fullPath].Dir? {
          return IsADirectory;
        }
        disk.RemoveFile(fullPath);
        return Removed;
      }
      return NotFound;
    }

    /** `validate_model`: the file `models_dir/model_path` exists and is not empty. A directory
        counts with the size `os.path.getsize` reports for it. */
    function ValidateModel(fs: Fs, modelPath: string): (r: bool)
      ensures r ==> Exists(fs, Join(modelsDir, modelPath))
      ensures Exists(fs, Join(modelsDir, modelPath)) ==> (r <==> fs[Join(modelsDir, modelPath)].size > 0)
    {
      Exists(fs, Join(modelsDir, modelPath)) && fs[Join(modelsDir, modelPath)].size > 0
    }
  }

  /** How `remove_model` ends: True, False, or the error `os.remove` raises on a directory. */
  datatype Removal = Removed | NotFound | IsADirectory

  /** An installed model with content validates under its relative path. */
  lemma InstalledModelValidates(manager: ModelManager, fs: Fs, p: string)
    requires InstalledFile(fs, manager.modelsDir, p)
    requires !(|Relative(manager.modelsDir, p)| > 0 && Relative(manager.modelsDir, p)[0] == '/')
    ensures manager.ValidateModel(fs, Relative(manager.modelsDir, p)) <==> fs[p].size > 0
  {
    RelativeJoins(manager.modelsDir, p);
  }

  /** Once `remove_model` has removed a file, the same path no longer validates. */
  lemma RemovedModelInvalid(manager: ModelManager, fs: Fs, modelPath: string)
    ensures !manager.ValidateModel(fs - {Join(manager.modelsDir, modelPath)}, modelPath)
  {
  }

  /** Every path of the predefined table is one the engine's catalogue can load. */
  lemma PredefinedPathsInCatalogue(manager: ModelManager, languageLabel: string, models: Table<string>, name: string, path: string)
    requires (languageLabel, models) in manager.GetPredefinedModels() && (name, path) in models
    ensures exists language, catalogueName :: Engine.CataloguePath(language, catalogueName) == Some(path)
  {
    // the predefined table lists the paths of the catalogue's first three languages, in place
    var a :| 0 <= a < |PredefinedModels| && PredefinedModels[a] == (languageLabel, models);
    var b :| 0 <= b < |models| && models[b] == (name, path);
    assert b < |Engine.AvailableModels[a].1| && path == Engine.AvailableModels[a].1[b].1;
    Engine.CatalogueEntryPath(a, b);
  }
}
