/**
 * `build_index` (the same function in the command-line package and in the
 * second pipeline script): back up `settings.yaml`, rewrite its
 * storage/reporting/cache base directories to plain relative names and drop
 * `root_dir`, run `graphrag index` from inside the project directory, and
 * put the original settings back whatever happens.
 */
module BuildIndex {

  import opened Wrappers
  import opened Strings

  /** A YAML value as `yaml.safe_load` returns it. */
  datatype Value =
    | Dict(entries: map<string, Value>)
    | List(items: seq<Value>)
    | Str(s: string)
    | Null
    | Scalar(repr: string)

  const Sections: seq<string> := ["storage", "reporting", "cache"]

  /** The relative base directory each section is pointed at. */
  function BaseDirFor(section: string): string {
    if section == "storage" then "output" else if section == "reporting" then "logs" else "cache"
  }

  /** `settings[section]['base_dir'] = ...` when the section is present; assigning into anything but a mapping raises. */
  function SetBaseDir(m: map<string, Value>, section: string): Result<map<string, Value>> {
    if section !in m then Success(m)
    else match m[section]
      case Dict(inner) => Success(m[section := Dict(inner["base_dir" := Str(BaseDirFor(section))])])
      case _ => Failure("TypeError: '" + section + "' is not a mapping")
  }

  /** `'key' in value` for a non-mapping: list membership, substring test, or a type error. */
  function Mentions(v: Value, key: string): Result<bool> {
    match v
    case Dict(m) => Success(key in m)
    case List(items) => Success(Str(key) in items)
    case Str(s) => Success(Contains(s, key))
    case _ => Failure("TypeError: argument is not iterable")
  }

  /**
   * The four `if` statements of `build_index` applied to the loaded
   * settings. A mapping gets the base directories and loses `root_dir`;
   * anything else survives only if none of the four keys is found in it,
   * since indexing or deleting through it raises.
   */
  function Normalize(settings: Value): (r: Result<Value>)
    ensures r.Success? && settings.Dict? ==> r.value.Dict?
    ensures !settings.Dict? && r.Success? ==> r.value == settings
  {
    match settings
    case Dict(m) =>
      var e := NormalizeEntries(m);
      if e.Failure? then Failure(e.error) else Success(Dict(e.value))
    case _ =>
      var found := seq(4, i requires 0 <= i < 4 => Mentions(settings, (Sections + ["root_dir"])[i]));
      if exists i :: 0 <= i < 4 && found[i].Failure? then Failure("TypeError: argument is not iterable")
      else if exists i :: 0 <= i < 4 && found[i] == Success(true) then Failure("TypeError: cannot assign into a non-mapping")
      else Success(settings)
  }

  /** The rewrite of a mapping: the three sections in order, then `root_dir` removed. */
  function NormalizeEntries(m: map<string, Value>): Result<map<string, Value>> {
    var s1 := SetBaseDir(m, "storage");
    if s1.Failure? then Failure(s1.error) else
    var s2 := SetBaseDir(s1.value, "reporting");
    if s2.Failure? then Failure(s2.error) else
    var s3 := SetBaseDir(s2.value, "cache");
    if s3.Failure? then Failure(s3.error) else
    Success(s3.value - {"root_dir"})
  }

  predicate SectionsAreMappings(m: map<string, Value>) {
    forall k :: k in Sections && k in m ==> m[k].Dict?
  }

  /**
   * On a mapping, normalisation fails exactly when a present section is not
   * itself a mapping; otherwise each present section gets its `base_dir`,
   * absent sections stay absent, `root_dir` is gone and every other key is
   * unchanged.
   */
  lemma NormalizeMapping(m: map<string, Value>)
    ensures Normalize(Dict(m)).Success? <==> SectionsAreMappings(m)
    ensures Normalize(Dict(m)).Success? ==>
      var n := Normalize(Dict(m)).value.entries;
      && n.Keys == m.Keys - {"root_dir"}
      && (forall k :: k in Sections && k in m ==> n[k] == Dict(m[k].entries["base_dir" := Str(BaseDirFor(k))]))
      && (forall k :: k in m && k !in Sections && k != "root_dir" ==> n[k] == m[k])
  {
    var s1 := SetBaseDir(m, "storage");
    SetBaseDirFacts(m, "storage");
    if s1.Failure? {
      assert !SectionsAreMappings(m);
      return;
    }
    var s2 := SetBaseDir(s1.value, "reporting");
    SetBaseDirFacts(s1.value, "reporting");
    if s2.Failure? {
      assert !SectionsAreMappings(m);
      return;
    }
    var s3 := SetBaseDir(s2.value, "cache");
    SetBaseDirFacts(s2.value, "cache");
    if s3.Failure? {
      assert !SectionsAreMappings(m);
      return;
    }
    assert SectionsAreMappings(m);
    var n := s3.value - {"root_dir"};
    assert Normalize(Dict(m)) == Success(Dict(n));
    forall k | k in Sections && k in m
      ensures n[k] == Dict(m[k].entries["base_dir" := Str(BaseDirFor(k))])
    {
    }
    forall k | k in m && k !in Sections && k != "root_dir"
      ensures n[k] == m[k]
    {
    }
  }

  /** One section's rewrite: it fails exactly on a present non-mapping, and touches that section only. */
  lemma SetBaseDirFacts(m: map<string, Value>, section: string)
    ensures SetBaseDir(m, section).Success? <==> (section in m ==> m[section].Dict?)
    ensures SetBaseDir(m, section).Success? ==>
      var n := SetBaseDir(m, section).value;
      && n.Keys == m.Keys
      && (section in m ==> n[section] == Dict(m[section].entries["base_dir" := Str(BaseDirFor(section))]))
      && (forall k :: k in m && k != section ==> n[k] == m[k])
  {
  }

  /** Normalising twice changes nothing more: the rewrite is idempotent. */
  lemma NormalizeIdempotent(m: map<string, Value>)
    requires Normalize(Dict(m)).Success?
    ensures Normalize(Normalize(Dict(m)).value) == Normalize(Dict(m))
  {
    NormalizeMapping(m);
    var n := Normalize(Dict(m)).value.entries;
    assert SectionsAreMappings(n);
    NormalizeMapping(n);
    var n2 := Normalize(Dict(n)).value.entries;
    assert n2.Keys == n.Keys;
    forall k | k in n2
      ensures n2[k] == n[k]
    {
      if k in Sections {
        assert n[k].entries["base_dir" := Str(BaseDirFor(k))] == n[k].entries;
      }
    }
    assert n2 == n;
  }

  /** What the `graphrag index` command saw: its working directory, the settings text and the directories. */
  datatype IndexRun = IndexRun(cwd: string, settings: string, dirs: set<string>)

  function SettingsFile(projectDir: string): string {
    PathJoin(projectDir, "settings.yaml")
  }

  function BackupFile(projectDir: string): string {
    PathJoin(projectDir, "settings.yaml.bak")
  }

  lemma BackupIsNotSettings(projectDir: string)
    ensures SettingsFile(projectDir) != BackupFile(projectDir)
  {
    var a := SettingsFile(projectDir);
    var b := BackupFile(projectDir);
    assert a[|a| - 1] == 'l';
    assert b[|b| - 1] == 'k';
  }

  /** The three directories created inside the project before the command runs. */
  const WorkSubdirs: seq<string> := ["output", "logs", "cache"]

  function WorkDirs(projectDir: string): set<string> {
    set d | d in WorkSubdirs :: PathJoin(projectDir, d)
  }

  class Workspace {
    var cwd: string
    var files: map<string, string>
    var dirs: set<string>
    /** The index commands started, in order. */
    var runs: seq<IndexRun>

    constructor (cwd: string, files: map<string, string>, dirs: set<string>)
      ensures this.cwd == cwd && this.files == files && this.dirs == dirs && runs == []
    {
      this.cwd := cwd;
      this.files := files;
      this.dirs := dirs;
      runs := [];
    }

    /**
     * `build_index` for the project directory `projectDir`. `parse` and
     * `dump` are `yaml.safe_load` and `yaml.dump`; `indexError` is the error
     * the index command raises, if any. A missing `settings.yaml` makes the
     * backup copy raise before the `try`, so the error escapes (`Failure`).
     * Otherwise the result is `Success(True)` when the command ran without
     * raising and `Success(False)` when anything in the `try` raised; in
     * every case the settings file is restored, the backup removed and the
     * working directory is the one before the call.
     */
    method BuildIndex(projectDir: string, parse: string -> Result<Value>, dump: Value -> string, indexError: Option<string>)
      returns (r: Result<bool>)
      modifies this
      ensures SettingsFile(projectDir) !in old(files) ==>
        r.Failure? && files == old(files) && cwd == old(cwd) && dirs == old(dirs) && runs == old(runs)
      ensures SettingsFile(projectDir) in old(files) ==>
        var loaded := parse(old(files)[SettingsFile(projectDir)]);
        var normalized := if loaded.Success? then Normalize(loaded.value) else Failure(loaded.error);
        && r == Success(normalized.Success? && indexError.None?)
        && files == old(files) - {BackupFile(projectDir)}
        && cwd == old(cwd)
        && (normalized.Failure? ==> dirs == old(dirs) && runs == old(runs))
        && (normalized.Success? ==>
              dirs == old(dirs) + WorkDirs(projectDir)
              && runs == old(runs) + [IndexRun(projectDir, dump(normalized.value), dirs)])
    {
      var settingsFile := SettingsFile(projectDir);
      var backupFile := BackupFile(projectDir);
      BackupIsNotSettings(projectDir);
      if settingsFile !in files {
        return Failure("FileNotFoundError: " + settingsFile);
      }
      ghost var before := files;
      files := files[backupFile := files[settingsFile]];
      var ok := Normalized(settingsFile, parse, dump, projectDir, indexError);
      r := Success(ok);
      // finally: restore the original settings and remove the backup
      files := files[settingsFile := files[backupFile]] - {backupFile};
      assert files == before - {backupFile};
    }

    /** The body of the outer `try`: returns what `build_index` returns; the backup is left alone. */
    method Normalized(settingsFile: string, parse: string -> Result<Value>, dump: Value -> string,
                      projectDir: string, indexError: Option<string>) returns (ok: bool)
      requires settingsFile == SettingsFile(projectDir) && settingsFile in files && BackupFile(projectDir) in files
      modifies this
      ensures var loaded := parse(old(files)[settingsFile]);
        var normalized := if loaded.Success? then Normalize(loaded.value) else Failure(loaded.error);
        && ok == (normalized.Success? && indexError.None?)
        && cwd == old(cwd)
        && files.Keys == old(files).Keys
        && (forall p :: p in files && p != settingsFile ==> files[p] == old(files)[p])
        && (normalized.Failure? ==> files == old(files) && dirs == old(dirs) && runs == old(runs))
        && (normalized.Success? ==>
              dirs == old(dirs) + WorkDirs(projectDir)
              && runs == old(runs) + [IndexRun(projectDir, dump(normalized.value), dirs)])
    {
      var loaded := parse(files[settingsFile]);
      if loaded.Failure? {
        return false;
      }
      var normalized := Normalize(loaded.value);
      if normalized.Failure? {
        return false;
      }
      files := files[settingsFile := dump(normalized.value)];
      var currentDir := cwd;
      cwd := projectDir;
      MakeWorkDirs();
      runs := runs + [IndexRun(cwd, files[settingsFile], dirs)];
      ok := indexError.None?;
      // finally: back to the directory we came from
      cwd := currentDir;
    }

    /** `os.makedirs(subdir, exist_ok=True)` for each working directory, relative to the current one. */
    method MakeWorkDirs()
      modifies this`dirs
      ensures dirs == old(dirs) + WorkDirs(cwd)
    {
      for i := 0 to |WorkSubdirs|
        invariant dirs == old(dirs) + set d | d in WorkSubdirs[..i] :: PathJoin(cwd, d)
      {
        assert WorkSubdirs[..i + 1] == WorkSubdirs[..i] + [WorkSubdirs[i]];
        dirs := dirs + {PathJoin(cwd, WorkSubdirs[i])};
      }
      assert WorkSubdirs[..|WorkSubdirs|] == WorkSubdirs;
    }
  }
}
