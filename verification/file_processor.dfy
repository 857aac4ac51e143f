/**
 * The command-line project pipeline: the `.env` reading of
 * `run_build_index`, the missing/existing split of `run_index_preview` and
 * the required-file check `check_graphrag_settings` (identical in both
 * pipeline scripts).
 */
module FileProcessor {

  import opened Wrappers
  import opened Strings

  // ---------------------------------------------------------------------
  // .env

  /** A line is used when it holds "=" and does not start with "#", checked before stripping. */
  predicate UsedLine(line: string) {
    '=' in line && !StartsWith(line, "#")
  }

  /** The key and value of a used line: the stripped line split at its first "=". */
  function LinePair(line: string): (string, string)
    requires UsedLine(line)
  {
    StripKeeps(line, '=');
    (BeforeFirst(Strip(line), '='), AfterFirst(Strip(line), '='))
  }

  /** The key holds no "=", and key, "=" and value put back together give the stripped line. */
  lemma LinePairSplits(line: string)
    requires UsedLine(line)
    ensures '=' !in LinePair(line).0
    ensures Strip(line) == LinePair(line).0 + "=" + LinePair(line).1
  {
  }

  /** The (key, value) pairs of the used lines, in file order. */
  function Entries(lines: seq<string>): seq<(string, string)> {
    if lines == [] then []
    else
      var k := |lines| - 1;
      Entries(lines[..k]) + (if UsedLine(lines[k]) then [LinePair(lines[k])] else [])
  }

  /** `env_vars[key] = value` for each pair in turn. */
  function Assign(pairs: seq<(string, string)>): map<string, string> {
    if pairs == [] then map[]
    else
      var k := |pairs| - 1;
      Assign(pairs[..k])[pairs[k].0 := pairs[k].1]
  }

  /** The dictionary `run_build_index` builds from the lines of `.env`. */
  function EnvVars(lines: seq<string>): map<string, string> {
    Assign(Entries(lines))
  }

  /** A key is defined exactly when some pair carries it. */
  lemma {:induction false} AssignKeys(pairs: seq<(string, string)>, key: string)
    ensures key in Assign(pairs) <==> exists i :: 0 <= i < |pairs| && pairs[i].0 == key
  {
    if pairs != [] {
      var k := |pairs| - 1;
      AssignKeys(pairs[..k], key);
      if key in Assign(pairs[..k]) {
        var i :| 0 <= i < k && pairs[..k][i].0 == key;
        assert pairs[i].0 == key;
      }
      if exists i :: 0 <= i < k && pairs[i].0 == key {
        var i :| 0 <= i < k && pairs[i].0 == key;
        assert pairs[..k][i].0 == key;
      }
    }
  }

  /** A later pair overrides an earlier one: the value is the one of the last pair with that key. */
  lemma {:induction false} AssignLastWins(pairs: seq<(string, string)>, i: nat)
    requires i < |pairs|
    requires forall j :: i < j < |pairs| ==> pairs[j].0 != pairs[i].0
    ensures pairs[i].0 in Assign(pairs) && Assign(pairs)[pairs[i].0] == pairs[i].1
  {
    var k := |pairs| - 1;
    if i < k {
      forall j | i < j < k
        ensures pairs[..k][j].0 != pairs[..k][i].0
      {
        assert pairs[..k][j] == pairs[j];
      }
      AssignLastWins(pairs[..k], i);
    }
  }

  /** A used line contributes its pair; any other line (a comment, a line without "=") contributes nothing. */
  lemma EntriesOfLine(lines: seq<string>, line: string)
    ensures UsedLine(line) ==> Entries(lines + [line]) == Entries(lines) + [LinePair(line)]
    ensures !UsedLine(line) ==> Entries(lines + [line]) == Entries(lines)
  {
    assert (lines + [line])[..|lines|] == lines;
  }

  lemma AssignSnoc(pairs: seq<(string, string)>, key: string, value: string)
    ensures Assign(pairs + [(key, value)]) == Assign(pairs)[key := value]
  {
    assert (pairs + [(key, value)])[..|pairs|] == pairs;
  }

  /**
   * The environment the index command runs with: the process environment
   * with the `.env` pairs laid over it (`os.environ.copy()` then `update`);
   * a missing `.env` file adds nothing.
   */
  method CommandEnvironment(environ: map<string, string>, envFile: Option<seq<string>>) returns (cmdEnv: map<string, string>)
    ensures envFile.None? ==> cmdEnv == environ
    ensures envFile.Some? ==> cmdEnv == environ + EnvVars(envFile.value)
  {
    var envVars: map<string, string> := map[];
    if envFile.Some? {
      var lines := envFile.value;
      for i := 0 to |lines|
        invariant envVars == EnvVars(lines[..i])
      {
        assert lines[..i + 1] == lines[..i] + [lines[i]];
        EntriesOfLine(lines[..i], lines[i]);
        var line := lines[i];
        if '=' in line && !StartsWith(line, "#") {
          var pair := LinePair(line);
          AssignSnoc(Entries(lines[..i]), pair.0, pair.1);
          envVars := envVars[pair.0 := pair.1];
        }
      }
      assert lines[..|lines|] == lines;
    }
    cmdEnv := environ + envVars;
  }

  /** Overriding keeps every other variable and takes the `.env` value where both define one. */
  lemma CommandEnvironmentOverrides(environ: map<string, string>, envVars: map<string, string>, key: string)
    ensures key in environ + envVars <==> key in environ || key in envVars
    ensures key in envVars ==> (environ + envVars)[key] == envVars[key]
    ensures key !in envVars && key in environ ==> (environ + envVars)[key] == environ[key]
  {
  }

  // ---------------------------------------------------------------------
  // run_index_preview

  /** The seven index artifacts `run_index_preview` looks for, in the order it reports them. */
  const ParquetFiles: seq<string> := [
    "create_final_entities.parquet",
    "create_final_nodes.parquet",
    "create_final_communities.parquet",
    "create_final_community_reports.parquet",
    "create_final_documents.parquet",
    "create_final_relationships.parquet",
    "create_final_text_units.parquet"
  ]

  /** The names of `files` that are (`wanted`) or are not (`!wanted`) in `present`, in order. */
  function Select(files: seq<string>, present: set<string>, wanted: bool): seq<string> {
    if files == [] then []
    else
      var k := |files| - 1;
      Select(files[..k], present, wanted) + (if (files[k] in present) == wanted then [files[k]] else [])
  }

  /**
   * Each name goes to exactly one of the two lists: together they hold the
   * names once each, and membership follows presence.
   */
  lemma {:induction false} SelectPartitions(files: seq<string>, present: set<string>)
    ensures multiset(Select(files, present, false)) + multiset(Select(files, present, true)) == multiset(files)
    ensures forall f :: f in Select(files, present, false) <==> f in files && f !in present
    ensures forall f :: f in Select(files, present, true) <==> f in files && f in present
  {
    if files != [] {
      var k := |files| - 1;
      SelectPartitions(files[..k], present);
      assert files == files[..k] + [files[k]];
    }
  }

  /**
   * `run_index_preview`: nothing when the output directory is absent;
   * otherwise the missing and the existing artifact names, in list order.
   * `present` is the set of files in the output directory.
   */
  method RunIndexPreview(outputExists: bool, present: set<string>) returns (r: Option<(seq<string>, seq<string>)>)
    ensures !outputExists <==> r.None?
    ensures r.Some? ==> r.value.0 == Select(ParquetFiles, present, false) && r.value.1 == Select(ParquetFiles, present, true)
  {
    if !outputExists {
      return None;
    }
    var missing: seq<string> := [];
    var existing: seq<string> := [];
    for i := 0 to |ParquetFiles|
      invariant missing == Select(ParquetFiles[..i], present, false)
      invariant existing == Select(ParquetFiles[..i], present, true)
    {
      assert ParquetFiles[..i + 1][..i] == ParquetFiles[..i];
      var file := ParquetFiles[i];
      if file !in present {
        missing := missing + [file];
      } else {
        existing := existing + [file];
      }
    }
    assert ParquetFiles[..|ParquetFiles|] == ParquetFiles;
    return Some((missing, existing));
  }

  // ---------------------------------------------------------------------
  // check_graphrag_settings

  function ProjectDir(projectName: string): string {
    PathJoin("projects", projectName)
  }

  /** The project directory, then its three files, then its three directories, in checking order. */
  function RequiredPaths(projectName: string): (r: seq<string>)
    ensures |r| == 7 && r[0] == ProjectDir(projectName)
  {
    var dir := ProjectDir(projectName);
    [dir,
     PathJoin(dir, ".env"), PathJoin(dir, "settings.yaml"), PathJoin(dir, "settings_default.yaml"),
     PathJoin(dir, "prompts"), PathJoin(dir, "input"), PathJoin(dir, "original")]
  }

  /**
   * `check_graphrag_settings`: `existing` is the set of paths that exist.
   * True exactly when the project directory, its three files and its three
   * directories all exist; the checks stop at the first missing one.
   */
  method CheckGraphragSettings(projectName: string, existing: set<string>) returns (ok: bool)
    ensures ok <==> forall i :: 0 <= i < 7 ==> RequiredPaths(projectName)[i] in existing
  {
    ok := CheckPaths(RequiredPaths(projectName), existing);
  }

  /** The checks of `check_graphrag_settings` over its seven paths, in order, stopping at the first missing one. */
  method CheckPaths(paths: seq<string>, existing: set<string>) returns (ok: bool)
    requires |paths| == 7
    ensures ok <==> forall i :: 0 <= i < 7 ==> paths[i] in existing
  {
    if paths[0] !in existing {
      return false;
    }
    // the three files
    for i := 1 to 4
      invariant forall j :: 0 <= j < i ==> paths[j] in existing
    {
      if paths[i] !in existing {
        return false;
      }
    }
    // the three directories
    for i := 4 to 7
      invariant forall j :: 0 <= j < i ==> paths[j] in existing
    {
      if paths[i] !in existing {
        return false;
      }
    }
    return true;
  }

  /** For an ordinary name the seven paths are `projects/{name}` and the entries below it. */
  lemma RequiredPathsOfPlainName(projectName: string)
    requires projectName != "" && !StartsWith(projectName, "/") && !EndsWith(projectName, "/")
    ensures RequiredPaths(projectName) ==
      var dir := "projects/" + projectName;
      var sub := dir + "/";
      [dir, sub + ".env", sub + "settings.yaml", sub + "settings_default.yaml",
       sub + "prompts", sub + "input", sub + "original"]
  {
    var dir := "projects/" + projectName;
    assert dir[|dir| - 1] == projectName[|projectName| - 1];
    assert ProjectDir(projectName) == dir;
    JoinBelow(dir, ".env");
    JoinBelow(dir, "settings.yaml");
    JoinBelow(dir, "settings_default.yaml");
    JoinBelow(dir, "prompts");
    JoinBelow(dir, "input");
    JoinBelow(dir, "original");
  }

  /** A relative name joined below a directory without a trailing '/' gets one separator. */
  lemma JoinBelow(dir: string, name: string)
    requires dir != "" && dir[|dir| - 1] != '/' && name != [] && name[0] != '/'
    ensures PathJoin(dir, name) == dir + "/" + name
  {
    Relative(name);
    assert !EndsWith(dir, "/") by {
      assert dir[|dir| - 1..][0] == dir[|dir| - 1];
    }
  }
}
