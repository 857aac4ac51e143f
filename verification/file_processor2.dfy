/**
 * The second pipeline script: creating a project (`init_graphrag_project`)
 * and writing its `settings.yaml` from the template
 * (`overwrite_settings_yaml`). Its `check_graphrag_settings` and
 * `build_index` are the ones modelled in FileProcessor and BuildIndex.
 */
module FileProcessor2 {

  import opened Wrappers
  import opened Strings

  /** An empty name becomes `cli_{YYYYMMDD}`; `today` is `time.strftime('%Y%m%d')`. */
  function InitProjectName(projectName: string, today: string): (r: string)
    ensures projectName != "" ==> r == projectName
    ensures projectName == "" ==> StartsWith(r, "cli_") && r[4..] == today
  {
    if projectName == "" then "cli_" + today else projectName
  }

  /**
   * The text `overwrite_settings_yaml` writes: the template with the
   * default container name replaced by `{appName}_{projectName}`, three
   * replacements of a text by itself, then every `projects/{name}/` and
   * every `projects\{name}\` removed.
   */
  function SettingsFromTemplate(template: string, appName: string, projectName: string): string {
    var t1 := ReplaceAll(template, "container_name: default", "container_name: " + appName + "_" + projectName);
    var t2 := ReplaceAll(t1, "base_dir: \"logs\"", "base_dir: \"logs\"");
    var t3 := ReplaceAll(t2, "base_dir: \"output\"", "base_dir: \"output\"");
    var t4 := ReplaceAll(t3, "db_uri: 'lancedb'", "db_uri: 'lancedb'");
    var t5 := ReplaceAll(t4, "projects/" + projectName + "/", "");
    ReplaceAll(t5, "projects\\" + projectName + "\\", "")
  }

  /** The three middle replacements are no-ops: only the container name and the project paths change. */
  lemma SettingsFromTemplateSteps(template: string, appName: string, projectName: string)
    ensures SettingsFromTemplate(template, appName, projectName) ==
      var t1 := ReplaceAll(template, "container_name: default", "container_name: " + appName + "_" + projectName);
      ReplaceAll(ReplaceAll(t1, "projects/" + projectName + "/", ""), "projects\\" + projectName + "\\", "")
  {
    var t1 := ReplaceAll(template, "container_name: default", "container_name: " + appName + "_" + projectName);
    ReplaceBySelf(t1, "base_dir: \"logs\"");
    ReplaceBySelf(t1, "base_dir: \"output\"");
    ReplaceBySelf(t1, "db_uri: 'lancedb'");
  }

  /** A template with no default container name and no project paths is written as it is. */
  lemma PlainTemplateUnchanged(template: string, appName: string, projectName: string)
    requires !Contains(template, "container_name: default")
    requires !Contains(template, "projects/" + projectName + "/")
    requires !Contains(template, "projects\\" + projectName + "\\")
    ensures SettingsFromTemplate(template, appName, projectName) == template
  {
    SettingsFromTemplateSteps(template, appName, projectName);
    ReplaceAbsent(template, "container_name: default", "container_name: " + appName + "_" + projectName);
    ReplaceAbsent(template, "projects/" + projectName + "/", "");
    ReplaceAbsent(template, "projects\\" + projectName + "\\", "");
  }

  /** The project tree under the working directory. */
  class Projects {
    var dirs: set<string>
    var files: map<string, string>

    constructor (dirs: set<string>, files: map<string, string>)
      ensures this.dirs == dirs && this.files == files
    {
      this.dirs := dirs;
      this.files := files;
    }

    predicate Exists(path: string)
      reads this
    {
      path in dirs || path in files
    }

    /**
     * `init_graphrag_project`. `created` is what `initialize_project_at`
     * writes (full paths to contents), `template` the settings template for
     * the AI Search store and `envTemplate` the `.env` template. Returns
     * false, after creating only `projects` itself, when the project
     * directory already exists; otherwise creates the project, keeps the
     * initial settings as `settings_default.yaml`, writes the rewritten
     * `settings.yaml` and the `.env`, and returns true.
     */
    method InitGraphragProject(projectName: string, today: string, created: map<string, string>,
                               template: string, envTemplate: string, appName: string) returns (ok: bool)
      modifies this
      ensures var name := InitProjectName(projectName, today);
        var dir := PathJoin("projects", name);
        && (ok <==> !(dir in old(dirs) || dir in old(files)))
        && (!ok ==> dirs == old(dirs) + {"projects"} && files == old(files))
        && (ok ==> dirs == old(dirs) + {"projects", dir}
                   && files == InitialisedFiles(old(files) + created, dir, template, envTemplate, appName, name))
    {
      var name := InitProjectName(projectName, today);
      if "projects" !in dirs {
        dirs := dirs + {"projects"};
      }
      var dir := PathJoin("projects", name);
      assert dir != "projects" by {
        if StartsWith(name, "/") {
          assert dir[0] == '/';
        } else {
          assert |dir| > |"projects"|;
        }
      }
      if dir in dirs || dir in files {
        return false;
      }
      dirs := dirs + {dir};
      files := files + created;
      OverwriteSettingsYaml(dir, name, template, appName);
      files := files[PathJoin(dir, ".env") := envTemplate];
      return true;
    }

    /**
     * `overwrite_settings_yaml`: copies `settings.yaml` to
     * `settings_default.yaml` (the copy command does nothing when there is no
     * `settings.yaml`), then writes the rewritten template.
     */
    method OverwriteSettingsYaml(root: string, projectName: string, template: string, appName: string)
      modifies this
      ensures dirs == old(dirs)
      ensures files == WithSettings(old(files), root, template, appName, projectName)
    {
      var settings := PathJoin(root, "settings.yaml");
      if settings in files {
        files := files[PathJoin(root, "settings_default.yaml") := files[settings]];
      }
      files := files[settings := SettingsFromTemplate(template, appName, projectName)];
    }
  }

  function WithSettings(files: map<string, string>, root: string, template: string, appName: string, projectName: string)
    : (r: map<string, string>)
    ensures PathJoin(root, "settings.yaml") in r
    ensures r[PathJoin(root, "settings.yaml")] == SettingsFromTemplate(template, appName, projectName)
  {
    var settings := PathJoin(root, "settings.yaml");
    var kept := if settings in files then files[PathJoin(root, "settings_default.yaml") := files[settings]] else files;
    kept[settings := SettingsFromTemplate(template, appName, projectName)]
  }

  function InitialisedFiles(files: map<string, string>, dir: string, template: string, envTemplate: string,
                            appName: string, projectName: string): map<string, string>
  {
    WithSettings(files, dir, template, appName, projectName)[PathJoin(dir, ".env") := envTemplate]
  }

  /** After a successful initialisation the project's settings name its own container and the `.env` is the template. */
  lemma InitialisedSettings(files: map<string, string>, dir: string, template: string, envTemplate: string,
                            appName: string, projectName: string)
    ensures var r := InitialisedFiles(files, dir, template, envTemplate, appName, projectName);
      && PathJoin(dir, "settings.yaml") in r && PathJoin(dir, ".env") in r
      && r[PathJoin(dir, "settings.yaml")] == SettingsFromTemplate(template, appName, projectName)
      && r[PathJoin(dir, ".env")] == envTemplate
      && (PathJoin(dir, "settings.yaml") in files ==>
            PathJoin(dir, "settings_default.yaml") in r
            && r[PathJoin(dir, "settings_default.yaml")] == files[PathJoin(dir, "settings.yaml")])
  {
    Relative("settings.yaml");
    Relative(".env");
    Relative("settings_default.yaml");
    PathJoinInjective(dir, "settings.yaml", ".env");
    PathJoinInjective(dir, "settings_default.yaml", ".env");
    PathJoinInjective(dir, "settings_default.yaml", "settings.yaml");
  }
}
