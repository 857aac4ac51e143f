/**
 * Project naming, access and build-state rules: the built-index check, the
 * authentication predicates over the session, project-name validation and
 * prefixing, and the list of projects a user may see.
 */
module Common {

  import opened Wrappers
  import opened Strings

  /** The artifacts an indexed project's `output` directory must hold. */
  const RequiredArtifacts: set<string> := {
    "create_final_nodes.parquet", "create_final_text_units.parquet", "create_final_entities.parquet",
    "create_final_community_reports.parquet", "input.parquet", "base_relationship_edges.parquet",
    "create_final_relationships.parquet", "stats.json", "create_final_documents.parquet",
    "create_final_communities.parquet", "create_base_text_units.parquet", "base_entity_nodes.parquet"
  }

  lemma RequiredArtifactsCount()
    ensures |RequiredArtifacts| == 12
  {
  }

  /** `is_built`, given the listing of `output` (`None` when the directory is missing). */
  function IsBuilt(outputDir: Option<seq<string>>): bool {
    if outputDir.None? then false
    else if |outputDir.value| == 0 then false
    else forall a :: a in RequiredArtifacts ==> a in outputDir.value
  }

  /** Built exactly when the directory exists and lists all twelve artifacts; the emptiness test adds nothing. */
  lemma IsBuiltIff(outputDir: Option<seq<string>>)
    ensures IsBuilt(outputDir) <==> outputDir.Some? && RequiredArtifacts <= set f | f in outputDir.value
  {
    if outputDir.Some? && RequiredArtifacts <= set f | f in outputDir.value {
      assert "stats.json" in outputDir.value;
    }
  }

  /** Extra files, and the order of the listing, do not matter. */
  lemma IsBuiltIgnoresExtras(files: seq<string>, extra: seq<string>, reordered: seq<string>)
    requires multiset(reordered) == multiset(files + extra)
    ensures IsBuilt(Some(files)) ==> IsBuilt(Some(reordered))
  {
    if IsBuilt(Some(files)) {
      assert "stats.json" in files;
      forall a | a in RequiredArtifacts ensures a in reordered {
        assert a in multiset(files + extra);
      }
      assert "stats.json" in multiset(reordered);
    }
  }

  /**
   * What the access rules read: whether `./config.yaml` exists, whether the
   * session holds a truthy `authentication_status`, its `username`, and
   * `username.lower()` (Python's full Unicode lowercasing, taken as given).
   */
  datatype Session = Session(hasConfig: bool, authenticated: bool, username: string, loweredUsername: string)

  /** `is_admin`: without a configuration or an authenticated user everyone is admin. */
  function IsAdmin(s: Session): bool {
    if !s.hasConfig then true
    else if s.authenticated then s.loweredUsername == "admin"
    else true
  }

  /** `is_project_admin`. */
  function IsProjectAdmin(s: Session, projectName: string): bool {
    if !s.hasConfig then true
    else if IsAdmin(s) then true
    else if s.authenticated then
      EndsWith(s.loweredUsername, "_admin") && StartsWith(projectName, ReplaceAll(s.loweredUsername, "_admin", ""))
    else true
  }

  /** `get_project_prefix_by_username` returns a string, or the boolean `True`. */
  datatype Prefix = Text(text: string) | TrueValue

  function GetProjectPrefixByUsername(s: Session): (r: Prefix)
    ensures !s.hasConfig ==> r == Text("")
    ensures s.hasConfig && s.authenticated ==> r == Text(ReplaceAll(s.loweredUsername, "_admin", ""))
    ensures s.hasConfig && !s.authenticated ==> r == TrueValue
  {
    if !s.hasConfig then Text("")
    else if s.authenticated then Text(ReplaceAll(s.loweredUsername, "_admin", ""))
    else TrueValue
  }

  /** `can_test_project`. */
  function CanTestProject(s: Session, projectName: string): bool {
    if !s.hasConfig then true
    else if IsProjectAdmin(s, projectName) then true
    else if s.authenticated then
      var prefix := GetProjectPrefixByUsername(s);
      prefix.Text? && StartsWith(projectName, prefix.text)
    else true
  }

  /** Admin is decided by the lowercased username alone once a configured user is authenticated. */
  lemma IsAdminIff(s: Session)
    ensures IsAdmin(s) <==> !s.hasConfig || !s.authenticated || s.loweredUsername == "admin"
  {
  }

  /**
   * For an authenticated user under a configuration, a project can be used
   * exactly by the admin or when its name starts with the username with
   * "_admin" removed; being its project admin grants nothing more.
   */
  lemma CanTestProjectIff(s: Session, projectName: string)
    requires s.hasConfig && s.authenticated
    ensures CanTestProject(s, projectName) <==>
      IsAdmin(s) || StartsWith(projectName, ReplaceAll(s.loweredUsername, "_admin", ""))
  {
  }

  /** A project admin of `p` can always use `p`; without authentication everything is allowed. */
  lemma ProjectAdminCanTest(s: Session, projectName: string)
    ensures IsProjectAdmin(s, projectName) ==> CanTestProject(s, projectName)
    ensures !s.authenticated ==> IsAdmin(s) && IsProjectAdmin(s, projectName) && CanTestProject(s, projectName)
  {
  }

  // ---------------------------------------------------------------------
  // Project names

  predicate NameChar(c: char) {
    'A' <= c <= 'Z' || 'a' <= c <= 'z' || '0' <= c <= '9' || c == '_' || c == '-'
  }

  predicate AllNameChars(v: string) {
    forall i :: 0 <= i < |v| ==> NameChar(v[i])
  }

  /**
   * `re.match("^[A-Za-z0-9_-]*$", v)` as Python evaluates it: `$` also
   * matches just before a newline that ends the string.
   */
  predicate ValidNameAsWritten(v: string) {
    AllNameChars(v) || (|v| > 0 && v[|v| - 1] == '\n' && AllNameChars(v[..|v| - 1]))
  }

  /** The rule the error message states: the name is made of letters, digits, `_` and `-` only. */
  predicate ValidName(v: string) {
    AllNameChars(v)
  }

  const NameError := "Name can only contain letters and numbers."

  /** `format_project_name` with the validation as written. */
  function FormatProjectNameAsWritten(s: Session, version: string): Result<string> {
    if !ValidNameAsWritten(version) then Failure(NameError)
    else if IsAdmin(s) then Success(Lower(version))
    else Success(s.username + "_" + Lower(version))
  }

  /** As written, a name ending in a newline is accepted and the newline reaches the project name. */
  lemma TrailingNewlineAccepted()
    ensures ValidNameAsWritten("a\n") && !ValidName("a\n")
    ensures FormatProjectNameAsWritten(Session(false, false, "", ""), "a\n") == Success("a\n")
  {
    assert "a\n"[..1] == "a";
    assert !NameChar("a\n"[1]);
    assert Lower("a\n")[0] == 'a' && Lower("a\n")[1] == '\n';
    assert Lower("a\n") == "a\n";
  }

  /**
   * `format_project_name` with the intended validation: a valid name is
   * lowercased, and prefixed with the (not lowercased) username and "_"
   * when the user is not admin; the empty name is valid.
   */
  function FormatProjectName(s: Session, version: string): (r: Result<string>)
    ensures r.Failure? <==> !ValidName(version)
    ensures r.Failure? ==> r.error == NameError
    ensures r.Success? && IsAdmin(s) ==> r.value == Lower(version) && AllNameChars(r.value)
    ensures r.Success? && !IsAdmin(s) ==> r.value == s.username + "_" + Lower(version)
    ensures r.Success? ==> EndsWith(r.value, Lower(version)) && (forall i :: 0 <= i < |Lower(version)| ==> !('A' <= Lower(version)[i] <= 'Z'))
  {
    if !ValidName(version) then Failure(NameError)
    else
      LowerKeepsNameChars(version);
      SuffixIsSuffix(if IsAdmin(s) then [] else s.username + "_", Lower(version));
      if IsAdmin(s) then Success(Lower(version))
      else Success(s.username + "_" + Lower(version))
  }

  lemma LowerKeepsNameChars(v: string)
    requires AllNameChars(v)
    ensures AllNameChars(Lower(v))
  {
  }

  lemma SuffixIsSuffix(a: string, b: string)
    ensures EndsWith(a + b, b)
  {
    assert (a + b)[|a + b| - |b|..] == b;
  }

  /** The two validations differ only on names ending in a newline. */
  lemma ValidationsAgreeWithoutNewline(v: string)
    requires v == [] || v[|v| - 1] != '\n'
    ensures ValidNameAsWritten(v) <==> ValidName(v)
  {
  }

  // ---------------------------------------------------------------------
  // Project listing

  /** The projects a non-admin may see, in listing order. */
  function Testable(s: Session, projects: seq<string>): (r: seq<string>)
    ensures |r| <= |projects|
  {
    if projects == [] then []
    else Testable(s, projects[..|projects| - 1])
         + (if CanTestProject(s, projects[|projects| - 1]) then [projects[|projects| - 1]] else [])
  }

  /** `get_project_names`, given the listing of `/app/projects`. */
  method GetProjectNames(s: Session, projects: seq<string>) returns (r: seq<string>)
    ensures IsAdmin(s) ==> r == projects
    ensures !IsAdmin(s) ==> r == Testable(s, projects)
    ensures forall p :: p in r <==> p in projects && CanTestProject(s, p)
  {
    if IsAdmin(s) {
      forall p | p in projects ensures CanTestProject(s, p) {
        AdminCanTest(s, p);
      }
      return projects;
    }
    r := [];
    var i := 0;
    while i < |projects|
      invariant 0 <= i <= |projects|
      invariant r == Testable(s, projects[..i])
    {
      assert projects[..i + 1][..i] == projects[..i];
      if CanTestProject(s, projects[i]) {
        r := r + [projects[i]];
      }
      i := i + 1;
    }
    assert projects[..i] == projects;
    forall p
      ensures p in r <==> p in projects && CanTestProject(s, p)
    {
      TestableMembers(s, projects, p);
    }
  }

  lemma AdminCanTest(s: Session, p: string)
    requires IsAdmin(s)
    ensures CanTestProject(s, p)
  {
  }

  /** A project is listed exactly when it is in the directory and the user may test it. */
  lemma {:induction false} TestableMembers(s: Session, projects: seq<string>, p: string)
    ensures p in Testable(s, projects) <==> p in projects && CanTestProject(s, p)
  {
    if projects != [] {
      var k := |projects| - 1;
      TestableMembers(s, projects[..k], p);
      assert projects == projects[..k] + [projects[k]];
    }
  }

  /** The filter keeps the listing's order: filtering a listing made of two parts filters each part in turn. */
  lemma {:induction false} TestableConcat(s: Session, a: seq<string>, b: seq<string>)
    ensures Testable(s, a + b) == Testable(s, a) + Testable(s, b)
    decreases |b|
  {
    if b == [] {
      assert a + b == a;
    } else {
      var init := b[..|b| - 1];
      assert (a + b)[..|a + b| - 1] == a + init;
      TestableConcat(s, a, init);
    }
  }
}
