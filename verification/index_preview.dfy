/**
 * The command-line index preview: which parquet artifact a preview type
 * names, and the guard that reports a missing artifact instead of reading it.
 */
module IndexPreview {

  import opened Wrappers
  import opened Strings
  import FileProcessor

  /** The seven preview types of the command line. */
  datatype PreviewType = Entities | Nodes | Communities | CommunityReports | Documents | Relationships | TextUnits

  /** The string value of each preview type. */
  function Value(t: PreviewType): string {
    match t
    case Entities => "entities"
    case Nodes => "nodes"
    case Communities => "communities"
    case CommunityReports => "community_reports"
    case Documents => "documents"
    case Relationships => "relationships"
    case TextUnits => "text_units"
  }

  /**
   * The artifact `index_preview` opens for a type value given on the command
   * line; None for any other value, which falls through every branch.
   */
  function ArtifactFor(v: string): Option<string> {
    if v == "entities" then Some("create_final_entities.parquet")
    else if v == "nodes" then Some("create_final_nodes.parquet")
    else if v == "communities" then Some("create_final_communities.parquet")
    else if v == "community_reports" then Some("create_final_community_reports.parquet")
    else if v == "documents" then Some("create_final_documents.parquet")
    else if v == "relationships" then Some("create_final_relationships.parquet")
    else if v == "text_units" then Some("create_final_text_units.parquet")
    else None
  }

  /** Every type value opens `create_final_{value}.parquet`. */
  lemma ArtifactNaming(t: PreviewType)
    ensures ArtifactFor(Value(t)) == Some("create_final_" + Value(t) + ".parquet")
  {
    // one literal comparison per helper keeps each proof small
    if t.Entities? || t.Nodes? {
      NamingOfEntitiesAndNodes(t);
    } else if t.Communities? || t.Documents? {
      NamingOfCommunitiesAndDocuments(t);
    } else if t.CommunityReports? {
      assert "create_final_" + "community_reports" + ".parquet" == "create_final_community_reports.parquet";
    } else {
      NamingOfRelationshipsAndTextUnits(t);
    }
  }

  lemma NamingOfEntitiesAndNodes(t: PreviewType)
    requires t.Entities? || t.Nodes?
    ensures ArtifactFor(Value(t)) == Some("create_final_" + Value(t) + ".parquet")
  {
    match t
    case Entities => assert "create_final_" + "entities" + ".parquet" == "create_final_entities.parquet";
    case Nodes => assert "create_final_" + "nodes" + ".parquet" == "create_final_nodes.parquet";
  }

  lemma NamingOfCommunitiesAndDocuments(t: PreviewType)
    requires t.Communities? || t.Documents?
    ensures ArtifactFor(Value(t)) == Some("create_final_" + Value(t) + ".parquet")
  {
    match t
    case Communities => assert "create_final_" + "communities" + ".parquet" == "create_final_communities.parquet";
    case Documents => assert "create_final_" + "documents" + ".parquet" == "create_final_documents.parquet";
  }

  lemma NamingOfRelationshipsAndTextUnits(t: PreviewType)
    requires t.Relationships? || t.TextUnits?
    ensures ArtifactFor(Value(t)) == Some("create_final_" + Value(t) + ".parquet")
  {
    match t
    case Relationships => assert "create_final_" + "relationships" + ".parquet" == "create_final_relationships.parquet";
    case TextUnits => assert "create_final_" + "text_units" + ".parquet" == "create_final_text_units.parquet";
  }

  /** Only the seven type values open anything. */
  lemma UnknownTypeOpensNothing(v: string)
    ensures ArtifactFor(v).Some? <==> exists t :: Value(t) == v
  {
    if ArtifactFor(v).Some? {
      var t := if v == "entities" then Entities else if v == "nodes" then Nodes
               else if v == "communities" then Communities else if v == "community_reports" then CommunityReports
               else if v == "documents" then Documents else if v == "relationships" then Relationships else TextUnits;
      assert Value(t) == v;
    }
  }

  /** Different types open different artifacts. */
  lemma ArtifactInjective(t1: PreviewType, t2: PreviewType)
    requires t1 != t2
    ensures ArtifactFor(Value(t1)) != ArtifactFor(Value(t2))
  {
    ArtifactNaming(t1);
    ArtifactNaming(t2);
    var a1 := "create_final_" + Value(t1) + ".parquet";
    var a2 := "create_final_" + Value(t2) + ".parquet";
    assert a1[13..|a1| - 8] == Value(t1);
    assert a2[13..|a2| - 8] == Value(t2);
    ValueInjective(t1, t2);
  }

  lemma ValueInjective(t1: PreviewType, t2: PreviewType)
    requires t1 != t2
    ensures Value(t1) != Value(t2)
  {
    // the seven values have seven different lengths
    assert |Value(t1)| != |Value(t2)|;
  }

  /** The artifacts the preview can open are exactly those the project pipeline checks for. */
  lemma PreviewCoversPipelineArtifacts()
    ensures forall f :: f in FileProcessor.ParquetFiles <==> exists t :: ArtifactFor(Value(t)) == Some(f)
  {
    forall f | f in FileProcessor.ParquetFiles
      ensures exists t :: ArtifactFor(Value(t)) == Some(f)
    {
      var t := if f == "create_final_entities.parquet" then Entities
               else if f == "create_final_nodes.parquet" then Nodes
               else if f == "create_final_communities.parquet" then Communities
               else if f == "create_final_community_reports.parquet" then CommunityReports
               else if f == "create_final_documents.parquet" then Documents
               else if f == "create_final_relationships.parquet" then Relationships
               else TextUnits;
      assert ArtifactFor(Value(t)) == Some(f);
    }
  }

  /** What `get_parquet_file` reports: the artifact is missing, or the number of rows it holds. */
  datatype Preview = NotFound(artifact: string) | Items(count: nat)

  /** `project_path(name) / "output" / artifact`, written as a string. */
  function ParquetPath(rootDir: string, projectName: string, artifact: string): string {
    PathJoin(PathJoin(rootDir, "projects"), projectName) + "/output/" + artifact
  }

  /**
   * `get_parquet_file`: `existing` is the set of paths on disk and
   * `rowCount` the number of rows of a parquet file; a missing file is
   * reported by name and nothing is read.
   */
  function GetParquetFile(rootDir: string, projectName: string, artifact: string,
                          existing: set<string>, rowCount: string -> nat): (r: Preview)
    ensures r.NotFound? <==> ParquetPath(rootDir, projectName, artifact) !in existing
    ensures r.NotFound? ==> r.artifact == artifact
    ensures r.Items? ==> r.count == rowCount(ParquetPath(rootDir, projectName, artifact))
  {
    var path := ParquetPath(rootDir, projectName, artifact);
    if path !in existing then NotFound(artifact) else Items(rowCount(path))
  }

  /** `index_preview`: None when the type value matches no branch. */
  function IndexPreview(rootDir: string, projectName: string, v: string,
                        existing: set<string>, rowCount: string -> nat): (r: Option<Preview>)
    ensures r.None? <==> forall t :: Value(t) != v
    ensures forall t :: Value(t) == v ==>
              r == Some(GetParquetFile(rootDir, projectName, "create_final_" + v + ".parquet", existing, rowCount))
  {
    UnknownTypeOpensNothing(v);
    forall t | Value(t) == v
      ensures ArtifactFor(v) == Some("create_final_" + v + ".parquet")
    {
      ArtifactNaming(t);
    }
    match ArtifactFor(v)
    case None => None
    case Some(artifact) => Some(GetParquetFile(rootDir, projectName, artifact, existing, rowCount))
  }
}
