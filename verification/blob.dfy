/**
 * Blob storage naming and access for a project: the container name derived
 * from the project name, the content settings chosen on upload, and signed
 * read URLs whose failures are returned instead of raised.
 */
module Blob {

  import opened Wrappers
  import opened Strings

  /** `"graphrag" + project + "cache"` with every '_' and then every '-' removed. */
  function ContainerName(projectName: string): (r: string)
    ensures '_' !in r && '-' !in r
    ensures StartsWith(r, "graphrag") && EndsWith(r, "cache")
    ensures r == "graphrag" + Without(Without(projectName, '_'), '-') + "cache"
  {
    var raw := "graphrag" + projectName + "cache";
    RemovingSeparators(projectName);
    ContainerNameShape(Without(Without(projectName, '_'), '-'));
    ReplaceAll(ReplaceAll(raw, "_", ""), "-", "")
  }

  lemma ContainerNameShape(m: string)
    requires '_' !in m && '-' !in m
    ensures var r := "graphrag" + m + "cache";
      '_' !in r && '-' !in r && StartsWith(r, "graphrag") && EndsWith(r, "cache")
  {
    var r := "graphrag" + m + "cache";
    assert r[..8] == "graphrag";
    assert r[|r| - 5..] == "cache";
    forall i | 0 <= i < |r|
      ensures r[i] != '_' && r[i] != '-'
    {
      if i >= 8 && i < 8 + |m| {
        assert r[i] == m[i - 8];
      }
    }
  }

  lemma WithoutInside(p: string, c: char)
    requires c !in "graphrag" && c !in "cache"
    ensures Without("graphrag" + p + "cache", c) == "graphrag" + Without(p, c) + "cache"
  {
    WithoutConcat("graphrag" + p, "cache", c);
    WithoutConcat("graphrag", p, c);
    WithoutUnchanged("graphrag", c);
    WithoutUnchanged("cache", c);
  }

  lemma RemovingSeparators(p: string)
    ensures ReplaceAll(ReplaceAll("graphrag" + p + "cache", "_", ""), "-", "")
         == "graphrag" + Without(Without(p, '_'), '-') + "cache"
  {
    ReplaceCharIsWithout("graphrag" + p + "cache", '_');
    WithoutInside(p, '_');
    ReplaceCharIsWithout("graphrag" + Without(p, '_') + "cache", '-');
    WithoutInside(Without(p, '_'), '-');
  }

  /** Two projects share a container exactly when their names agree once '_' and '-' are dropped. */
  lemma SameContainerIff(p: string, q: string)
    ensures ContainerName(p) == ContainerName(q)
        <==> Without(Without(p, '_'), '-') == Without(Without(q, '_'), '-')
  {
    var a := Without(Without(p, '_'), '-');
    var b := Without(Without(q, '_'), '-');
    if ContainerName(p) == ContainerName(q) {
      var n := |"graphrag"|;
      assert a == ContainerName(p)[n..|ContainerName(p)| - 5];
      assert b == ContainerName(q)[n..|ContainerName(q)| - 5];
    }
  }

  datatype ContentSettings = ContentSettings(contentType: string, contentDisposition: string)

  /** The content settings `upload_file` attaches: PNG and PDF are served inline, anything else gets none. */
  function ContentSettingsFor(filePath: string): (r: Option<ContentSettings>)
    ensures r.Some? <==> EndsWith(filePath, ".png") || EndsWith(filePath, ".pdf")
    ensures r.Some? ==> r.value.contentDisposition == "inline"
    ensures EndsWith(filePath, ".png") ==> r == Some(ContentSettings("image/png", "inline"))
    ensures EndsWith(filePath, ".pdf") ==> r == Some(ContentSettings("application/pdf", "inline"))
  {
    var settings := if EndsWith(filePath, ".png") then Some(ContentSettings("image/png", "inline")) else None;
    if EndsWith(filePath, ".pdf") then Some(ContentSettings("application/pdf", "inline")) else settings
  }

  /** `os.path.basename`: the text after the last '/'. */
  function Basename(path: string): (r: string)
    ensures '/' !in r && EndsWith(path, r)
  {
    AfterLast(path, '/')
  }

  datatype StoredBlob = StoredBlob(data: string, settings: Option<ContentSettings>)

  /** The storage account that `upload_file` writes to. */
  class BlobAccount {
    var containers: map<string, map<string, StoredBlob>>
    var publicContainers: set<string>

    constructor ()
      ensures containers == map[] && publicContainers == {}
    {
      containers := map[];
      publicContainers := {};
    }

    /**
     * `upload_file`: nothing at all without a connection string; otherwise the
     * container is created when missing, the file is stored under its base
     * name (overwriting) and the container is made public. A client error
     * changes nothing; a read error or a failing `upload_blob` leaves only the
     * created container; a failing `set_container_access_policy` leaves the
     * file stored in a container that is not made public. Every error is
     * reported, never raised.
     */
    method UploadFile(connectionString: string, projectName: string, filePath: string,
                      clientError: Option<string>, data: Result<string>,
                      uploadError: Option<string>, policyError: Option<string>)
      returns (reported: Option<string>)
      modifies this
      ensures connectionString == "" ==> reported == None
      ensures connectionString == "" || clientError.Some? ==>
        containers == old(containers) && publicContainers == old(publicContainers)
      ensures connectionString != "" && clientError.Some? ==> reported.Some?
      ensures connectionString != "" && clientError.None? ==>
        var c := ContainerName(projectName);
        var existing := if c in old(containers) then old(containers)[c] else map[];
        (data.Failure? || uploadError.Some? ==>
          reported.Some? && publicContainers == old(publicContainers)
          && containers == old(containers)[c := existing])
        && (data.Success? && uploadError.None? ==>
          var stored := existing[Basename(filePath) := StoredBlob(data.value, ContentSettingsFor(filePath))];
          containers == old(containers)[c := stored]
          && (policyError.Some? ==> reported.Some? && publicContainers == old(publicContainers))
          && (policyError.None? ==> reported.None? && publicContainers == old(publicContainers) + {c}))
    {
      if connectionString == "" {
        return None;
      }
      var fileName := Basename(filePath);
      if clientError.Some? {
        return Some("Error uploading file " + fileName + ": " + clientError.value);
      }
      var containerName := ContainerName(projectName);
      // create_container when it does not exist yet
      var existing := if containerName in containers then containers[containerName] else map[];
      containers := containers[containerName := existing];
      var settings := ContentSettingsFor(filePath);
      if data.Failure? {
        return Some("Error uploading file " + fileName + ": " + data.error);
      }
      if uploadError.Some? {
        return Some("Error uploading file " + fileName + ": " + uploadError.value);
      }
      containers := containers[containerName := existing[fileName := StoredBlob(data.value, settings)]];
      if policyError.Some? {
        return Some("Error uploading file " + fileName + ": " + policyError.value);
      }
      publicContainers := publicContainers + {containerName};
      return None;
    }
  }

  /** What is asked of the signer: read permission on one blob until `expiry` (seconds). */
  datatype SasRequest = SasRequest(container: string, blob: string, readOnly: bool, expiry: int)

  /**
   * The account behind the connection string and the signing call are
   * outside the model: `account` is the client's account name or the error
   * raised while building the client, `sign` the token generator.
   */
  datatype SasContext = SasContext(projectName: string, now: int, account: Result<string>,
                                   sign: SasRequest -> Result<string>)

  function SasRequestFor(ctx: SasContext, blobName: string): SasRequest {
    SasRequest(ContainerName(ctx.projectName), blobName, true, ctx.now + 3600)
  }

  /** `get_sas_url`: `(url, "")` on success and `("", str(e))` on any failure; it never raises. */
  function GetSasUrl(ctx: SasContext, blobName: string): (r: (string, string))
    ensures ctx.account.Failure? ==> r == ("", ctx.account.error)
    ensures ctx.account.Success? && ctx.sign(SasRequestFor(ctx, blobName)).Failure? ==>
      r == ("", ctx.sign(SasRequestFor(ctx, blobName)).error)
    ensures ctx.account.Success? && ctx.sign(SasRequestFor(ctx, blobName)).Success? ==>
      r.1 == "" &&
      r.0 == "https://" + ctx.account.value + ".blob.core.windows.net/" + ContainerName(ctx.projectName)
             + "/" + blobName + "?" + ctx.sign(SasRequestFor(ctx, blobName)).value
    ensures SasRequestFor(ctx, blobName).readOnly && SasRequestFor(ctx, blobName).expiry == ctx.now + 3600
  {
    match ctx.account
    case Failure(e) => ("", e)
    case Success(accountName) =>
      var container := ContainerName(ctx.projectName);
      match ctx.sign(SasRequest(container, blobName, true, ctx.now + 60 * 60))
      case Failure(e) => ("", e)
      case Success(token) =>
        ("https://" + accountName + ".blob.core.windows.net/" + container + "/" + blobName + "?" + token, "")
  }
}
