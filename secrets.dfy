/** Secret Manager access (src/statusbrew_pipeline/secrets.py): resolving a
    secret name to a resource name. The Secret Manager service itself is the
    function `access`. */
module Secrets {
  import opened Strings
  import opened PyValues

  /** The resource name `fetch_secret` asks for: a name with a `/` in it is
      already a resource name and is used as it is; otherwise it needs a
      non-empty project and names the latest version of that secret. */
  function ResourceName(secretName: string, projectId: Option<string>): (r: Result<string>)
    ensures '/' in secretName ==> r == Ok(secretName)
    ensures '/' !in secretName && (projectId.None? || projectId.value == "") ==> r.Err? && r.error.ValueError?
    ensures '/' !in secretName && projectId.Some? && projectId.value != ""
         ==> r == Ok("projects/" + projectId.value + "/secrets/" + secretName + "/versions/latest")
    ensures r.Ok? ==> '/' in r.value
  {
    if '/' in secretName then Ok(secretName)
    else if projectId.None? || projectId.value == "" then
      Err(ValueError("project_id is required when secret_name is not a resource name"))
    else
      var name := "projects/" + projectId.value + "/secrets/" + secretName + "/versions/latest";
      assert name[8] == '/';
      Ok(name)
  }

  function NameParts(project: string, secretName: string): seq<string> {
    ["projects", project, "secrets", secretName, "versions", "latest"]
  }

  lemma JoinNameParts(project: string, secretName: string)
    ensures Join(NameParts(project, secretName), "/")
         == "projects/" + project + "/secrets/" + secretName + "/versions/latest"
  {
    var xs := NameParts(project, secretName);
    assert Join(xs[5..], "/") == "latest" by { assert xs[5..] == ["latest"]; }
    assert Join(xs[4..], "/") == "versions/latest" by { assert xs[4..][1..] == xs[5..]; }
    assert Join(xs[3..], "/") == secretName + "/versions/latest" by { assert xs[3..][1..] == xs[4..]; }
    assert Join(xs[2..], "/") == "secrets/" + secretName + "/versions/latest" by { assert xs[2..][1..] == xs[3..]; }
    assert Join(xs[1..], "/") == project + "/secrets/" + secretName + "/versions/latest" by { assert xs[1..][1..] == xs[2..]; }
  }

  /** A built resource name splits back into its project and secret. */
  lemma ResourceNameSplits(secretName: string, project: string)
    requires '/' !in secretName && '/' !in project && project != ""
    ensures var r := ResourceName(secretName, Some(project));
      r.Ok? && Split(r.value, '/') == NameParts(project, secretName)
  {
    var xs := NameParts(project, secretName);
    JoinNameParts(project, secretName);
    forall i | 0 <= i < |xs|
      ensures '/' !in xs[i]
    {
    }
    SplitJoin(xs, '/');
  }

  /** `fetch_secret`: resolve the name, then read the payload. */
  function FetchSecret(secretName: string, projectId: Option<string>, access: string -> Result<string>): (r: Result<string>)
    ensures ResourceName(secretName, projectId).Err? ==> r == ResourceName(secretName, projectId)
    ensures ResourceName(secretName, projectId).Ok? ==> r == access(ResourceName(secretName, projectId).value)
  {
    var name :- ResourceName(secretName, projectId);
    access(name)
  }
}
