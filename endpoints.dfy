/**
  Endpoint URLs (`build_source_url`, `API_NAMESPACE_MAP`) and the disk
  layout of `save_to_disk` in both revisions.
 */
module Endpoints {
  import opened JsonModel
  import opened Config

  /** `endpoint.startswith("http")`: how the script tells a URL from a directory. */
  predicate IsUrl(endpoint: string) {
    |endpoint| >= 4 && endpoint[..4] == "http"
  }

  const EAAS := "eaas.envmgmt.io"
  const PAAS := "paas.envmgmt.io"

  const API_NAMESPACE_MAP: map<string, string> := map[
    "workflowhandlers" := EAAS,
    "configcontexts" := EAAS,
    "resourcetemplates" := EAAS,
    "environmenttemplates" := EAAS,
    "computeprofiles" := PAAS,
    "serviceprofiles" := PAAS
  ]

  /** `API_NAMESPACE_MAP.get(object_type, "eaas.envmgmt.io")`. */
  function Namespace(objectType: string): (ns: string)
    ensures ns == PAAS <==> Unversioned(objectType)
    ensures ns == EAAS <==> !Unversioned(objectType)
  {
    if objectType in API_NAMESPACE_MAP then API_NAMESPACE_MAP[objectType] else EAAS
  }

  /** `s.rstrip('/')`. */
  function StripTrailingSlashes(s: string): (r: string)
    ensures |r| <= |s| && r == s[..|r|]
    ensures r == [] || r[|r| - 1] != '/'
    ensures forall i | |r| <= i < |s| :: s[i] == '/'
    decreases |s|
  {
    if |s| > 0 && s[|s| - 1] == '/' then StripTrailingSlashes(s[..|s| - 1]) else s
  }

  function Slashes(n: nat): (s: string)
    ensures |s| == n && forall i | 0 <= i < n :: s[i] == '/'
  {
    seq(n, _ => '/')
  }

  /** Appending slashes to a string that does not end in one is undone by stripping. */
  lemma {:induction false} StripAppendedSlashes(b: string, n: nat)
    requires b == [] || b[|b| - 1] != '/'
    ensures StripTrailingSlashes(b + Slashes(n)) == b
    decreases n
  {
    if n > 0 {
      assert (b + Slashes(n))[..|b| + n - 1] == b + Slashes(n - 1);
      StripAppendedSlashes(b, n - 1);
    }
  }

  /** `build_source_url` of the current revision: the namespace follows the object type. */
  function BuildSourceUrl(baseUrl: string, project: string, objectType: string): string {
    StripTrailingSlashes(baseUrl) + "/apis/" + Namespace(objectType) + "/v1/projects/" + project + "/" + objectType
  }

  /** `build_source_url` of the legacy revision: always the `eaas` namespace. */
  function BuildSourceUrlLegacy(baseUrl: string, project: string, objectType: string): string {
    StripTrailingSlashes(baseUrl) + "/apis/" + EAAS + "/v1/projects/" + project + "/" + objectType
  }

  function SourceUrlFor(rev: Revision, baseUrl: string, project: string, objectType: string): string {
    if rev == Current then BuildSourceUrl(baseUrl, project, objectType)
    else BuildSourceUrlLegacy(baseUrl, project, objectType)
  }

  /**
    A base written as `b` followed by any number of slashes, where `b` does
    not itself end in a slash, gives the collection URL under `b` with the
    namespace chosen by the revision.
   */
  lemma SourceUrlShape(rev: Revision, b: string, n: nat, project: string, objectType: string)
    requires b == [] || b[|b| - 1] != '/'
    ensures SourceUrlFor(rev, b + Slashes(n), project, objectType) ==
              b + "/apis/" + (if rev == Current then Namespace(objectType) else EAAS)
                + "/v1/projects/" + project + "/" + objectType
  {
    StripAppendedSlashes(b, n);
  }

  /** The number of trailing slashes on the base makes no difference. */
  lemma SourceUrlIgnoresTrailingSlashes(rev: Revision, baseUrl: string, n: nat, project: string, objectType: string)
    ensures SourceUrlFor(rev, baseUrl + Slashes(n), project, objectType) == SourceUrlFor(rev, baseUrl, project, objectType)
  {
    var b := StripTrailingSlashes(baseUrl);
    var k := |baseUrl| - |b|;
    assert baseUrl == b + Slashes(k);
    assert baseUrl + Slashes(n) == b + Slashes(k + n);
    StripAppendedSlashes(b, k);
    StripAppendedSlashes(b, k + n);
  }

  /** The revisions address the same URL for every type but the two profile types. */
  lemma SourceUrlRevisionsAgree(baseUrl: string, project: string, objectType: string)
    ensures BuildSourceUrl(baseUrl, project, objectType) == BuildSourceUrlLegacy(baseUrl, project, objectType)
            <==> !Unversioned(objectType)
  {
    var pre := StripTrailingSlashes(baseUrl) + "/apis/";
    var post := "/v1/projects/" + project + "/" + objectType;
    if Unversioned(objectType) {
      var u := BuildSourceUrl(baseUrl, project, objectType);
      assert u[|pre|] == 'p';
      assert BuildSourceUrlLegacy(baseUrl, project, objectType)[|pre|] == 'e';
    }
  }

  // ---------------------------------------------------------------------
  // save_to_disk: where a record is written
  // ---------------------------------------------------------------------

  /** Arguments the file name can be rendered from: a scalar name, and a scalar version when truthy. */
  predicate Nameable(name: Json, version: Json) {
    Printable(name) && (Truthy(version) ==> Printable(version))
  }

  /** `f"{name}"`, then `-{version}` when the version is truthy, then `.json`. */
  function FileName(name: Json, version: Json): string
    requires Nameable(name, version)
  {
    Text(name) + (if Truthy(version) then "-" + Text(version) else "") + ".json"
  }

  /**
    A file name starts with the rendered name and ends in `.json`, and it is
    exactly `<name>.json` when the version is falsy.
   */
  lemma FileNameShape(name: Json, version: Json)
    requires Nameable(name, version)
    ensures var r := FileName(name, version);
            && |r| >= |Text(name)| + 5 && r[|r| - 5..] == ".json"
            && r[..|Text(name)|] == Text(name)
            && (r == Text(name) + ".json" <==> !Truthy(version))
  {
    var suffix := if Truthy(version) then "-" + Text(version) else "";
    var r := FileName(name, version);
    assert r == Text(name) + suffix + ".json";
    assert |r| == |Text(name)| + |suffix| + 5;
    if Truthy(version) {
      assert |Text(version)| > 0;
      assert |r| > |Text(name)| + 5;
    }
  }

  /**
    The path `save_to_disk` writes, as its components:
    `<target>/<type>/<file>` or, for the raw copy, `<target>/<type>/raw/<file>`.
   */
  function DiskPath(targetDir: string, objectType: string, name: Json, version: Json, raw: bool): seq<string>
    requires Nameable(name, version)
  {
    [targetDir, objectType] + (if raw then ["raw"] else []) + [FileName(name, version)]
  }

  /**
    The raw copy sits in `raw/` beside the cleaned one, under the same file
    name, and the two component lists differ. (Whether `Path` then names two
    different files depends on the name: one beginning with `/` discards the
    earlier components; path normalisation is not modelled.)
   */
  lemma RawBesideCleaned(targetDir: string, objectType: string, name: Json, version: Json)
    requires Nameable(name, version)
    ensures var raw := DiskPath(targetDir, objectType, name, version, true);
            var cleaned := DiskPath(targetDir, objectType, name, version, false);
            && raw != cleaned
            && raw == cleaned[..2] + ["raw"] + cleaned[2..]
            && raw[3] == cleaned[2] == FileName(name, version)
  {
  }

  /** The path that `raw-dump-get.json` is written to. */
  function RawDumpPath(targetDir: string, objectType: string): seq<string> {
    [targetDir, objectType, "raw-dump-get.json"]
  }
}
