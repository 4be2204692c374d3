# Replicating catalog objects between environments

The model covers two revisions of the script `replicate-envs.py`:
the current one under `replicate/` and an earlier one at the top level.
The script copies catalog objects of an environment-management service
from a source to a target. Source and target are each either a URL of the
service's REST API or a directory on disk. The objects are workflow
handlers, config contexts, resource templates, environment templates
and, in the current revision, compute and service profiles.

For each object type, `replicate_objects` does the following:

- It lists the items: through a GET against the source URL, or by reading
  the JSON files under `<source>/<type>/`.
- For a URL source it fetches each item's versions. The current revision
  does not do this for the two profile types, which have no versions.
  A failed fetch falls back to the item itself.
- It cleans each version with `remove_unwanted_fields`: identity and
  timestamp metadata, `status`, `spec.sharing` and, in the current
  revision, `spec.agents` and per-hook `agents` are removed, and
  `metadata.project` is set to `system-catalog`.
- It delivers each version:
  - to a directory, as a raw copy under `raw/` and a cleaned copy;
  - to a URL, as a POST of the cleaned copy to the collection URL built by
    `build_source_url`.
- It records one success or failure line per version. A POST fails
  unless its status is 200 or 201.

The model covers both revisions, chosen by `Config.Revision`. It consists
of one Dafny module per concern:

| module | file | what it holds |
|---|---|---|
| `Wrappers` | `wrappers.dfy` | `Option` |
| `Decimal` | `decimal.dfy` | decimal rendering of integers, as `str(int)` prints them |
| `JsonModel` | `json_model.dfy` | decoded JSON values, Python truthiness, `dict.get`, `str()` of scalars |
| `Config` | `config.dfy` | the revision, `PROJECT`, the two unversioned profile types |
| `Cleaner` | `cleaner.dfy` | the two `remove_unwanted_fields` |
| `Endpoints` | `endpoints.dfy` | `API_NAMESPACE_MAP`, the two `build_source_url`, the paths of `save_to_disk` |
| `Post` | `post.dfy` | the status check of `post_object_to_url` and its error text |
| `Replication` | `replication.dfy` | the `replicate_objects` loop, proved against the function `Replicate` |
| `ReplicationProperties` | `replication_properties.dfy` | what a whole run records and does |
| `ReplicationPayloads` | `payloads.dfy` | what a whole run sends and writes: the cleaned records |

The network and the disk become inputs of the loop:

- `items` is the listing.
- `fetched[i]` is the result of the versions request for item `i`;
  `None` means the request raised.
- `responses[k]` is the target's answer to the k-th POST.

The loop's effects become outputs: the file writes and the POSTs, in
order, alongside the success and failure entries.

Each cleaner and the loop are written twice:

- as a specification function (`Clean`, `CleanLegacy`, `Replicate`) whose
  contracts and lemmas state what the source promises;
- as a method with the source's loops (`RemoveUnwantedFields`,
  `ReplicateObjects`), proved equal to its function.

## Model

| member | source | states |
|---|---|---|
| `Cleaner.Clean` | replicate/replicate-envs.py:108-129 | The cleaned record has: metadata without `id`, `modifiedAt`, `createdAt`, `projectID`, `createdBy`, `modifiedBy`; `project` set to `system-catalog`; other metadata keys kept; metadata created when absent. It drops `status` and keeps every other key. A dict `spec` loses `sharing` and `agents` and keeps its other keys; its hook lists have every dict hook stripped of `agents` and everything else kept. A non-dict `spec` is untouched. |
| `Cleaner.CleanLegacy` | replicate-envs.py:32-44 | The same metadata and `status` treatment. Of a dict `spec` only `sharing` goes; everything else, `agents` and hooks included, is kept. |
| `Cleaner.RemoveUnwantedFields` | replicate/replicate-envs.py:108-129 | The method with the source's pop loops over the metadata fields, hook types and hook items returns exactly `Clean(obj)`. |
| `Cleaner.RemoveUnwantedFieldsLegacy` | replicate-envs.py:32-44 | The legacy method returns exactly `CleanLegacy(obj)`. |
| `Cleaner.PopVolatile` | replicate/replicate-envs.py:111-112 | Popping the six fields one by one leaves the metadata minus exactly those keys. |
| `Cleaner.StripListAgents` | replicate/replicate-envs.py:124-126 | The loop over a hook list strips `agents` from each dict item and leaves other items alone. |
| `Cleaner.StripHookAgents` | replicate/replicate-envs.py:122-126 | The loop over hook types cleans each list entry and keeps each non-list entry. |
| `Cleaner.CleanSpecMeets` | replicate/replicate-envs.py:116-126 | The current revision's rewriting of `spec` meets the cleaned-spec description, including for each hook type and each hook item. |
| `Cleaner.CleanIdempotent` | replicate/replicate-envs.py:108-129 | Cleaning an already cleaned record changes nothing. |
| `Cleaner.CleanLegacyIdempotent` | replicate-envs.py:32-44 | The legacy cleaner is idempotent too. |
| `Cleaner.CleanSpecIdempotent` | replicate/replicate-envs.py:116-126 | Rewriting a cleaned `spec` again changes nothing. |
| `Cleaner.StripAgentsIdempotent` | replicate/replicate-envs.py:125-126 | Stripping `agents` from a hook item twice is the same as once. |
| `Cleaner.RevisionsAgreeWithoutAgentsOrHooks` | replicate/replicate-envs.py:116-126 | Both revisions clean a record alike when its `spec` is absent, is not a dict, or is a dict with neither `agents` nor `hooks`. |
| `Cleaner.CleanForRevision` | replicate/replicate-envs.py:108-129 | The cleaner used by the loop is `Payload`: `Clean` in the current revision and `CleanLegacy` in the legacy one. |
| `Endpoints.Namespace` | replicate/replicate-envs.py:95-102 | `API_NAMESPACE_MAP.get(t, "eaas.envmgmt.io")` is `paas.envmgmt.io` exactly for the two profile types and `eaas.envmgmt.io` for every other type, unknown ones included. |
| `Endpoints.IsUrl` | replicate/replicate-envs.py:187-188 | Definition: `startswith("http")`, as in replicate-envs.py:100-101. Properties in `ReplicationProperties.DirectoryTargetSucceeds` and `UrlTarget`. |
| `Endpoints.BuildSourceUrl` | replicate/replicate-envs.py:131-133 | Definition. Properties in `Endpoints.SourceUrlShape`, `SourceUrlIgnoresTrailingSlashes` and `SourceUrlRevisionsAgree`. |
| `Endpoints.BuildSourceUrlLegacy` | replicate-envs.py:46-47 | Definition. Properties in `Endpoints.SourceUrlShape`, `SourceUrlIgnoresTrailingSlashes` and `SourceUrlRevisionsAgree`. |
| `Endpoints.StripTrailingSlashes` | replicate/replicate-envs.py:133 | `rstrip('/')` yields a prefix of its argument that does not end in `/`, and everything cut off is `/`. |
| `Endpoints.StripAppendedSlashes` | replicate/replicate-envs.py:133 | Stripping a base that does not end in `/`, followed by any number of slashes, gives the base back. |
| `Endpoints.SourceUrlShape` | replicate/replicate-envs.py:131-133 | The collection URL is `<base>/apis/<namespace>/v1/projects/<project>/<type>`. The namespace is chosen by the object type in the current revision and is always `eaas` in the legacy one. |
| `Endpoints.SourceUrlIgnoresTrailingSlashes` | replicate/replicate-envs.py:133 | Adding trailing slashes to the base URL does not change the collection URL, in either revision. |
| `Endpoints.SourceUrlRevisionsAgree` | replicate-envs.py:46-47 | The two revisions build the same URL if and only if the type is not one of the profile types. |
| `Endpoints.FileName` | replicate/replicate-envs.py:163-166 | Definition. Properties in `Endpoints.FileNameShape`. |
| `Endpoints.DiskPath` | replicate/replicate-envs.py:158-167 | Definition. Properties in `Endpoints.RawBesideCleaned` and `ReplicationProperties.DirectoryWrites`. |
| `Endpoints.FileNameShape` | replicate/replicate-envs.py:163-166 | The file name starts with the rendered name and ends in `.json`. It is exactly `<name>.json` if and only if the version is falsy (absent, `None`, `false`, an empty string, an empty list or dict, or zero). |
| `Endpoints.RawBesideCleaned` | replicate/replicate-envs.py:158-167 | The raw copy's path is the cleaned copy's path with `raw` inserted after the type directory. The two paths share the file name and differ as component lists; whether they name different files once `Path` joins them is not modelled (see `Path` normalisation under Left out). |
| `JsonModel.Text` | replicate/replicate-envs.py:163-165 | `str()` of a truthy scalar is non-empty, so a truthy version adds a non-empty `-<version>`. |
| `JsonModel.Truthy` | replicate/replicate-envs.py:121 | Definition: Python's truth value of a decoded value, as `if hooks` and `if version:` (line 164) test it. Properties in `Endpoints.FileNameShape` and `JsonModel.Text`. |
| `Decimal.Digits` | replicate/replicate-envs.py:181 | A natural number's decimal text is non-empty, all digits, and has no leading zero. |
| `Decimal.DecimalString` | replicate/replicate-envs.py:181 | An integer's text is its digits, preceded by `-` when it is negative. |
| `Decimal.DigitsRoundTrip` | replicate/replicate-envs.py:181 | Reading back the digits of a natural number gives the number. |
| `Decimal.DecimalRoundTrip` | replicate/replicate-envs.py:181 | Parsing an integer's decimal text gives the integer. |
| `Post.ClassifyPost` | replicate/replicate-envs.py:178-181 | A response is accepted if and only if its status is 200 or 201. A rejection carries `"<status>: <body>"`. |
| `Post.ErrorText` | replicate/replicate-envs.py:181 | Definition: `f"{resp.status_code}: {resp.text}"`. Properties in `Post.ErrorTextRoundTrip`. |
| `Post.ErrorTextRoundTrip` | replicate/replicate-envs.py:181 | `"<status>: <body>"` determines both the status and the body: parsing it gives them back. |
| `Replication.Describe` | replicate/replicate-envs.py:248-250 | A failure line ends with ` => ` followed by its error. |
| `Replication.ItemName` | replicate/replicate-envs.py:214 | Definition: `item["metadata"].get("name", "<unknown>")`. Properties in `ReplicationProperties.ItemsAsSoleVersions`. |
| `Replication.VersionName` | replicate/replicate-envs.py:230 | Definition: `version_obj.get("spec", {}).get("version")`, with `None` as `JNull`. Properties in `ReplicationProperties.UrlTarget` and `DirectoryTargetSucceeds`. |
| `Replication.Replicate` | replicate/replicate-envs.py:183-254 | Definition: the specification function of one run (successes, failures, writes, POSTs). Properties in the `ReplicationProperties` lemmas. |
| `Replication.SelectVersions` | replicate/replicate-envs.py:213-227 | Definition: the item itself for a directory source, and in the current revision for an unversioned type; otherwise the fetched versions, or the item itself when the fetch raised. The Legacy revision follows replicate-envs.py:121-132. Properties in `ReplicationProperties.ItemsAsSoleVersions`, `FetchedVersionsReplicated` and `RevisionsSelectAlike`. |
| `Replication.Dump` | replicate/replicate-envs.py:199-204 | Definition: the listing is saved as `<target>/<type>/raw-dump-get.json` only when a URL source replicates to a directory. Properties in `ReplicationProperties.DirectoryTargetWrites`. |
| `Replication.ReplicateVersion` | replicate/replicate-envs.py:229-252 | For one version: the raw and the cleaned write to a directory target, or the POST of the cleaned record to a URL target, and the entry with the verdict of that POST's response. |
| `Replication.ReplicateObjects` | replicate/replicate-envs.py:183-254 | The method with the source's nested loops returns exactly the successes, failures, writes and POSTs of `Replicate`. The Legacy revision follows replicate-envs.py:96-159. |
| `Replication.ReplicateItem` | replicate/replicate-envs.py:229-252 | The inner `for version_obj in versions` loop: after it, the four lists are those of the deliveries so far, extended by exactly one delivery per version, in order. |
| `Replication.ReplicateListed` | replicate/replicate-envs.py:213-252 | One pass of the outer `for item in items` loop. Before it, the four lists and the unit counter `sent` record exactly the deliveries of the units of the first i items. The pass selects item i's versions (lines 214-227) and delivers each of them. After it, the lists record exactly the deliveries of the units of the first i+1 items, and `sent` is their number. The Legacy revision follows replicate-envs.py:121-157. |
| `Replication.DeliverVersion` | replicate/replicate-envs.py:229-252 | One pass of the inner `for version_obj in versions` loop. Before it, the lists record exactly the first `sent` deliveries of the run, and delivery `sent` is this version's: its writes, its POST and its verdict. After it, they record exactly the first `sent + 1` deliveries. |
| `Replication.DeliverStep` | replicate/replicate-envs.py:229-252 | Delivering one more unit appends its entry to the successes or the failures, by its verdict, and appends its writes and POSTs. |
| `Replication.UnitsPrefix` | replicate/replicate-envs.py:213-229 | The units of the first i items are a prefix of the units of the first n items. |
| `ReplicationProperties.FiltersPartition` | replicate/replicate-envs.py:247-252 | Every entry lands in exactly one of the two lists. Successes carry no error and failures carry one. |
| `ReplicationProperties.NoErrorsAllSucceed` | replicate/replicate-envs.py:251-252 | When no entry has an error, the successes are all the entries, in order, and there are no failures. |
| `ReplicationProperties.OneOutcomePerVersion` | replicate/replicate-envs.py:229-252 | The successes and failures of a run together are the entries of its units, each exactly once. |
| `ReplicationProperties.DirectoryTargetSucceeds` | replicate/replicate-envs.py:239-252 | Replicating into a directory records every version as a success, in order, with no failures and no POSTs. Entry k is exactly unit k's type, item name and version name with no error. |
| `ReplicationProperties.DirectoryTargetWrites` | replicate/replicate-envs.py:199-204 | Replicating into a directory writes first the raw listing, exactly when the source is a URL, then the units' writes; two writes per unit. |
| `ReplicationProperties.WritesLength` | replicate/replicate-envs.py:239-241 | For a directory target, each unit gives exactly two writes. |
| `ReplicationProperties.WritesAt` | replicate/replicate-envs.py:239-241 | For a directory target, unit k's two writes sit at positions 2k and 2k+1. |
| `ReplicationProperties.WritesToDirectory` | replicate/replicate-envs.py:239-241 | For a directory target, the writes are two per unit, and every unit k's two writes sit at positions 2k and 2k+1. |
| `ReplicationProperties.DirectoryWrites` | replicate/replicate-envs.py:240-241 | For a directory target, unit k writes its raw record to `<target>/<type>/raw/<file>`, then its cleaned record to `<target>/<type>/<file>`. |
| `ReplicationProperties.NoPostsToDirectory` | replicate/replicate-envs.py:244-252 | Nothing is POSTed when the target is a directory. |
| `ReplicationProperties.PostsToUrl` | replicate/replicate-envs.py:244-246 | For a URL target there is one POST per unit, in order, sending the cleaned record to the target's collection URL. |
| `ReplicationProperties.NoWritesToUrl` | replicate/replicate-envs.py:238-241 | Nothing is written to disk when the target is a URL. |
| `ReplicationProperties.UrlTarget` | replicate/replicate-envs.py:243-250 | Replicating to a URL writes no file and POSTs each cleaned version once. Entry k names unit k's item and version. It succeeds if and only if response k has status 200 or 201, and otherwise carries `"<status>: <body>"`. |
| `ReplicationProperties.RejectedLine` | replicate/replicate-envs.py:250 | The report line of a rejected POST ends with ` => <status>: <body>`. |
| `ReplicationProperties.ItemsAsSoleVersions` | replicate/replicate-envs.py:216-227 | A directory source, and in the current revision an unversioned type, replicate each listed item as its only version, named after it. |
| `ReplicationProperties.FetchedVersionsReplicated` | replicate-envs.py:124-130 | For a URL source, the legacy revision (and the current one for versioned types) replicates the fetched versions, or the item itself when the fetch raised. |
| `ReplicationProperties.RevisionsSelectAlike` | replicate/replicate-envs.py:216-227 | The revisions choose different versions if and only if a URL source lists an unversioned type and the fetched versions differ from `[item]`. |
| `ReplicationProperties.UnitsAgreeForVersionedTypes` | replicate-envs.py:121-136 | For a versioned type, both revisions replicate the same records under the same names, in the same order. |
| `ReplicationPayloads.UnitsUpToClean` | replicate/replicate-envs.py:229-231 | Every unit of the first n items carries its own record, cleaned by the revision's cleaner. |
| `ReplicationPayloads.PayloadsAreCleaned` | replicate/replicate-envs.py:229-231 | In a run the loop can finish, every version's cleaned record is `remove_unwanted_fields` of it (`Clean`), or its legacy form (`CleanLegacy`) in the legacy revision (replicate-envs.py:134-136). |
| `ReplicationPayloads.UrlPayloads` | replicate/replicate-envs.py:231-246 | To a URL, there is one POST per version, and POST k carries `Clean` (legacy: `CleanLegacy`) of version k. |
| `ReplicationPayloads.WrittenContents` | replicate/replicate-envs.py:239-241 | Writes that follow a dump with the writes of the units hold, for each unit, its record and then its cleaned record. |
| `ReplicationPayloads.DirectoryPayloads` | replicate/replicate-envs.py:231-241 | To a directory, after the raw listing, each version is written twice: the record itself to `raw/`, then `Clean` (legacy: `CleanLegacy`) of it. |

## Left out

- HTTP: the GET of the listing, the GET of the versions and the POSTs are not modelled as calls. Their results are inputs (`items`, `fetched`, `responses`), and what is sent is an output (`PostRequest`). Headers, API keys and the disabled TLS verification are not represented. The `?limit=100&offset=0&order=DESC&orderBy=createdAt` query of the listing only affects which items the server returns.
- A 4xx or 5xx response to the listing GET raises (`raise_for_status`) and ends the run, which the model does not represent.
- A POST that raises (`requests.post` at replicate/replicate-envs.py:175 and replicate-envs.py:88 is outside any `try`) ends `replicate_objects` with no report at all. `responses` holds one returned response per POST, so the model cannot express this, and `OneOutcomePerVersion` holds only for runs in which every POST returns.
- A versions response whose `items` is an empty dict or an empty string yields no versions, which `fetched[i] == Some([])` expresses. One whose `items` is any other non-list (a non-empty dict or string, a number), or whose list holds a version that is not a dict or has a `spec` that is not a dict, has its versions used at replicate/replicate-envs.py:229-230 (replicate-envs.py:134-135), outside the `try` of lines 221-225 (replicate-envs.py:126-130). That ends the run, so these responses are preconditions: `fetched` holds lists only, and `Deliverable` excludes the malformed versions.
- The model is of a run without `--debug`. With `--debug`, replicate/replicate-envs.py:155 (replicate-envs.py:68) reads `v.get('spec', {}).get(...)` of every version inside `fetch_versions_from_url`, so within the `try` of lines 221-225 (replicate-envs.py:126-130). The malformed versions responses of the previous line then raise there and fall back to `[item]` instead of ending the run. The model does not represent this fallback.
- Filesystem effects: directories are not created and files are not opened. A write is an output `FileWrite(path components, value)`. `Path` normalisation (`..`, `/` inside a name) is not modelled: a name beginning with `/` makes `Path` drop the earlier components, so the raw and the cleaned copy would then be the same file and the cleaned one would overwrite the raw one. The order in which `glob("*.json")` returns the source files is the order of `items`.
- JSON text: parsing (`json.load`, `resp.json()`) and printing (`json.dump(indent=2)`) are left out; records are decoded values. Dict key order is not represented, since a `map` has none.
- Floating-point JSON numbers: numbers are integers. `str()` is rendered only for scalars: a name or truthy version that is a list or dict is excluded by `Nameable`.
- Debug output and the warning printed when a versions fetch fails are not modelled.
- `main`, argument parsing and the environment variables are not modelled, nor are the printed summaries. `main` calls `replicate_objects` once, for the single `--type`, and the model covers that call.
- Entries are structured values (`Outcome`), and `Describe` gives the source's text for them.
- `copy.deepcopy` needs no model: records are immutable values, so the caller's record is never changed.
- Python exceptions that end a run without `--debug` are preconditions. An item without a dict `metadata` (`item["metadata"]`) is excluded by `AllListed`. A version that is not a dict, or whose `metadata` or `spec` is of the wrong type, is excluded by `Deliverable`. A POST count that does not match the responses is excluded by `Admissible`.
- `Replication.Cleaned` is the identity on records the cleaner cannot take. Such records never reach it, because `Deliverable` excludes them.
- Behaviour sometimes described for the script but absent from its code is not modelled:
  - A 409 response is a failure, not a success.
  - A failing write is an exception, not a failure entry.
  - A malformed source file is not skipped.
  - The versions are replicated sequentially, with no worker pool.
