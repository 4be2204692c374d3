/**
  The object cleaner (`remove_unwanted_fields`) of both revisions.

  Python works on a deep copy of the record and pops keys from it in place;
  here a record is an immutable `Json` value, so the caller's record can
  never change and the copy is implicit. Each revision has a specification
  function (`Clean`, `CleanLegacy`) whose contract states what cleaning
  does, and a method with the source's loops proved equal to it.
 */
module Cleaner {
  import opened JsonModel
  import opened Config

  /** The identity and timestamp keys dropped from `metadata`, in the order the loop visits them. */
  const VOLATILE_FIELDS: seq<string> := ["id", "modifiedAt", "createdAt", "projectID", "createdBy", "modifiedBy"]

  /** The same keys as a set. */
  const VOLATILE_KEYS: set<string> := set j | 0 <= j < |VOLATILE_FIELDS| :: VOLATILE_FIELDS[j]

  /**
    What the cleaner demands of its argument: a dict (`cleaned.get` and
    `cleaned.pop` fail on anything else) whose `metadata`, when present, is
    a dict (`meta.pop(field, None)` fails on anything else).
   */
  predicate Cleanable(obj: Json) {
    obj.JObj? && ("metadata" in obj.fields ==> obj.fields["metadata"].JObj?)
  }

  /** `cleaned.get("metadata", {})`: the record's metadata, or a new empty dict. */
  function MetadataOf(obj: Json): map<string, Json>
    requires Cleanable(obj)
  {
    if "metadata" in obj.fields then obj.fields["metadata"].fields else map[]
  }

  // ---------------------------------------------------------------------
  // What a cleaned record looks like, stated against the original
  // ---------------------------------------------------------------------

  /** `after` is `before` without the volatile keys and with `project` re-homed. */
  ghost predicate MetadataCleaned(before: map<string, Json>, after: map<string, Json>) {
    && VOLATILE_KEYS !! after.Keys
    && "project" in after && after["project"] == JStr(PROJECT)
    && after - {"project"} == before - VOLATILE_KEYS - {"project"}
  }

  /**
    The parts of the record both revisions treat alike: `metadata` is
    cleaned (and created when absent), `status` is gone, every key other
    than `metadata`, `spec` and `status` keeps its value, and a `spec` that
    is not a dict passes through untouched.
   */
  ghost predicate CleanedOutsideSpec(obj: Json, r: Json)
    requires Cleanable(obj)
  {
    && Cleanable(r)
    && "metadata" in r.fields
    && MetadataCleaned(MetadataOf(obj), r.fields["metadata"].fields)
    && "status" !in r.fields
    && r.fields - {"metadata", "spec"} == obj.fields - {"metadata", "spec", "status"}
    && ("spec" in r.fields <==> "spec" in obj.fields)
    && ("spec" in obj.fields && !obj.fields["spec"].JObj? ==> r.fields["spec"] == obj.fields["spec"])
    && ("spec" in obj.fields && obj.fields["spec"].JObj? ==> r.fields["spec"].JObj?)
  }

  /** A hook definition: a dict loses `agents` and keeps everything else; any other value is kept. */
  ghost predicate HookItemCleaned(before: Json, after: Json) {
    if before.JObj? then
      after.JObj? && "agents" !in after.fields && after.fields == before.fields - {"agents"}
    else
      after == before
  }

  /** A hook entry: a list has each of its definitions cleaned, in place; any other value is kept. */
  ghost predicate HookListCleaned(before: Json, after: Json) {
    if before.JArr? then
      && after.JArr? && |after.items| == |before.items|
      && forall i | 0 <= i < |before.items| :: HookItemCleaned(before.items[i], after.items[i])
    else
      after == before
  }

  /** `spec.hooks`: a dict keeps its hook types and has every entry cleaned; any other value is kept. */
  ghost predicate HooksCleaned(before: Json, after: Json) {
    if before.JObj? then
      && after.JObj? && after.fields.Keys == before.fields.Keys
      && forall kind | kind in before.fields :: HookListCleaned(before.fields[kind], after.fields[kind])
    else
      after == before
  }

  /** A dict `spec` in the current revision: no `sharing`, no `agents`, hooks cleaned, the rest kept. */
  ghost predicate SpecCleaned(before: map<string, Json>, after: map<string, Json>) {
    && "sharing" !in after && "agents" !in after
    && after - {"hooks"} == before - {"sharing", "agents", "hooks"}
    && ("hooks" in after <==> "hooks" in before)
    && ("hooks" in before ==> HooksCleaned(before["hooks"], after["hooks"]))
  }

  // ---------------------------------------------------------------------
  // Specification functions
  // ---------------------------------------------------------------------

  function CleanMetadata(meta: map<string, Json>): map<string, Json> {
    (meta - VOLATILE_KEYS)["project" := JStr(PROJECT)]
  }

  function StripAgents(item: Json): Json {
    if item.JObj? then JObj(item.fields - {"agents"}) else item
  }

  function CleanHookList(entry: Json): Json {
    if entry.JArr? then
      JArr(seq(|entry.items|, i requires 0 <= i < |entry.items| => StripAgents(entry.items[i])))
    else
      entry
  }

  function CleanHooks(hooks: map<string, Json>): map<string, Json> {
    map kind | kind in hooks :: CleanHookList(hooks[kind])
  }

  /** The current revision's treatment of a dict `spec`; an empty `hooks` dict is falsy and skipped. */
  function CleanSpec(spec: map<string, Json>): map<string, Json> {
    var s := spec - {"sharing", "agents"};
    if "hooks" in s && Truthy(s["hooks"]) && s["hooks"].JObj? then
      s["hooks" := JObj(CleanHooks(s["hooks"].fields))]
    else
      s
  }

  /**
    The record with its metadata cleaned, a dict `spec` rewritten (only
    `sharing` dropped in the legacy revision, `CleanSpec` in the current
    one) and no `status`.
   */
  function CleanWith(obj: Json, legacy: bool): Json
    requires Cleanable(obj)
  {
    var f := obj.fields["metadata" := JObj(CleanMetadata(MetadataOf(obj)))];
    var g :=
      if "spec" in f && f["spec"].JObj? then
        f["spec" := JObj(if legacy then f["spec"].fields - {"sharing"} else CleanSpec(f["spec"].fields))]
      else
        f;
    JObj(g - {"status"})
  }

  /** `remove_unwanted_fields` of the current revision. */
  function Clean(obj: Json): (r: Json)
    requires Cleanable(obj)
    ensures CleanedOutsideSpec(obj, r)
    ensures "spec" in obj.fields && obj.fields["spec"].JObj? ==>
              SpecCleaned(obj.fields["spec"].fields, r.fields["spec"].fields)
  {
    var r := CleanWith(obj, false);
    if "spec" in obj.fields && obj.fields["spec"].JObj? then
      CleanSpecMeets(obj.fields["spec"].fields); r
    else
      r
  }

  /** `remove_unwanted_fields` of the legacy revision: of `spec` only `sharing` goes. */
  function CleanLegacy(obj: Json): (r: Json)
    requires Cleanable(obj)
    ensures CleanedOutsideSpec(obj, r)
    ensures "spec" in obj.fields && obj.fields["spec"].JObj? ==>
              r.fields["spec"] == JObj(obj.fields["spec"].fields - {"sharing"})
  {
    CleanWith(obj, true)
  }

  /**
    The cleaner of the given revision, written through `CleanWith` so that
    the loop's proofs need not carry the contracts of `Clean` and
    `CleanLegacy`; `CleanForRevision` ties it to them.
   */
  function CleanFor(rev: Revision, obj: Json): Json
    requires Cleanable(obj)
  {
    CleanWith(obj, rev == Legacy)
  }

  /** What the revision's `remove_unwanted_fields` gives, by its contract: `Clean` or `CleanLegacy`. */
  function Payload(rev: Revision, obj: Json): Json
    requires Cleanable(obj)
  {
    if rev == Current then Clean(obj) else CleanLegacy(obj)
  }

  lemma CleanForRevision(rev: Revision, obj: Json)
    requires Cleanable(obj)
    ensures CleanFor(rev, obj) == Payload(rev, obj)
  {
  }

  lemma CleanSpecMeets(spec: map<string, Json>)
    ensures SpecCleaned(spec, CleanSpec(spec))
  {
    var s := spec - {"sharing", "agents"};
    if "hooks" in s {
      var h := s["hooks"];
      if h.JObj? {
        var after := CleanSpec(spec)["hooks"];
        forall kind | kind in h.fields
          ensures HookListCleaned(h.fields[kind], after.fields[kind])
        {
          if Truthy(h) {
            assert after.fields[kind] == CleanHookList(h.fields[kind]);
          }
        }
      }
    }
  }

  // ---------------------------------------------------------------------
  // Properties relating several cleanings
  // ---------------------------------------------------------------------

  lemma StripAgentsIdempotent(item: Json)
    ensures StripAgents(StripAgents(item)) == StripAgents(item)
  {
    if item.JObj? {
      assert StripAgents(item).fields - {"agents"} == item.fields - {"agents"};
    }
  }

  lemma CleanSpecIdempotent(spec: map<string, Json>)
    ensures CleanSpec(CleanSpec(spec)) == CleanSpec(spec)
  {
    var once := CleanSpec(spec);
    var s := spec - {"sharing", "agents"};
    assert once - {"sharing", "agents"} == once;
    if "hooks" in s && Truthy(s["hooks"]) && s["hooks"].JObj? {
      var h := s["hooks"].fields;
      var h1 := CleanHooks(h);
      assert Truthy(once["hooks"]) by {
        var kind :| kind in h;
        assert kind in h1;
      }
      forall kind | kind in h1
        ensures CleanHookList(h1[kind]) == h1[kind]
      {
        var e := h[kind];
        if e.JArr? {
          var once' := CleanHookList(e);
          var twice := CleanHookList(once');
          forall i | 0 <= i < |e.items|
            ensures twice.items[i] == once'.items[i]
          {
            StripAgentsIdempotent(e.items[i]);
          }
        }
      }
      assert CleanHooks(h1) == h1;
    }
  }

  /** Cleaning a cleaned record changes nothing more. */
  lemma CleanIdempotent(obj: Json)
    requires Cleanable(obj)
    ensures Clean(Clean(obj)) == Clean(obj)
  {
    var once := Clean(obj);
    var meta := CleanMetadata(MetadataOf(obj));
    assert CleanMetadata(meta) == meta;
    if "spec" in obj.fields && obj.fields["spec"].JObj? {
      CleanSpecIdempotent(obj.fields["spec"].fields);
    }
  }

  /** Cleaning a record cleaned by the legacy revision changes nothing more. */
  lemma CleanLegacyIdempotent(obj: Json)
    requires Cleanable(obj)
    ensures CleanLegacy(CleanLegacy(obj)) == CleanLegacy(obj)
  {
    var meta := CleanMetadata(MetadataOf(obj));
    assert CleanMetadata(meta) == meta;
    if "spec" in obj.fields && obj.fields["spec"].JObj? {
      var spec := obj.fields["spec"].fields - {"sharing"};
      assert spec - {"sharing"} == spec;
    }
  }

  /**
    The two revisions produce the same record unless the record's dict
    `spec` carries `agents` or `hooks`.
   */
  lemma RevisionsAgreeWithoutAgentsOrHooks(obj: Json)
    requires Cleanable(obj)
    requires "spec" in obj.fields && obj.fields["spec"].JObj? ==>
               "agents" !in obj.fields["spec"].fields && "hooks" !in obj.fields["spec"].fields
    ensures Clean(obj) == CleanLegacy(obj)
  {
    if "spec" in obj.fields && obj.fields["spec"].JObj? {
      var spec := obj.fields["spec"].fields;
      assert CleanSpec(spec) == spec - {"sharing"};
    }
  }

  // ---------------------------------------------------------------------
  // The cleaner as the source writes it, with its loops
  // ---------------------------------------------------------------------

  /** The `for field in [...]: meta.pop(field, None)` loop shared by both revisions. */
  method PopVolatile(meta: map<string, Json>) returns (r: map<string, Json>)
    ensures r == meta - VOLATILE_KEYS
  {
    r := meta;
    for i := 0 to |VOLATILE_FIELDS|
      invariant r == meta - (set j | 0 <= j < i :: VOLATILE_FIELDS[j])
    {
      r := r - {VOLATILE_FIELDS[i]};
    }
    ghost var visited := set j | 0 <= j < |VOLATILE_FIELDS| :: VOLATILE_FIELDS[j];
    assert visited == VOLATILE_KEYS by {
      assert VOLATILE_FIELDS[0] in visited && VOLATILE_FIELDS[1] in visited && VOLATILE_FIELDS[2] in visited;
      assert VOLATILE_FIELDS[3] in visited && VOLATILE_FIELDS[4] in visited && VOLATILE_FIELDS[5] in visited;
    }
  }

  /** `hook_item.pop("agents", None)` for every dict item of one hook list. */
  method StripListAgents(list: seq<Json>) returns (r: seq<Json>)
    ensures CleanHookList(JArr(list)) == JArr(r)
  {
    r := list;
    var i := 0;
    while i < |r|
      invariant 0 <= i <= |r| == |list|
      invariant forall j | 0 <= j < |r| :: r[j] == if j < i then StripAgents(list[j]) else list[j]
    {
      if r[i].JObj? {
        r := r[i := JObj(r[i].fields - {"agents"})];
      }
      i := i + 1;
    }
  }

  /** The loop over `hooks.items()`; each list entry has its dict items cleaned. */
  method StripHookAgents(hooks: map<string, Json>) returns (r: map<string, Json>)
    ensures r == CleanHooks(hooks)
  {
    r := hooks;
    var pending := hooks.Keys;
    while pending != {}
      invariant pending <= hooks.Keys && r.Keys == hooks.Keys
      invariant forall kind | kind in hooks ::
                  r[kind] == if kind in pending then hooks[kind] else CleanHookList(hooks[kind])
      decreases pending
    {
      var kind :| kind in pending;
      var entry := r[kind];
      if entry.JArr? {
        var list := StripListAgents(entry.items);
        r := r[kind := JArr(list)];
      }
      pending := pending - {kind};
    }
  }

  /** `remove_unwanted_fields` of the current revision. */
  method RemoveUnwantedFields(obj: Json) returns (cleaned: Json)
    requires Cleanable(obj)
    ensures cleaned == Clean(obj)
  {
    var fields := obj.fields;
    var meta := if "metadata" in fields then fields["metadata"].fields else map[];
    meta := PopVolatile(meta);
    meta := meta["project" := JStr(PROJECT)];
    fields := fields["metadata" := JObj(meta)];
    if "spec" in fields && fields["spec"].JObj? {
      var spec := fields["spec"].fields - {"sharing"};
      spec := spec - {"agents"};
      if "hooks" in spec && Truthy(spec["hooks"]) && spec["hooks"].JObj? {
        var hooks := StripHookAgents(spec["hooks"].fields);
        spec := spec["hooks" := JObj(hooks)];
      }
      assert spec == CleanSpec(obj.fields["spec"].fields);
      fields := fields["spec" := JObj(spec)];
    }
    cleaned := JObj(fields - {"status"});
  }

  /** `remove_unwanted_fields` of the legacy revision. */
  method RemoveUnwantedFieldsLegacy(obj: Json) returns (cleaned: Json)
    requires Cleanable(obj)
    ensures cleaned == CleanLegacy(obj)
  {
    var fields := obj.fields;
    var meta := if "metadata" in fields then fields["metadata"].fields else map[];
    meta := PopVolatile(meta);
    meta := meta["project" := JStr(PROJECT)];
    fields := fields["metadata" := JObj(meta)];
    if "spec" in fields && fields["spec"].JObj? {
      fields := fields["spec" := JObj(fields["spec"].fields - {"sharing"})];
    }
    cleaned := JObj(fields - {"status"});
  }
}
