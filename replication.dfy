/**
  `replicate_objects` of both revisions: the per-type loop that picks the
  versions of every listed item, cleans each version, writes it to disk or
  POSTs it, and accumulates one success or failure entry per version.

  Everything the loop gets from the network or the disk is an input:
  `items` is the listing (the GET response's `items`, or the parsed files),
  `fetched[i]` is the version request's result for `items[i]` (`None` when
  it raised), and `responses[k]` is the target's answer to the k-th POST.
  Everything it does to the outside is an output: the files it writes and
  the POSTs it sends, in order.
 */
module Replication {
  import opened Wrappers
  import opened JsonModel
  import opened Config
  import opened Cleaner
  import opened Endpoints
  import opened Post

  // ---------------------------------------------------------------------
  // Items, versions and replication units
  // ---------------------------------------------------------------------

  /** An item the loop can name: `item["metadata"].get(...)` needs a dict `metadata`. */
  predicate Listed(item: Json) {
    item.JObj? && "metadata" in item.fields && item.fields["metadata"].JObj?
  }

  predicate AllListed(items: seq<Json>) {
    forall i | 0 <= i < |items| :: Listed(items[i])
  }

  /** `item["metadata"].get("name", "<unknown>")`. */
  function ItemName(item: Json): Json
    requires Listed(item)
  {
    Get(item.fields["metadata"].fields, "name", JStr("<unknown>"))
  }

  /** A version the loop can process: the cleaner accepts it and `.get("spec", {})` yields a dict. */
  predicate Replicable(v: Json) {
    Cleanable(v) && ("spec" in v.fields ==> v.fields["spec"].JObj?)
  }

  /** `version_obj.get("spec", {}).get("version")`, with Python's `None` as `JNull`. */
  function VersionName(v: Json): Json
    requires Replicable(v)
  {
    if "spec" in v.fields then Get(v.fields["spec"].fields, "version", JNull) else JNull
  }

  /**
    The versions of one item that are replicated. A directory source, and in
    the current revision an unversioned type, yield the item itself; otherwise
    the fetched list, or the item itself when the fetch failed.
   */
  function SelectVersions(rev: Revision, objectType: string, sourceIsUrl: bool, item: Json,
                          fetched: Option<seq<Json>>): seq<Json>
  {
    if !sourceIsUrl then [item]
    else if rev == Current && Unversioned(objectType) then [item]
    else match fetched
      case Some(versions) => versions
      case None => [item]
  }

  /**
    What the revision's `remove_unwanted_fields` makes of a version. A record
    the cleaner cannot take is kept as it is; such a record never reaches the
    cleaner, since `Deliverable` excludes it.
   */
  function Cleaned(rev: Revision, v: Json): Json {
    if Cleanable(v) then CleanFor(rev, v) else v
  }

  /** One version to replicate: the name of its item, the record, and the record cleaned. */
  datatype Unit = Unit(name: Json, record: Json, cleaned: Json)

  function UnitsOf(rev: Revision, name: Json, versions: seq<Json>): (us: seq<Unit>)
    ensures |us| == |versions|
    ensures forall j | 0 <= j < |versions| :: us[j] == Unit(name, versions[j], Cleaned(rev, versions[j]))
  {
    seq(|versions|, j requires 0 <= j < |versions| => Unit(name, versions[j], Cleaned(rev, versions[j])))
  }

  /** The units of the first `n` items, item by item and, within an item, version by version. */
  function UnitsUpTo(rev: Revision, objectType: string, sourceIsUrl: bool, items: seq<Json>,
                     fetched: seq<Option<seq<Json>>>, n: nat): seq<Unit>
    requires |fetched| == |items| && AllListed(items) && n <= |items|
  {
    if n == 0 then []
    else
      UnitsUpTo(rev, objectType, sourceIsUrl, items, fetched, n - 1)
        + UnitsOf(rev, ItemName(items[n - 1]), SelectVersions(rev, objectType, sourceIsUrl, items[n - 1], fetched[n - 1]))
  }

  /** All units of a run. */
  function Units(rev: Revision, objectType: string, sourceIsUrl: bool, items: seq<Json>,
                 fetched: seq<Option<seq<Json>>>): seq<Unit>
    requires |fetched| == |items| && AllListed(items)
  {
    UnitsUpTo(rev, objectType, sourceIsUrl, items, fetched, |items|)
  }

  // ---------------------------------------------------------------------
  // Outcomes and effects
  // ---------------------------------------------------------------------

  /**
    One entry of the report: the success text is
    `f"{object_type}/{name} ({version_name})"`, a failure adds ` => <error>`.
   */
  datatype Outcome = Outcome(objectType: string, name: Json, version: Json, error: Option<string>)

  datatype FileWrite = FileWrite(path: seq<string>, content: Json)

  datatype PostRequest = PostRequest(url: string, payload: Json)

  /** The loop's results and effects. */
  datatype Report = Report(successes: seq<Outcome>, failures: seq<Outcome>,
                           writes: seq<FileWrite>, posts: seq<PostRequest>)

  /** A unit the loop can deliver: a disk target also needs a file name for it. */
  predicate Deliverable(target: string, u: Unit) {
    Replicable(u.record) && (!IsUrl(target) ==> Nameable(u.name, VersionName(u.record)))
  }

  /** Units the loop can deliver, with one response for each when the target is a URL. */
  predicate Ready(target: string, done: seq<Unit>, responses: seq<Response>) {
    && (forall k | 0 <= k < |done| :: Deliverable(target, done[k]))
    && (IsUrl(target) ==> |done| <= |responses|)
  }

  /** How the k-th unit fared: the target's verdict on its POST; a disk write always counts as accepted. */
  function VerdictAt(target: string, responses: seq<Response>, k: nat): PostResult
    requires IsUrl(target) ==> k < |responses|
  {
    if IsUrl(target) then ClassifyPost(responses[k]) else Accepted
  }

  /** The entry recorded for a unit with the given verdict. */
  function OutcomeOf(objectType: string, u: Unit, verdict: PostResult): Outcome
    requires Replicable(u.record)
  {
    Outcome(objectType, u.name, VersionName(u.record), if verdict.Accepted? then None else Some(verdict.error))
  }

  /** The entries for the units `done`, one per unit, in order. */
  function Outcomes(objectType: string, target: string, done: seq<Unit>, responses: seq<Response>): (os: seq<Outcome>)
    requires Ready(target, done, responses)
    ensures |os| == |done|
  {
    seq(|done|, k requires 0 <= k < |done| => OutcomeOf(objectType, done[k], VerdictAt(target, responses, k)))
  }

  /** The entries that were successes, in order. */
  function Successful(os: seq<Outcome>): seq<Outcome>
    decreases |os|
  {
    if os == [] then []
    else Successful(os[..|os| - 1]) + (if os[|os| - 1].error.None? then [os[|os| - 1]] else [])
  }

  /** The entries that were failures, in order. */
  function Failed(os: seq<Outcome>): seq<Outcome>
    decreases |os|
  {
    if os == [] then []
    else Failed(os[..|os| - 1]) + (if os[|os| - 1].error.Some? then [os[|os| - 1]] else [])
  }

  /** The two `save_to_disk` calls for one unit: the raw version, then the cleaned one. */
  function UnitWrites(objectType: string, target: string, u: Unit): seq<FileWrite>
    requires Deliverable(target, u)
  {
    if IsUrl(target) then []
    else
      var version := VersionName(u.record);
      [ FileWrite(DiskPath(target, objectType, u.name, version, true), u.record),
        FileWrite(DiskPath(target, objectType, u.name, version, false), u.cleaned) ]
  }

  /** The POST of one unit's cleaned record to the target's collection URL. */
  function UnitPosts(rev: Revision, objectType: string, target: string, u: Unit): seq<PostRequest>
    requires Deliverable(target, u)
  {
    if IsUrl(target) then [PostRequest(SourceUrlFor(rev, target, PROJECT, objectType), u.cleaned)]
    else []
  }

  function Writes(objectType: string, target: string, done: seq<Unit>): seq<FileWrite>
    requires forall k | 0 <= k < |done| :: Deliverable(target, done[k])
    decreases |done|
  {
    if done == [] then []
    else Writes(objectType, target, done[..|done| - 1]) + UnitWrites(objectType, target, done[|done| - 1])
  }

  function Posts(rev: Revision, objectType: string, target: string, done: seq<Unit>): seq<PostRequest>
    requires forall k | 0 <= k < |done| :: Deliverable(target, done[k])
    decreases |done|
  {
    if done == [] then []
    else Posts(rev, objectType, target, done[..|done| - 1]) + UnitPosts(rev, objectType, target, done[|done| - 1])
  }

  /** What delivering the units `done`, in order, records and does. */
  function Deliver(rev: Revision, objectType: string, target: string, done: seq<Unit>, responses: seq<Response>): Report
    requires Ready(target, done, responses)
  {
    var os := Outcomes(objectType, target, done, responses);
    Report(Successful(os), Failed(os), Writes(objectType, target, done), Posts(rev, objectType, target, done))
  }

  /** What `replicate_objects` demands of its inputs, and one response per POST it will send. */
  predicate Admissible(rev: Revision, objectType: string, source: string, target: string,
                       items: seq<Json>, fetched: seq<Option<seq<Json>>>, responses: seq<Response>)
  {
    && |fetched| == |items| && AllListed(items)
    && var units := Units(rev, objectType, IsUrl(source), items, fetched);
       && (forall k | 0 <= k < |units| :: Deliverable(target, units[k]))
       && (IsUrl(target) ==> |responses| == |units|)
  }

  /** The raw listing dump, written only when a URL source replicates to a directory. */
  function Dump(objectType: string, source: string, target: string, items: seq<Json>): seq<FileWrite> {
    if IsUrl(source) && !IsUrl(target) then [FileWrite(RawDumpPath(target, objectType), JArr(items))] else []
  }

  /** The whole run of `replicate_objects` for one object type. */
  function Replicate(rev: Revision, objectType: string, source: string, target: string,
                     items: seq<Json>, fetched: seq<Option<seq<Json>>>, responses: seq<Response>): Report
    requires Admissible(rev, objectType, source, target, items, fetched, responses)
  {
    var units := Units(rev, objectType, IsUrl(source), items, fetched);
    var d := Deliver(rev, objectType, target, units, responses);
    Report(d.successes, d.failures, Dump(objectType, source, target, items) + d.writes, d.posts)
  }

  /** The text of one report line. */
  function Describe(o: Outcome): (r: string)
    requires Printable(o.name) && Printable(o.version)
    ensures o.error.Some? ==> |r| >= |o.error.value| + 4 && r[|r| - |o.error.value| - 4..] == " => " + o.error.value
  {
    var line := o.objectType + "/" + Text(o.name) + " (" + Text(o.version) + ")";
    match o.error
    case None => line
    case Some(e) => line + " => " + e
  }

  // ---------------------------------------------------------------------
  // Lemmas the loop's proof rests on
  // ---------------------------------------------------------------------

  lemma {:induction false} UnitsPrefix(rev: Revision, objectType: string, sourceIsUrl: bool, items: seq<Json>,
                                       fetched: seq<Option<seq<Json>>>, i: nat, n: nat)
    requires |fetched| == |items| && AllListed(items) && i <= n <= |items|
    ensures UnitsUpTo(rev, objectType, sourceIsUrl, items, fetched, i) <= UnitsUpTo(rev, objectType, sourceIsUrl, items, fetched, n)
    decreases n
  {
    if i < n {
      UnitsPrefix(rev, objectType, sourceIsUrl, items, fetched, i, n - 1);
    }
  }

  lemma ReadyPrefix(target: string, s: seq<Unit>, n: nat, responses: seq<Response>)
    requires Ready(target, s, responses) && n <= |s|
    ensures Ready(target, s[..n], responses)
  {
  }

  /** The entries of a prefix of the units are a prefix of the entries. */
  lemma OutcomesPrefix(objectType: string, target: string, done: seq<Unit>, responses: seq<Response>, n: nat)
    requires Ready(target, done, responses) && n <= |done|
    ensures Ready(target, done[..n], responses)
    ensures Outcomes(objectType, target, done, responses)[..n] == Outcomes(objectType, target, done[..n], responses)
  {
  }

  /** Writes and POSTs of all units but the last, then those of the last. */
  lemma EffectsStep(rev: Revision, objectType: string, target: string, done: seq<Unit>, responses: seq<Response>)
    requires Ready(target, done, responses) && done != []
    ensures Ready(target, done[..|done| - 1], responses)
    ensures var n := |done| - 1;
            && Writes(objectType, target, done) == Writes(objectType, target, done[..n]) + UnitWrites(objectType, target, done[n])
            && Posts(rev, objectType, target, done) == Posts(rev, objectType, target, done[..n]) + UnitPosts(rev, objectType, target, done[n])
  {
  }

  /** What delivering all units but the last records and does, then what the last one adds. */
  lemma DeliverStep(rev: Revision, objectType: string, target: string, done: seq<Unit>, responses: seq<Response>)
    requires Ready(target, done, responses) && done != []
    ensures Ready(target, done[..|done| - 1], responses)
    ensures var n := |done| - 1;
            var before := Deliver(rev, objectType, target, done[..n], responses);
            var after := Deliver(rev, objectType, target, done, responses);
            var o := OutcomeOf(objectType, done[n], VerdictAt(target, responses, n));
            && after.successes == before.successes + (if o.error.None? then [o] else [])
            && after.failures == before.failures + (if o.error.Some? then [o] else [])
            && after.writes == before.writes + UnitWrites(objectType, target, done[n])
            && after.posts == before.posts + UnitPosts(rev, objectType, target, done[n])
  {
    var n := |done| - 1;
    var os := Outcomes(objectType, target, done, responses);
    OutcomesPrefix(objectType, target, done, responses, n);
    assert os[..n] == os[..|os| - 1];
    EffectsStep(rev, objectType, target, done, responses);
  }

  // ---------------------------------------------------------------------
  // The loop
  // ---------------------------------------------------------------------

  /** The body of the inner loop for one version: its writes or its POST, and the entry it records. */
  method ReplicateVersion(rev: Revision, objectType: string, target: string, name: Json, version: Json,
                          responses: seq<Response>, sent: nat)
    returns (entry: Outcome, unitWrites: seq<FileWrite>, unitPosts: seq<PostRequest>)
    requires Deliverable(target, Unit(name, version, Cleaned(rev, version)))
    requires IsUrl(target) ==> sent < |responses|
    ensures unitWrites == UnitWrites(objectType, target, Unit(name, version, Cleaned(rev, version)))
    ensures unitPosts == UnitPosts(rev, objectType, target, Unit(name, version, Cleaned(rev, version)))
    ensures entry == OutcomeOf(objectType, Unit(name, version, Cleaned(rev, version)), VerdictAt(target, responses, sent))
  {
    var targetIsUrl := IsUrl(target);
    var versionName := VersionName(version);
    var cleaned: Json;
    if rev == Current {
      cleaned := RemoveUnwantedFields(version);
    } else {
      cleaned := RemoveUnwantedFieldsLegacy(version);
    }
    unitWrites, unitPosts := [], [];
    if !targetIsUrl {
      unitWrites := unitWrites + [FileWrite(DiskPath(target, objectType, name, versionName, true), version)];
      unitWrites := unitWrites + [FileWrite(DiskPath(target, objectType, name, versionName, false), cleaned)];
    }
    if targetIsUrl {
      unitPosts := [PostRequest(SourceUrlFor(rev, target, PROJECT, objectType), cleaned)];
      var result := ClassifyPost(responses[sent]);
      if result.Accepted? {
        entry := Outcome(objectType, name, versionName, None);
      } else {
        entry := Outcome(objectType, name, versionName, Some(result.error));
      }
    } else {
      entry := Outcome(objectType, name, versionName, None);
    }
  }

  /** What delivering one unit records and does: its entry, its file writes and its POSTs. */
  datatype Delivery = Delivery(entry: Outcome, writes: seq<FileWrite>, posts: seq<PostRequest>)

  /** The delivery of the k-th unit of `done`. */
  function DeliveryAt(rev: Revision, objectType: string, target: string, done: seq<Unit>, responses: seq<Response>,
                      k: nat): Delivery
    requires Ready(target, done, responses) && k < |done|
  {
    Delivery(OutcomeOf(objectType, done[k], VerdictAt(target, responses, k)),
             UnitWrites(objectType, target, done[k]), UnitPosts(rev, objectType, target, done[k]))
  }

  /** The deliveries of the units `done`, one per unit, in order. */
  function Deliveries(rev: Revision, objectType: string, target: string, done: seq<Unit>, responses: seq<Response>)
    : (ds: seq<Delivery>)
    requires Ready(target, done, responses)
    ensures |ds| == |done|
    ensures forall k | 0 <= k < |done| :: ds[k] == DeliveryAt(rev, objectType, target, done, responses, k)
  {
    seq(|done|, k requires 0 <= k < |done| => DeliveryAt(rev, objectType, target, done, responses, k))
  }

  /** The report the loop accumulates from the first `n` deliveries of `ds`, taken one after another. */
  function Collect(ds: seq<Delivery>, n: nat): Report
    requires n <= |ds|
  {
    if n == 0 then Report([], [], [], [])
    else
      var r := Collect(ds, n - 1);
      var d := ds[n - 1];
      Report(r.successes + (if d.entry.error.None? then [d.entry] else []),
             r.failures + (if d.entry.error.Some? then [d.entry] else []),
             r.writes + d.writes, r.posts + d.posts)
  }

  /** The deliveries of a prefix of the units are a prefix of the deliveries. */
  lemma DeliveriesPrefix(rev: Revision, objectType: string, target: string, done: seq<Unit>, responses: seq<Response>, n: nat)
    requires Ready(target, done, responses) && n <= |done|
    ensures Ready(target, done[..n], responses)
    ensures Deliveries(rev, objectType, target, done, responses)[..n] == Deliveries(rev, objectType, target, done[..n], responses)
  {
    ReadyPrefix(target, done, n, responses);
    var ds := Deliveries(rev, objectType, target, done, responses);
    var ds' := Deliveries(rev, objectType, target, done[..n], responses);
    forall k | 0 <= k < n
      ensures ds[k] == ds'[k]
    {
      assert done[..n][k] == done[k];
    }
  }

  /** Collecting the deliveries one by one gives what `Deliver` records and does. */
  lemma {:induction false} CollectIsDeliver(rev: Revision, objectType: string, target: string, done: seq<Unit>,
                                            responses: seq<Response>)
    requires Ready(target, done, responses)
    ensures Collect(Deliveries(rev, objectType, target, done, responses), |done|) == Deliver(rev, objectType, target, done, responses)
    decreases |done|
  {
    if done != [] {
      var n := |done| - 1;
      var ds := Deliveries(rev, objectType, target, done, responses);
      DeliveriesPrefix(rev, objectType, target, done, responses, n);
      CollectIsDeliver(rev, objectType, target, done[..n], responses);
      CollectAgrees(ds, Deliveries(rev, objectType, target, done[..n], responses), n);
      DeliverStep(rev, objectType, target, done, responses);
      var r := Collect(ds, n);
      var d := ds[n];
      assert d == DeliveryAt(rev, objectType, target, done, responses, n);
      assert Collect(ds, n + 1) == Report(r.successes + (if d.entry.error.None? then [d.entry] else []),
                                          r.failures + (if d.entry.error.Some? then [d.entry] else []),
                                          r.writes + d.writes, r.posts + d.posts);
    }
  }

  /** Collecting depends only on the deliveries collected. */
  lemma {:induction false} CollectAgrees(ds: seq<Delivery>, ds': seq<Delivery>, n: nat)
    requires n <= |ds| && n <= |ds'| && ds[..n] == ds'[..n]
    ensures Collect(ds, n) == Collect(ds', n)
  {
    if n > 0 {
      assert ds[..n - 1] == ds[..n][..n - 1] && ds'[..n - 1] == ds'[..n][..n - 1];
      CollectAgrees(ds, ds', n - 1);
      assert ds[n - 1] == ds[..n][n - 1];
      assert ds'[n - 1] == ds'[..n][n - 1];
    }
  }

  /** The four lists are what the first `n` deliveries add up to, after the writes in `dump`. */
  predicate Recorded(ds: seq<Delivery>, n: nat, dump: seq<FileWrite>, successes: seq<Outcome>, failures: seq<Outcome>,
                     writes: seq<FileWrite>, posts: seq<PostRequest>)
    requires n <= |ds|
  {
    var r := Collect(ds, n);
    successes == r.successes && failures == r.failures && writes == dump + r.writes && posts == r.posts
  }

  /** One pass of the inner loop: perform delivery `sent` and record it. */
  method DeliverVersion(rev: Revision, objectType: string, target: string, name: Json, version: Json,
                        responses: seq<Response>, ghost ds: seq<Delivery>, sent: nat, ghost dump: seq<FileWrite>,
                        successes0: seq<Outcome>, failures0: seq<Outcome>, writes0: seq<FileWrite>, posts0: seq<PostRequest>)
    returns (successes: seq<Outcome>, failures: seq<Outcome>, writes: seq<FileWrite>, posts: seq<PostRequest>)
    requires Deliverable(target, Unit(name, version, Cleaned(rev, version)))
    requires IsUrl(target) ==> sent < |responses|
    requires sent < |ds|
    requires ds[sent] == var u := Unit(name, version, Cleaned(rev, version));
                         Delivery(OutcomeOf(objectType, u, VerdictAt(target, responses, sent)),
                                  UnitWrites(objectType, target, u), UnitPosts(rev, objectType, target, u))
    requires Recorded(ds, sent, dump, successes0, failures0, writes0, posts0)
    ensures Recorded(ds, sent + 1, dump, successes, failures, writes, posts)
  {
    var entry, unitWrites, unitPosts := ReplicateVersion(rev, objectType, target, name, version, responses, sent);
    successes := if entry.error.None? then successes0 + [entry] else successes0;
    failures := if entry.error.Some? then failures0 + [entry] else failures0;
    writes := writes0 + unitWrites;
    posts := posts0 + unitPosts;
  }

  /** The inner loop of `replicate_objects`: every version of one item, in order. */
  method ReplicateItem(rev: Revision, objectType: string, target: string, name: Json, versions: seq<Json>,
                       responses: seq<Response>, ghost ds: seq<Delivery>, ghost dump: seq<FileWrite>,
                       successes0: seq<Outcome>, failures0: seq<Outcome>, writes0: seq<FileWrite>,
                       posts0: seq<PostRequest>, sent0: nat)
    returns (successes: seq<Outcome>, failures: seq<Outcome>, writes: seq<FileWrite>, posts: seq<PostRequest>, sent: nat)
    requires sent0 + |versions| <= |ds|
    requires forall j | 0 <= j < |versions| :: Scheduled(rev, objectType, target, name, versions[j], responses, ds, sent0 + j)
    requires Recorded(ds, sent0, dump, successes0, failures0, writes0, posts0)
    ensures sent == sent0 + |versions|
    ensures Recorded(ds, sent, dump, successes, failures, writes, posts)
  {
    successes, failures, writes, posts, sent := successes0, failures0, writes0, posts0, sent0;
    for j := 0 to |versions|
      invariant sent == sent0 + j
      invariant Recorded(ds, sent, dump, successes, failures, writes, posts)
    {
      assert Scheduled(rev, objectType, target, name, versions[j], responses, ds, sent0 + j);
      successes, failures, writes, posts :=
        DeliverVersion(rev, objectType, target, name, versions[j], responses, ds, sent, dump,
                       successes, failures, writes, posts);
      sent := sent + 1;
    }
  }

  /** Delivery `k` is that of the given version of the named item. */
  predicate Scheduled(rev: Revision, objectType: string, target: string, name: Json, version: Json,
                      responses: seq<Response>, ds: seq<Delivery>, k: nat)
  {
    var u := Unit(name, version, Cleaned(rev, version));
    && Deliverable(target, u) && (IsUrl(target) ==> k < |responses|) && k < |ds|
    && ds[k] == Delivery(OutcomeOf(objectType, u, VerdictAt(target, responses, k)),
                         UnitWrites(objectType, target, u), UnitPosts(rev, objectType, target, u))
  }

  /** The units of item `i` follow those of the items before it among the units of the whole run. */
  lemma ItemUnits(rev: Revision, objectType: string, sourceIsUrl: bool, items: seq<Json>,
                  fetched: seq<Option<seq<Json>>>, i: nat)
    requires |fetched| == |items| && AllListed(items) && i < |items|
    ensures var all := Units(rev, objectType, sourceIsUrl, items, fetched);
            var before := UnitsUpTo(rev, objectType, sourceIsUrl, items, fetched, i);
            var after := UnitsUpTo(rev, objectType, sourceIsUrl, items, fetched, i + 1);
            var versions := SelectVersions(rev, objectType, sourceIsUrl, items[i], fetched[i]);
            && |after| == |before| + |versions| <= |all|
            && (forall j | 0 <= j < |versions| ::
                  all[|before| + j] == Unit(ItemName(items[i]), versions[j], Cleaned(rev, versions[j])))
  {
    var all := Units(rev, objectType, sourceIsUrl, items, fetched);
    var before := UnitsUpTo(rev, objectType, sourceIsUrl, items, fetched, i);
    var after := UnitsUpTo(rev, objectType, sourceIsUrl, items, fetched, i + 1);
    var versions := SelectVersions(rev, objectType, sourceIsUrl, items[i], fetched[i]);
    UnitsPrefix(rev, objectType, sourceIsUrl, items, fetched, i + 1, |items|);
    assert after == before + UnitsOf(rev, ItemName(items[i]), versions);
    forall j | 0 <= j < |versions|
      ensures all[|before| + j] == Unit(ItemName(items[i]), versions[j], Cleaned(rev, versions[j]))
    {
      assert after[|before| + j] == UnitsOf(rev, ItemName(items[i]), versions)[j];
      assert all[|before| + j] == after[|before| + j];
    }
  }

  /** A unit of the run is scheduled at its own place among the run's deliveries. */
  lemma ScheduledAt(rev: Revision, objectType: string, target: string, all: seq<Unit>, responses: seq<Response>,
                    k: nat, name: Json, version: Json)
    requires Ready(target, all, responses) && k < |all| && all[k] == Unit(name, version, Cleaned(rev, version))
    ensures Scheduled(rev, objectType, target, name, version, responses, Deliveries(rev, objectType, target, all, responses), k)
  {
    assert Deliverable(target, all[k]);
    assert Deliveries(rev, objectType, target, all, responses)[k] == DeliveryAt(rev, objectType, target, all, responses, k);
  }

  /** Each version of item `i` is scheduled at its place among the deliveries of the whole run. */
  lemma ItemScheduled(rev: Revision, objectType: string, sourceIsUrl: bool, target: string, items: seq<Json>,
                      fetched: seq<Option<seq<Json>>>, responses: seq<Response>, i: nat, versions: seq<Json>, sent0: nat)
    requires |fetched| == |items| && AllListed(items) && i < |items|
    requires Ready(target, Units(rev, objectType, sourceIsUrl, items, fetched), responses)
    requires versions == SelectVersions(rev, objectType, sourceIsUrl, items[i], fetched[i])
    requires sent0 == |UnitsUpTo(rev, objectType, sourceIsUrl, items, fetched, i)|
    ensures var ds := Deliveries(rev, objectType, target, Units(rev, objectType, sourceIsUrl, items, fetched), responses);
            && sent0 + |versions| == |UnitsUpTo(rev, objectType, sourceIsUrl, items, fetched, i + 1)| <= |ds|
            && (forall j | 0 <= j < |versions| ::
                  Scheduled(rev, objectType, target, ItemName(items[i]), versions[j], responses, ds, sent0 + j))
  {
    var all := Units(rev, objectType, sourceIsUrl, items, fetched);
    ItemUnits(rev, objectType, sourceIsUrl, items, fetched, i);
    forall j | 0 <= j < |versions|
      ensures Scheduled(rev, objectType, target, ItemName(items[i]), versions[j], responses,
                        Deliveries(rev, objectType, target, all, responses), sent0 + j)
    {
      ScheduledAt(rev, objectType, target, all, responses, sent0 + j, ItemName(items[i]), versions[j]);
    }
  }

  /** Before the first item nothing is recorded but the dump; after the last, the lists are the whole run's report. */
  lemma RecordedRun(rev: Revision, objectType: string, source: string, target: string,
                    items: seq<Json>, fetched: seq<Option<seq<Json>>>, responses: seq<Response>,
                    successes: seq<Outcome>, failures: seq<Outcome>, writes: seq<FileWrite>, posts: seq<PostRequest>)
    requires Admissible(rev, objectType, source, target, items, fetched, responses)
    ensures Ready(target, Units(rev, objectType, IsUrl(source), items, fetched), responses)
    ensures var ds := Deliveries(rev, objectType, target, Units(rev, objectType, IsUrl(source), items, fetched), responses);
            && UnitsUpTo(rev, objectType, IsUrl(source), items, fetched, 0) == []
            && Recorded(ds, 0, Dump(objectType, source, target, items), [], [], Dump(objectType, source, target, items), [])
            && (Recorded(ds, |ds|, Dump(objectType, source, target, items),
                         successes, failures, writes, posts)
                ==> Report(successes, failures, writes, posts) == Replicate(rev, objectType, source, target, items, fetched, responses))
  {
    var units := Units(rev, objectType, IsUrl(source), items, fetched);
    var ds := Deliveries(rev, objectType, target, units, responses);
    CollectIsDeliver(rev, objectType, target, units, responses);
  }

  /** One pass of the outer loop: choose the versions of item `i` and replicate each of them. */
  method ReplicateListed(rev: Revision, objectType: string, sourceIsUrl: bool, target: string,
                         items: seq<Json>, fetched: seq<Option<seq<Json>>>, responses: seq<Response>, i: nat,
                         ghost dump: seq<FileWrite>, successes0: seq<Outcome>, failures0: seq<Outcome>,
                         writes0: seq<FileWrite>, posts0: seq<PostRequest>, sent0: nat)
    returns (successes: seq<Outcome>, failures: seq<Outcome>, writes: seq<FileWrite>, posts: seq<PostRequest>, sent: nat)
    requires |fetched| == |items| && AllListed(items) && i < |items|
    requires Ready(target, Units(rev, objectType, sourceIsUrl, items, fetched), responses)
    requires sent0 == |UnitsUpTo(rev, objectType, sourceIsUrl, items, fetched, i)|
    requires sent0 <= |Units(rev, objectType, sourceIsUrl, items, fetched)|
    requires Recorded(Deliveries(rev, objectType, target, Units(rev, objectType, sourceIsUrl, items, fetched), responses), sent0,
                      dump, successes0, failures0, writes0, posts0)
    ensures sent == |UnitsUpTo(rev, objectType, sourceIsUrl, items, fetched, i + 1)|
    ensures sent <= |Units(rev, objectType, sourceIsUrl, items, fetched)|
    ensures Recorded(Deliveries(rev, objectType, target, Units(rev, objectType, sourceIsUrl, items, fetched), responses), sent,
                     dump, successes, failures, writes, posts)
  {
    var versions := SelectVersions(rev, objectType, sourceIsUrl, items[i], fetched[i]);
    ItemScheduled(rev, objectType, sourceIsUrl, target, items, fetched, responses, i, versions, sent0);
    successes, failures, writes, posts, sent :=
      ReplicateItem(rev, objectType, target, ItemName(items[i]), versions, responses,
                    Deliveries(rev, objectType, target, Units(rev, objectType, sourceIsUrl, items, fetched), responses),
                    dump, successes0, failures0, writes0, posts0, sent0);
  }

  /** `replicate_objects` of the given revision. */
  method ReplicateObjects(rev: Revision, objectType: string, source: string, target: string,
                          items: seq<Json>, fetched: seq<Option<seq<Json>>>, responses: seq<Response>)
    returns (successes: seq<Outcome>, failures: seq<Outcome>, writes: seq<FileWrite>, posts: seq<PostRequest>)
    requires Admissible(rev, objectType, source, target, items, fetched, responses)
    ensures Report(successes, failures, writes, posts) == Replicate(rev, objectType, source, target, items, fetched, responses)
  {
    var sourceIsUrl := IsUrl(source);
    writes := Dump(objectType, source, target, items);
    successes, failures, posts := [], [], [];
    ghost var dump := writes;
    var sent := 0;
    RecordedRun(rev, objectType, source, target, items, fetched, responses, [], [], [], []);
    ghost var ds := Deliveries(rev, objectType, target, Units(rev, objectType, sourceIsUrl, items, fetched), responses);

    for i := 0 to |items|
      invariant sent == |UnitsUpTo(rev, objectType, sourceIsUrl, items, fetched, i)| && sent <= |ds|
      invariant Recorded(ds, sent, dump, successes, failures, writes, posts)
    {
      successes, failures, writes, posts, sent :=
        ReplicateListed(rev, objectType, sourceIsUrl, target, items, fetched, responses, i, dump,
                        successes, failures, writes, posts, sent);
    }
    RecordedRun(rev, objectType, source, target, items, fetched, responses, successes, failures, writes, posts);
  }
}
