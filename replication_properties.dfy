/**
  What a whole run of `replicate_objects` records and does: one entry per
  replicated version, the verdict of each POST, the writes of a directory
  target, and which versions are replicated at all.
 */
module ReplicationProperties {
  import opened Wrappers
  import opened JsonModel
  import opened Config
  import opened Endpoints
  import opened Post
  import opened Replication

  // ---------------------------------------------------------------------
  // The two report lists
  // ---------------------------------------------------------------------

  /** Every entry lands in exactly one of the two lists, successes holding no error and failures one. */
  lemma {:induction false} FiltersPartition(os: seq<Outcome>)
    ensures multiset(Successful(os)) + multiset(Failed(os)) == multiset(os)
    ensures forall o | o in Successful(os) :: o.error.None?
    ensures forall o | o in Failed(os) :: o.error.Some?
    decreases |os|
  {
    if os != [] {
      var n := |os| - 1;
      FiltersPartition(os[..n]);
      assert os == os[..n] + [os[n]];
    }
  }

  /** When no entry has an error, all of them are successes, in order. */
  lemma {:induction false} NoErrorsAllSucceed(os: seq<Outcome>)
    requires forall k | 0 <= k < |os| :: os[k].error.None?
    ensures Successful(os) == os && Failed(os) == []
    decreases |os|
  {
    if os != [] {
      var n := |os| - 1;
      NoErrorsAllSucceed(os[..n]);
      assert os == os[..n] + [os[n]];
    }
  }

  /**
    Exactly one outcome per replicated version: the successes and the
    failures of a run together are the entries of its units, each once.
   */
  lemma OneOutcomePerVersion(rev: Revision, objectType: string, source: string, target: string,
                             items: seq<Json>, fetched: seq<Option<seq<Json>>>, responses: seq<Response>)
    requires Admissible(rev, objectType, source, target, items, fetched, responses)
    ensures var r := Replicate(rev, objectType, source, target, items, fetched, responses);
            var units := Units(rev, objectType, IsUrl(source), items, fetched);
            && multiset(r.successes) + multiset(r.failures) == multiset(Outcomes(objectType, target, units, responses))
            && |r.successes| + |r.failures| == |units|
  {
    var units := Units(rev, objectType, IsUrl(source), items, fetched);
    var os := Outcomes(objectType, target, units, responses);
    FiltersPartition(os);
    assert |multiset(Successful(os)) + multiset(Failed(os))| == |multiset(os)|;
  }

  // ---------------------------------------------------------------------
  // A directory target
  // ---------------------------------------------------------------------

  /** Appending a pair keeps the earlier pairs at their places and puts the new one last. */
  lemma AppendPair<T>(before: seq<T>, pair: seq<T>, n: nat, k: nat)
    requires |before| == 2 * n && |pair| == 2 && k <= n
    ensures var ws := before + pair;
            && |ws| == 2 * (n + 1)
            && ws[2 * k] == (if k < n then before[2 * k] else pair[0])
            && ws[2 * k + 1] == (if k < n then before[2 * k + 1] else pair[1])
  {
  }

  /** Into a directory, each unit gives two writes. */
  lemma {:induction false} WritesLength(objectType: string, target: string, done: seq<Unit>)
    requires !IsUrl(target) && forall j | 0 <= j < |done| :: Deliverable(target, done[j])
    ensures |Writes(objectType, target, done)| == 2 * |done|
    decreases |done|
  {
    if done != [] {
      WritesLength(objectType, target, done[..|done| - 1]);
    }
  }

  /** The pair of writes of unit `k` sits at `2 * k`. */
  lemma {:induction false} WritesAt(objectType: string, target: string, done: seq<Unit>, k: nat)
    requires !IsUrl(target) && forall j | 0 <= j < |done| :: Deliverable(target, done[j])
    requires k < |done|
    ensures var ws := Writes(objectType, target, done);
            && 2 * k + 1 < |ws|
            && ws[2 * k] == UnitWrites(objectType, target, done[k])[0]
            && ws[2 * k + 1] == UnitWrites(objectType, target, done[k])[1]
    decreases |done|
  {
    var n := |done| - 1;
    var before := Writes(objectType, target, done[..n]);
    var pair := UnitWrites(objectType, target, done[n]);
    WritesLength(objectType, target, done[..n]);
    assert |pair| == 2;
    assert Writes(objectType, target, done) == before + pair;
    if k < n {
      WritesAt(objectType, target, done[..n], k);
      assert done[..n][k] == done[k];
    }
    AppendPair(before, pair, n, k);
  }

  /** The writes for the units `done` into a directory: the two writes of each unit, unit by unit. */
  lemma WritesToDirectory(objectType: string, target: string, done: seq<Unit>)
    requires !IsUrl(target) && forall k | 0 <= k < |done| :: Deliverable(target, done[k])
    ensures var ws := Writes(objectType, target, done);
            && |ws| == 2 * |done|
            && forall k | 0 <= k < |done| ::
                 ws[2 * k] == UnitWrites(objectType, target, done[k])[0]
                 && ws[2 * k + 1] == UnitWrites(objectType, target, done[k])[1]
  {
    WritesLength(objectType, target, done);
    if done != [] {
      forall k | 0 <= k < |done|
        ensures Writes(objectType, target, done)[2 * k] == UnitWrites(objectType, target, done[k])[0]
        ensures Writes(objectType, target, done)[2 * k + 1] == UnitWrites(objectType, target, done[k])[1]
      {
        WritesAt(objectType, target, done, k);
      }
    }
  }

  /** Each unit written into a directory gives its raw file and then its cleaned file, next to each other. */
  lemma DirectoryWrites(objectType: string, target: string, done: seq<Unit>)
    requires !IsUrl(target) && forall k | 0 <= k < |done| :: Deliverable(target, done[k])
    ensures var ws := Writes(objectType, target, done);
            && |ws| == 2 * |done|
            && forall k | 0 <= k < |done| ::
                 && ws[2 * k] == FileWrite(DiskPath(target, objectType, done[k].name, VersionName(done[k].record), true),
                                           done[k].record)
                 && ws[2 * k + 1] == FileWrite(DiskPath(target, objectType, done[k].name, VersionName(done[k].record), false),
                                               done[k].cleaned)
  {
    WritesToDirectory(objectType, target, done);
  }

  /** Nothing is POSTed to a directory. */
  lemma {:induction false} NoPostsToDirectory(rev: Revision, objectType: string, target: string, done: seq<Unit>)
    requires !IsUrl(target) && forall k | 0 <= k < |done| :: Deliverable(target, done[k])
    ensures Posts(rev, objectType, target, done) == []
    decreases |done|
  {
    if done != [] {
      NoPostsToDirectory(rev, objectType, target, done[..|done| - 1]);
    }
  }

  /**
    Replicating into a directory never fails, and nothing is POSTed: every
    version is a success, in order, entry k naming unit k's item and version.
   */
  lemma DirectoryTargetSucceeds(rev: Revision, objectType: string, source: string, target: string,
                                items: seq<Json>, fetched: seq<Option<seq<Json>>>, responses: seq<Response>)
    requires Admissible(rev, objectType, source, target, items, fetched, responses) && !IsUrl(target)
    ensures var r := Replicate(rev, objectType, source, target, items, fetched, responses);
            var units := Units(rev, objectType, IsUrl(source), items, fetched);
            && r.successes == Outcomes(objectType, target, units, responses)
            && r.failures == [] && r.posts == []
            && |r.successes| == |units|
            && forall k | 0 <= k < |units| ::
                 r.successes[k] == Outcome(objectType, units[k].name, VersionName(units[k].record), None)
  {
    var units := Units(rev, objectType, IsUrl(source), items, fetched);
    var os := Outcomes(objectType, target, units, responses);
    forall k | 0 <= k < |os|
      ensures os[k].error.None?
    {
      assert VerdictAt(target, responses, k) == Accepted;
    }
    NoErrorsAllSucceed(os);
    NoPostsToDirectory(rev, objectType, target, units);
  }

  /**
    The files written into a directory: the raw listing first when the source
    is a URL, then the writes of the units, which `DirectoryWrites` lays out.
   */
  lemma DirectoryTargetWrites(rev: Revision, objectType: string, source: string, target: string,
                              items: seq<Json>, fetched: seq<Option<seq<Json>>>, responses: seq<Response>)
    requires Admissible(rev, objectType, source, target, items, fetched, responses) && !IsUrl(target)
    ensures var r := Replicate(rev, objectType, source, target, items, fetched, responses);
            var units := Units(rev, objectType, IsUrl(source), items, fetched);
            var dump := Dump(objectType, source, target, items);
            && dump == (if IsUrl(source) then [FileWrite(RawDumpPath(target, objectType), JArr(items))] else [])
            && r.writes == dump + Writes(objectType, target, units)
            && |r.writes| == |dump| + 2 * |units|
  {
    DirectoryWrites(objectType, target, Units(rev, objectType, IsUrl(source), items, fetched));
  }

  // ---------------------------------------------------------------------
  // A URL target
  // ---------------------------------------------------------------------

  /** The POSTs for the units `done` to a URL: one per unit, of its cleaned record, to the collection URL. */
  lemma {:induction false} PostsToUrl(rev: Revision, objectType: string, target: string, done: seq<Unit>)
    requires IsUrl(target) && forall k | 0 <= k < |done| :: Deliverable(target, done[k])
    ensures var ps := Posts(rev, objectType, target, done);
            && |ps| == |done|
            && forall k | 0 <= k < |done| :: ps[k] == PostRequest(SourceUrlFor(rev, target, PROJECT, objectType), done[k].cleaned)
    decreases |done|
  {
    if done != [] {
      var n := |done| - 1;
      PostsToUrl(rev, objectType, target, done[..n]);
      var ps := Posts(rev, objectType, target, done);
      forall k | 0 <= k < n
        ensures ps[k] == PostRequest(SourceUrlFor(rev, target, PROJECT, objectType), done[k].cleaned)
      {
        assert done[..n][k] == done[k];
      }
    }
  }

  /** Nothing is written to disk for a URL target. */
  lemma {:induction false} NoWritesToUrl(objectType: string, target: string, done: seq<Unit>)
    requires IsUrl(target) && forall k | 0 <= k < |done| :: Deliverable(target, done[k])
    ensures Writes(objectType, target, done) == []
    decreases |done|
  {
    if done != [] {
      NoWritesToUrl(objectType, target, done[..|done| - 1]);
    }
  }

  /**
    Replicating to a URL writes no file and POSTs every cleaned version once,
    in order; the k-th entry is a success exactly when the k-th response has
    status 200 or 201, and a failure carries `"<status>: <body>"`.
   */
  lemma UrlTarget(rev: Revision, objectType: string, source: string, target: string,
                  items: seq<Json>, fetched: seq<Option<seq<Json>>>, responses: seq<Response>)
    requires Admissible(rev, objectType, source, target, items, fetched, responses) && IsUrl(target)
    ensures var r := Replicate(rev, objectType, source, target, items, fetched, responses);
            var units := Units(rev, objectType, IsUrl(source), items, fetched);
            var os := Outcomes(objectType, target, units, responses);
            && r.writes == []
            && |r.posts| == |units|
            && (forall k | 0 <= k < |units| ::
                  r.posts[k] == PostRequest(SourceUrlFor(rev, target, PROJECT, objectType), units[k].cleaned))
            && forall k | 0 <= k < |units| ::
                 && os[k].name == units[k].name && os[k].version == VersionName(units[k].record)
                 && (os[k].error.None? <==> responses[k].status == 200 || responses[k].status == 201)
                 && (os[k].error.Some? ==> os[k].error.value == ErrorText(responses[k].status, responses[k].body))
  {
    var units := Units(rev, objectType, IsUrl(source), items, fetched);
    PostsToUrl(rev, objectType, target, units);
    NoWritesToUrl(objectType, target, units);
  }

  /** The report line of a rejected POST ends with ` => <status>: <body>`. */
  lemma RejectedLine(objectType: string, target: string, done: seq<Unit>, responses: seq<Response>, k: nat)
    requires Ready(target, done, responses) && IsUrl(target) && k < |done|
    requires responses[k].status != 200 && responses[k].status != 201
    requires Printable(done[k].name) && Printable(VersionName(done[k].record))
    ensures var line := Describe(Outcomes(objectType, target, done, responses)[k]);
            var tail := " => " + ErrorText(responses[k].status, responses[k].body);
            |line| >= |tail| && line[|line| - |tail|..] == tail
  {
  }

  // ---------------------------------------------------------------------
  // Which versions are replicated
  // ---------------------------------------------------------------------

  /**
    A directory source, and in the current revision an unversioned type,
    replicate each listed item itself as its only version.
   */
  lemma {:induction false} ItemsAsSoleVersions(rev: Revision, objectType: string, sourceIsUrl: bool, items: seq<Json>,
                                               fetched: seq<Option<seq<Json>>>, n: nat)
    requires |fetched| == |items| && AllListed(items) && n <= |items|
    requires !sourceIsUrl || (rev == Current && Unversioned(objectType))
    ensures var us := UnitsUpTo(rev, objectType, sourceIsUrl, items, fetched, n);
            && |us| == n
            && forall i | 0 <= i < n :: us[i] == Unit(ItemName(items[i]), items[i], Cleaned(rev, items[i]))
    decreases n
  {
    if n > 0 {
      ItemsAsSoleVersions(rev, objectType, sourceIsUrl, items, fetched, n - 1);
      var before := UnitsUpTo(rev, objectType, sourceIsUrl, items, fetched, n - 1);
      var us := UnitsUpTo(rev, objectType, sourceIsUrl, items, fetched, n);
      assert SelectVersions(rev, objectType, sourceIsUrl, items[n - 1], fetched[n - 1]) == [items[n - 1]];
      var last := UnitsOf(rev, ItemName(items[n - 1]), [items[n - 1]]);
      assert us == before + last;
      forall i | 0 <= i < n
        ensures us[i] == Unit(ItemName(items[i]), items[i], Cleaned(rev, items[i]))
      {
        if i < n - 1 {
          assert us[i] == before[i];
        } else {
          assert us[i] == last[0];
        }
      }
    }
  }

  /**
    A URL source with a versioned type (or any type in the legacy revision)
    replicates the fetched versions of an item, or the item itself when the
    versions request failed.
   */
  lemma FetchedVersionsReplicated(rev: Revision, objectType: string, item: Json, fetched: Option<seq<Json>>)
    requires rev == Legacy || !Unversioned(objectType)
    ensures SelectVersions(rev, objectType, true, item, fetched) == if fetched.Some? then fetched.value else [item]
  {
  }

  /** The revisions choose different versions only for an unversioned type read from a URL whose versions were fetched. */
  lemma RevisionsSelectAlike(objectType: string, sourceIsUrl: bool, item: Json, fetched: Option<seq<Json>>)
    ensures SelectVersions(Current, objectType, sourceIsUrl, item, fetched) != SelectVersions(Legacy, objectType, sourceIsUrl, item, fetched)
            <==> sourceIsUrl && Unversioned(objectType) && fetched.Some? && fetched.value != [item]
  {
  }

  /** For a versioned type both revisions replicate the same records under the same names, in the same order. */
  lemma {:induction false} UnitsAgreeForVersionedTypes(objectType: string, sourceIsUrl: bool, items: seq<Json>,
                                                       fetched: seq<Option<seq<Json>>>, n: nat)
    requires |fetched| == |items| && AllListed(items) && n <= |items| && !Unversioned(objectType)
    ensures var current := UnitsUpTo(Current, objectType, sourceIsUrl, items, fetched, n);
            var legacy := UnitsUpTo(Legacy, objectType, sourceIsUrl, items, fetched, n);
            && |current| == |legacy|
            && forall k | 0 <= k < |current| :: current[k].name == legacy[k].name && current[k].record == legacy[k].record
    decreases n
  {
    if n > 0 {
      UnitsAgreeForVersionedTypes(objectType, sourceIsUrl, items, fetched, n - 1);
      var current := UnitsUpTo(Current, objectType, sourceIsUrl, items, fetched, n);
      var legacy := UnitsUpTo(Legacy, objectType, sourceIsUrl, items, fetched, n);
      var c0 := UnitsUpTo(Current, objectType, sourceIsUrl, items, fetched, n - 1);
      var l0 := UnitsUpTo(Legacy, objectType, sourceIsUrl, items, fetched, n - 1);
      var vs := SelectVersions(Current, objectType, sourceIsUrl, items[n - 1], fetched[n - 1]);
      assert vs == SelectVersions(Legacy, objectType, sourceIsUrl, items[n - 1], fetched[n - 1]);
      var cl := UnitsOf(Current, ItemName(items[n - 1]), vs);
      var ll := UnitsOf(Legacy, ItemName(items[n - 1]), vs);
      assert current == c0 + cl && legacy == l0 + ll;
      forall k | 0 <= k < |current|
        ensures current[k].name == legacy[k].name && current[k].record == legacy[k].record
      {
        if k < |c0| {
          assert current[k] == c0[k] && legacy[k] == l0[k];
        } else {
          assert current[k] == cl[k - |c0|] && legacy[k] == ll[k - |c0|];
        }
      }
    }
  }
}
