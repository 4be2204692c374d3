/**
  What a run sends and writes for each version is the record with the
  unwanted fields removed: `remove_unwanted_fields` in the current revision,
  its older form in the legacy one.
 */
module ReplicationPayloads {
  import opened Wrappers
  import opened JsonModel
  import opened Config
  import opened Cleaner
  import opened Endpoints
  import opened Post
  import opened Replication
  import opened ReplicationProperties

  /** Every unit carries its own record cleaned for the revision. */
  predicate UnitsClean(rev: Revision, us: seq<Unit>) {
    forall k | 0 <= k < |us| :: us[k].cleaned == Cleaned(rev, us[k].record)
  }

  /** The units of the first `n` items each carry their record cleaned. */
  lemma {:induction false} UnitsUpToClean(rev: Revision, objectType: string, sourceIsUrl: bool, items: seq<Json>,
                                          fetched: seq<Option<seq<Json>>>, n: nat)
    requires |fetched| == |items| && AllListed(items) && n <= |items|
    ensures UnitsClean(rev, UnitsUpTo(rev, objectType, sourceIsUrl, items, fetched, n))
  {
    if n > 0 {
      UnitsUpToClean(rev, objectType, sourceIsUrl, items, fetched, n - 1);
      var before := UnitsUpTo(rev, objectType, sourceIsUrl, items, fetched, n - 1);
      var here := UnitsOf(rev, ItemName(items[n - 1]), SelectVersions(rev, objectType, sourceIsUrl, items[n - 1], fetched[n - 1]));
      assert UnitsUpTo(rev, objectType, sourceIsUrl, items, fetched, n) == before + here;
      assert UnitsClean(rev, here);
    }
  }

  /** In a run the loop can finish, every unit's cleaned record is `Payload` of its record. */
  lemma PayloadsAreCleaned(rev: Revision, objectType: string, source: string, target: string,
                           items: seq<Json>, fetched: seq<Option<seq<Json>>>, responses: seq<Response>)
    requires Admissible(rev, objectType, source, target, items, fetched, responses)
    ensures var units := Units(rev, objectType, IsUrl(source), items, fetched);
            forall k | 0 <= k < |units| ::
              Cleanable(units[k].record) && units[k].cleaned == Payload(rev, units[k].record)
  {
    var units := Units(rev, objectType, IsUrl(source), items, fetched);
    UnitsUpToClean(rev, objectType, IsUrl(source), items, fetched, |items|);
    forall k | 0 <= k < |units|
      ensures Cleanable(units[k].record) && units[k].cleaned == Payload(rev, units[k].record)
    {
      assert Deliverable(target, units[k]);
      CleanForRevision(rev, units[k].record);
    }
  }

  /** To a URL, the k-th POST carries the k-th version cleaned. */
  lemma UrlPayloads(rev: Revision, objectType: string, source: string, target: string,
                    items: seq<Json>, fetched: seq<Option<seq<Json>>>, responses: seq<Response>)
    requires Admissible(rev, objectType, source, target, items, fetched, responses) && IsUrl(target)
    ensures var r := Replicate(rev, objectType, source, target, items, fetched, responses);
            var units := Units(rev, objectType, IsUrl(source), items, fetched);
            && |r.posts| == |units|
            && forall k | 0 <= k < |units| ::
                 Cleanable(units[k].record) && r.posts[k].payload == Payload(rev, units[k].record)
  {
    UrlTarget(rev, objectType, source, target, items, fetched, responses);
    PayloadsAreCleaned(rev, objectType, source, target, items, fetched, responses);
  }

  /** Writes that follow `dump` with the writes of `units` hold each record, then its payload. */
  lemma WrittenContents(rev: Revision, objectType: string, target: string, units: seq<Unit>,
                        dump: seq<FileWrite>, writes: seq<FileWrite>)
    requires !IsUrl(target) && forall k | 0 <= k < |units| :: Deliverable(target, units[k])
    requires forall k | 0 <= k < |units| :: Cleanable(units[k].record) && units[k].cleaned == Payload(rev, units[k].record)
    requires writes == dump + Writes(objectType, target, units)
    ensures |writes| == |dump| + 2 * |units|
    ensures forall k | 0 <= k < |units| ::
              && Cleanable(units[k].record)
              && writes[|dump| + 2 * k].content == units[k].record
              && writes[|dump| + 2 * k + 1].content == Payload(rev, units[k].record)
  {
    var ws := Writes(objectType, target, units);
    WritesLength(objectType, target, units);
    forall k | 0 <= k < |units|
      ensures writes[|dump| + 2 * k].content == units[k].record
      ensures writes[|dump| + 2 * k + 1].content == units[k].cleaned
    {
      WritesAt(objectType, target, units, k);
      assert writes[|dump| + 2 * k] == ws[2 * k];
      assert writes[|dump| + 2 * k + 1] == ws[2 * k + 1];
    }
  }

  /**
    To a directory, after the raw listing (when read from a URL), each version
    is written twice: the record itself to `raw/`, then the record cleaned.
   */
  lemma DirectoryPayloads(rev: Revision, objectType: string, source: string, target: string,
                          items: seq<Json>, fetched: seq<Option<seq<Json>>>, responses: seq<Response>)
    requires Admissible(rev, objectType, source, target, items, fetched, responses) && !IsUrl(target)
    ensures var r := Replicate(rev, objectType, source, target, items, fetched, responses);
            var units := Units(rev, objectType, IsUrl(source), items, fetched);
            var d := |Dump(objectType, source, target, items)|;
            && |r.writes| == d + 2 * |units|
            && forall k | 0 <= k < |units| ::
                 && Cleanable(units[k].record)
                 && r.writes[d + 2 * k].content == units[k].record
                 && r.writes[d + 2 * k + 1].content == Payload(rev, units[k].record)
  {
    DirectoryTargetWrites(rev, objectType, source, target, items, fetched, responses);
    PayloadsAreCleaned(rev, objectType, source, target, items, fetched, responses);
    WrittenContents(rev, objectType, target, Units(rev, objectType, IsUrl(source), items, fetched),
                    Dump(objectType, source, target, items),
                    Replicate(rev, objectType, source, target, items, fetched, responses).writes);
  }
}
