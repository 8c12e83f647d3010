/**
 * The admin sync endpoint: validate the fetched Zoho tags, diff them by id
 * against the tags of the current snapshot, build the new cache record and
 * summarise the outcome. Loading and saving the cache and the Zoho fetch are
 * outcomes passed in.
 */
module SyncTags {
  import opened Wrappers
  import opened Tags
  import Zoho

  // ---------------------------------------------------------------------------
  // The new tags keyed by id: a later tag wins the entry, and the
  // entries are visited in the order their ids first appeared.

  function IdMap(tags: seq<Tag>): map<string, Tag> {
    if tags == [] then map[]
    else IdMap(tags[..|tags| - 1])[tags[|tags| - 1].id := tags[|tags| - 1]]
  }

  predicate Distinct(s: seq<string>) {
    forall i, j :: 0 <= i < j < |s| ==> s[i] != s[j]
  }

  /** The iteration order of IdMap(tags): each id once, at its first occurrence. */
  function IdOrder(tags: seq<Tag>): (r: seq<string>)
    ensures Distinct(r)
    ensures forall k :: k in r <==> k in IdMap(tags)
  {
    if tags == [] then []
    else
      var prev := IdOrder(tags[..|tags| - 1]);
      var id := tags[|tags| - 1].id;
      if id in prev then prev else prev + [id]
  }

  /** The ids with an entry are exactly the ids of the tags. */
  lemma {:induction false} IdMapKeys(tags: seq<Tag>, k: string)
    ensures k in IdMap(tags) <==> exists i :: 0 <= i < |tags| && tags[i].id == k
  {
    if tags != [] {
      var n := |tags| - 1;
      IdMapKeys(tags[..n], k);
      if k in IdMap(tags[..n]) {
        var i :| 0 <= i < n && tags[..n][i].id == k;
        assert tags[i].id == k;
      }
      if exists i :: 0 <= i < |tags| && tags[i].id == k {
        var i :| 0 <= i < |tags| && tags[i].id == k;
        if i < n {
          assert tags[..n][i].id == k;
        }
      }
    }
  }

  /** A later tag wins: the entry of an id is the last tag carrying it. */
  lemma {:induction false} IdMapLastWins(tags: seq<Tag>, i: nat)
    requires i < |tags|
    requires forall j :: i < j < |tags| ==> tags[j].id != tags[i].id
    ensures tags[i].id in IdMap(tags) && IdMap(tags)[tags[i].id] == tags[i]
  {
    var n := |tags| - 1;
    if i < n {
      assert tags[..n][i] == tags[i];
      IdMapLastWins(tags[..n], i);
    }
  }

  // ---------------------------------------------------------------------------
  // Changed-field detection.

  /** _tag_has_changes: some compared field differs; id and timestamps are not compared. */
  predicate HasChanges(before: Tag, after: Tag) {
    before.name != after.name || before.aliases != after.aliases || before.shortForm != after.shortForm
    || before.publicDescription != after.publicDescription || before.internalCommentary != after.internalCommentary
    || before.tagType != after.tagType
  }

  const ChangeDescriptions: seq<string> := [
    "name changed", "aliases updated", "short form changed",
    "public description updated", "internal commentary updated", "type changed"]

  /** The position of a description in the fixed field order. */
  function DescriptionRank(d: string): nat {
    if d == ChangeDescriptions[0] then 0
    else if d == ChangeDescriptions[1] then 1
    else if d == ChangeDescriptions[2] then 2
    else if d == ChangeDescriptions[3] then 3
    else if d == ChangeDescriptions[4] then 4
    else 5
  }

  function When(b: bool, d: string): seq<string> {
    if b then [d] else []
  }

  /** _get_tag_changes */
  function ChangeList(before: Tag, after: Tag): (r: seq<string>)
    ensures r != [] <==> HasChanges(before, after)
  {
    When(before.name != after.name, "name changed")
    + When(before.aliases != after.aliases, "aliases updated")
    + When(before.shortForm != after.shortForm, "short form changed")
    + When(before.publicDescription != after.publicDescription, "public description updated")
    + When(before.internalCommentary != after.internalCommentary, "internal commentary updated")
    + When(before.tagType != after.tagType, "type changed")
  }

  /** Each of the first three compared fields is reported exactly when it differs. */
  lemma ChangeListNames(before: Tag, after: Tag)
    ensures var r := ChangeList(before, after);
      ("name changed" in r <==> before.name != after.name)
      && ("aliases updated" in r <==> before.aliases != after.aliases)
      && ("short form changed" in r <==> before.shortForm != after.shortForm)
  {
    ChangeListPieces(before, after);
  }

  /** Each of the last three compared fields is reported exactly when it differs. */
  lemma ChangeListTexts(before: Tag, after: Tag)
    ensures var r := ChangeList(before, after);
      ("public description updated" in r <==> before.publicDescription != after.publicDescription)
      && ("internal commentary updated" in r <==> before.internalCommentary != after.internalCommentary)
      && ("type changed" in r <==> before.tagType != after.tagType)
  {
    ChangeListPieces(before, after);
  }

  /** ChangeList as the member-wise union of its six pieces. */
  lemma ChangeListPieces(before: Tag, after: Tag)
    ensures forall d :: d in ChangeList(before, after) <==>
      (d in When(before.name != after.name, "name changed")
       || d in When(before.aliases != after.aliases, "aliases updated")
       || d in When(before.shortForm != after.shortForm, "short form changed")
       || d in When(before.publicDescription != after.publicDescription, "public description updated")
       || d in When(before.internalCommentary != after.internalCommentary, "internal commentary updated")
       || d in When(before.tagType != after.tagType, "type changed"))
  {
  }

  /** The descriptions come in the fixed field order, each at most once. */
  lemma ChangeListOrdered(before: Tag, after: Tag)
    ensures var r := ChangeList(before, after);
      forall i, j :: 0 <= i < j < |r| ==> DescriptionRank(r[i]) < DescriptionRank(r[j])
  {
    DescriptionRanks();
    WhenRank(before.name != after.name, "name changed", 0);
    WhenRank(before.aliases != after.aliases, "aliases updated", 1);
    WhenRank(before.shortForm != after.shortForm, "short form changed", 2);
    WhenRank(before.publicDescription != after.publicDescription, "public description updated", 3);
    WhenRank(before.internalCommentary != after.internalCommentary, "internal commentary updated", 4);
    WhenRank(before.tagType != after.tagType, "type changed", 5);
    RankedChain(
      When(before.name != after.name, "name changed"),
      When(before.aliases != after.aliases, "aliases updated"),
      When(before.shortForm != after.shortForm, "short form changed"),
      When(before.publicDescription != after.publicDescription, "public description updated"),
      When(before.internalCommentary != after.internalCommentary, "internal commentary updated"),
      When(before.tagType != after.tagType, "type changed"));
  }

  lemma WhenRank(b: bool, d: string, rank: nat)
    requires DescriptionRank(d) == rank
    ensures |When(b, d)| <= 1 && forall i :: 0 <= i < |When(b, d)| ==> DescriptionRank(When(b, d)[i]) == rank
  {
  }

  /** The six descriptions are distinct, so each has its own rank. */
  lemma DescriptionRanks()
    ensures DescriptionRank("name changed") == 0 && DescriptionRank("aliases updated") == 1
    ensures DescriptionRank("short form changed") == 2 && DescriptionRank("public description updated") == 3
    ensures DescriptionRank("internal commentary updated") == 4 && DescriptionRank("type changed") == 5
  {
  }

  /** Six pieces of at most one description each, of ranks 0 to 5, concatenate in rank order. */
  lemma RankedChain(a: seq<string>, b: seq<string>, c: seq<string>, d: seq<string>, e: seq<string>, f: seq<string>)
    requires |a| <= 1 && forall i :: 0 <= i < |a| ==> DescriptionRank(a[i]) == 0
    requires |b| <= 1 && forall i :: 0 <= i < |b| ==> DescriptionRank(b[i]) == 1
    requires |c| <= 1 && forall i :: 0 <= i < |c| ==> DescriptionRank(c[i]) == 2
    requires |d| <= 1 && forall i :: 0 <= i < |d| ==> DescriptionRank(d[i]) == 3
    requires |e| <= 1 && forall i :: 0 <= i < |e| ==> DescriptionRank(e[i]) == 4
    requires |f| <= 1 && forall i :: 0 <= i < |f| ==> DescriptionRank(f[i]) == 5
    ensures RankedBelow(a + b + c + d + e + f, 5)
  {
    RankedAppend([], 0, a, 0);
    assert [] + a == a;
    RankedAppend(a, 0, b, 1);
    RankedAppend(a + b, 1, c, 2);
    RankedAppend(a + b + c, 2, d, 3);
    RankedAppend(a + b + c + d, 3, e, 4);
    RankedAppend(a + b + c + d + e, 4, f, 5);
  }

  predicate RankedBelow(s: seq<string>, bound: nat) {
    (forall i, j :: 0 <= i < j < |s| ==> DescriptionRank(s[i]) < DescriptionRank(s[j]))
    && forall i :: 0 <= i < |s| ==> DescriptionRank(s[i]) <= bound
  }

  lemma RankedAppend(s: seq<string>, bound: nat, t: seq<string>, rank: nat)
    requires bound < rank || (s == [] && bound == rank)
    requires RankedBelow(s, bound)
    requires |t| <= 1 && forall i :: 0 <= i < |t| ==> DescriptionRank(t[i]) == rank
    ensures RankedBelow(s + t, rank)
  {
  }

  // ---------------------------------------------------------------------------
  // The diff.

  datatype TagSummary = TagSummary(name: string, shortForm: string, tagType: string)
  datatype UpdatedEntry = UpdatedEntry(summary: TagSummary, changes: seq<string>)
  datatype RemovedEntry = RemovedEntry(summary: TagSummary, reason: string)
  datatype Changes = Changes(added: seq<TagSummary>, updated: seq<UpdatedEntry>, removed: seq<RemovedEntry>, same: nat)

  function Summary(t: Tag): TagSummary {
    TagSummary(t.name, t.shortForm, t.tagType)
  }

  const RemovedReason: string := "Not found in Zoho"

  /** The summaries of the new ids that the current snapshot lacks, in iteration order. */
  function AddedOf(ids: seq<string>, cur: map<string, Tag>, nw: map<string, Tag>): (r: seq<TagSummary>)
    requires forall k :: k in ids ==> k in nw
    ensures |r| <= |ids|
  {
    if ids == [] then []
    else
      var k := ids[|ids| - 1];
      AddedOf(ids[..|ids| - 1], cur, nw) + (if k !in cur then [Summary(nw[k])] else [])
  }

  /** The new ids the current snapshot has with some compared field changed. */
  function UpdatedOf(ids: seq<string>, cur: map<string, Tag>, nw: map<string, Tag>): (r: seq<UpdatedEntry>)
    requires forall k :: k in ids ==> k in nw
    ensures |r| <= |ids|
  {
    if ids == [] then []
    else
      var k := ids[|ids| - 1];
      UpdatedOf(ids[..|ids| - 1], cur, nw)
      + (if k in cur && HasChanges(cur[k], nw[k]) then [UpdatedEntry(Summary(nw[k]), ChangeList(cur[k], nw[k]))] else [])
  }

  /** How many new ids the current snapshot has unchanged. */
  function UnchangedOf(ids: seq<string>, cur: map<string, Tag>, nw: map<string, Tag>): (n: nat)
    requires forall k :: k in ids ==> k in nw
    ensures n <= |ids|
  {
    if ids == [] then 0
    else
      var k := ids[|ids| - 1];
      UnchangedOf(ids[..|ids| - 1], cur, nw) + (if k in cur && !HasChanges(cur[k], nw[k]) then 1 else 0)
  }

  /** The current ids absent from the new tags, each with the fixed reason. */
  function RemovedOf(ids: seq<string>, cur: map<string, Tag>, nw: map<string, Tag>): (r: seq<RemovedEntry>)
    requires forall k :: k in ids ==> k in cur
    ensures |r| <= |ids|
  {
    if ids == [] then []
    else
      var k := ids[|ids| - 1];
      RemovedOf(ids[..|ids| - 1], cur, nw) + (if k !in nw then [RemovedEntry(Summary(cur[k]), RemovedReason)] else [])
  }

  /** Exactly the new ids the snapshot lacks are reported as added. */
  lemma {:induction false} AddedMembers(ids: seq<string>, cur: map<string, Tag>, nw: map<string, Tag>)
    requires forall k :: k in ids ==> k in nw
    ensures forall k :: k in ids && k !in cur ==> Summary(nw[k]) in AddedOf(ids, cur, nw)
    ensures forall s :: s in AddedOf(ids, cur, nw) ==> exists k :: k in ids && k !in cur && s == Summary(nw[k])
  {
    if ids != [] {
      var p := ids[..|ids| - 1];
      AddedMembers(p, cur, nw);
      assert forall x :: x in ids ==> x in p || x == ids[|ids| - 1];
    }
  }

  /** Exactly the known new ids with a changed field are reported as updated, with their change lists. */
  lemma {:induction false} UpdatedMembers(ids: seq<string>, cur: map<string, Tag>, nw: map<string, Tag>)
    requires forall k :: k in ids ==> k in nw
    ensures forall k :: k in ids && k in cur && HasChanges(cur[k], nw[k]) ==>
      UpdatedEntry(Summary(nw[k]), ChangeList(cur[k], nw[k])) in UpdatedOf(ids, cur, nw)
    ensures forall u :: u in UpdatedOf(ids, cur, nw) ==>
      (exists k :: k in ids && k in cur && HasChanges(cur[k], nw[k])
                   && u == UpdatedEntry(Summary(nw[k]), ChangeList(cur[k], nw[k])))
  {
    if ids != [] {
      var p := ids[..|ids| - 1];
      UpdatedMembers(p, cur, nw);
      assert forall x :: x in ids ==> x in p || x == ids[|ids| - 1];
    }
  }

  /** Exactly the current ids the new tags lack are reported as removed. */
  lemma {:induction false} RemovedMembers(ids: seq<string>, cur: map<string, Tag>, nw: map<string, Tag>)
    requires forall k :: k in ids ==> k in cur
    ensures forall k :: k in ids && k !in nw ==> RemovedEntry(Summary(cur[k]), RemovedReason) in RemovedOf(ids, cur, nw)
    ensures forall e :: e in RemovedOf(ids, cur, nw) ==>
      e.reason == RemovedReason && (exists k :: k in ids && k !in nw && e.summary == Summary(cur[k]))
  {
    if ids != [] {
      var p := ids[..|ids| - 1];
      RemovedMembers(p, cur, nw);
      assert forall x :: x in ids ==> x in p || x == ids[|ids| - 1];
    }
  }

  /** The diff of the sync between the tags of the current snapshot and the valid fetched tags. */
  function Diff(current: seq<Tag>, valid: seq<Tag>): Changes {
    var cur := IdMap(current);
    var nw := IdMap(valid);
    Changes(
      AddedOf(IdOrder(valid), cur, nw),
      UpdatedOf(IdOrder(valid), cur, nw),
      RemovedOf(IdOrder(current), cur, nw),
      UnchangedOf(IdOrder(valid), cur, nw))
  }

  /** The first loop of the diff: each new id is added, updated or counted as unchanged. */
  method ClassifyNew(ids: seq<string>, cur: map<string, Tag>, nw: map<string, Tag>)
    returns (added: seq<TagSummary>, updated: seq<UpdatedEntry>, same: nat)
    requires forall k :: k in ids ==> k in nw
    ensures added == AddedOf(ids, cur, nw) && updated == UpdatedOf(ids, cur, nw) && same == UnchangedOf(ids, cur, nw)
  {
    added, updated, same := [], [], 0;
    for i := 0 to |ids|
      invariant added == AddedOf(ids[..i], cur, nw)
      invariant updated == UpdatedOf(ids[..i], cur, nw)
      invariant same == UnchangedOf(ids[..i], cur, nw)
    {
      var id := ids[i];
      var tag := nw[id];
      assert ids[..i + 1][..i] == ids[..i] && ids[..i + 1][i] == id;
      if id !in cur {
        added := added + [Summary(tag)];
      } else if HasChanges(cur[id], tag) {
        updated := updated + [UpdatedEntry(Summary(tag), ChangeList(cur[id], tag))];
      } else {
        same := same + 1;
      }
    }
    assert ids[..|ids|] == ids;
  }

  /** The second loop of the diff: each current id absent from the new tags is removed. */
  method CollectRemoved(ids: seq<string>, cur: map<string, Tag>, nw: map<string, Tag>) returns (removed: seq<RemovedEntry>)
    requires forall k :: k in ids ==> k in cur
    ensures removed == RemovedOf(ids, cur, nw)
  {
    removed := [];
    for i := 0 to |ids|
      invariant removed == RemovedOf(ids[..i], cur, nw)
    {
      var id := ids[i];
      assert ids[..i + 1][..i] == ids[..i] && ids[..i + 1][i] == id;
      if id !in nw {
        removed := removed + [RemovedEntry(Summary(cur[id]), RemovedReason)];
      }
    }
    assert ids[..|ids|] == ids;
  }

  /** Both loops of the diff, over the id maps of the snapshot and of the valid tags. */
  method ComputeChanges(current: seq<Tag>, valid: seq<Tag>) returns (c: Changes)
    ensures c == Diff(current, valid)
  {
    var cur := IdMap(current);
    var nw := IdMap(valid);
    var added, updated, same := ClassifyNew(IdOrder(valid), cur, nw);
    var removed := CollectRemoved(IdOrder(current), cur, nw);
    c := Changes(added, updated, removed, same);
  }

  // ---------------------------------------------------------------------------
  // Counting.

  /** How many of `ids` are keys in `keys`. */
  function CountIn(ids: seq<string>, keys: set<string>): (n: nat)
    ensures n <= |ids|
  {
    if ids == [] then 0
    else CountIn(ids[..|ids| - 1], keys) + (if ids[|ids| - 1] in keys then 1 else 0)
  }

  function Elems(s: seq<string>): set<string> {
    set x | x in s
  }

  /** Every new id is added, updated or unchanged, and exactly the known ones are not added. */
  lemma {:induction false} NewSideCounts(ids: seq<string>, cur: map<string, Tag>, nw: map<string, Tag>)
    requires forall k :: k in ids ==> k in nw
    ensures |UpdatedOf(ids, cur, nw)| + UnchangedOf(ids, cur, nw) == CountIn(ids, cur.Keys)
    ensures |AddedOf(ids, cur, nw)| + CountIn(ids, cur.Keys) == |ids|
  {
    if ids != [] {
      NewSideCounts(ids[..|ids| - 1], cur, nw);
    }
  }

  /** Exactly the current ids the new tags lack are removed. */
  lemma {:induction false} RemovedCounts(ids: seq<string>, cur: map<string, Tag>, nw: map<string, Tag>)
    requires forall k :: k in ids ==> k in cur
    ensures |RemovedOf(ids, cur, nw)| + CountIn(ids, nw.Keys) == |ids|
  {
    if ids != [] {
      RemovedCounts(ids[..|ids| - 1], cur, nw);
    }
  }

  /** A list without repeats has as many elements as entries. */
  lemma {:induction false} DistinctElems(s: seq<string>)
    requires Distinct(s)
    ensures |Elems(s)| == |s|
  {
    if s != [] {
      var p := s[..|s| - 1];
      DistinctElems(p);
      assert Elems(s) == Elems(p) + {s[|s| - 1]};
      assert s[|s| - 1] !in Elems(p);
    }
  }

  /** For a list without repeats, counting members of `keys` counts the intersection. */
  lemma {:induction false} CountInDistinct(s: seq<string>, keys: set<string>)
    requires Distinct(s)
    ensures CountIn(s, keys) == |Elems(s) * keys|
  {
    if s != [] {
      var p := s[..|s| - 1];
      var x := s[|s| - 1];
      CountInDistinct(p, keys);
      assert x !in Elems(p);
      if x in keys {
        assert Elems(s) * keys == Elems(p) * keys + {x};
      } else {
        assert Elems(s) * keys == Elems(p) * keys;
      }
    }
  }

  /** Every distinct new id lands in exactly one of added, updated and unchanged;
      every distinct current id in exactly one of removed, updated and unchanged. */
  lemma DiffCounts(current: seq<Tag>, valid: seq<Tag>)
    ensures var c := Diff(current, valid);
      |c.added| + |c.updated| + c.same == |IdMap(valid)|
      && |c.removed| + |c.updated| + c.same == |IdMap(current)|
  {
    var cur := IdMap(current);
    var nw := IdMap(valid);
    var newIds := IdOrder(valid);
    var curIds := IdOrder(current);
    NewSideCounts(newIds, cur, nw);
    RemovedCounts(curIds, cur, nw);
    CountInDistinct(newIds, cur.Keys);
    CountInDistinct(curIds, nw.Keys);
    DistinctElems(newIds);
    DistinctElems(curIds);
    assert Elems(newIds) == nw.Keys;
    assert Elems(curIds) == cur.Keys;
    assert nw.Keys * cur.Keys == cur.Keys * nw.Keys;
  }

  /** Without a current snapshot every valid tag is added and nothing is updated or removed. */
  lemma NoSnapshotAllAdded(valid: seq<Tag>)
    ensures var c := Diff([], valid);
      |c.added| == |IdMap(valid)| && c.updated == [] && c.removed == [] && c.same == 0
  {
    DiffCounts([], valid);
    NoneKnown(IdOrder(valid), IdMap(valid));
  }

  lemma {:induction false} NoneKnown(ids: seq<string>, nw: map<string, Tag>)
    requires forall k :: k in ids ==> k in nw
    ensures UpdatedOf(ids, map[], nw) == [] && UnchangedOf(ids, map[], nw) == 0
  {
    if ids != [] {
      NoneKnown(ids[..|ids| - 1], nw);
    }
  }

  // ---------------------------------------------------------------------------
  // Validation and the endpoint.

  /** The fetched tags validate_tag accepts, in fetch order. */
  function ValidTags(tags: seq<Tag>): (r: seq<Tag>)
    ensures |r| <= |tags|
  {
    if tags == [] then []
    else
      var t := tags[|tags| - 1];
      ValidTags(tags[..|tags| - 1]) + (if Zoho.ValidateTag(t).0 then [t] else [])
  }

  /** Exactly the fetched tags that validate are kept. */
  lemma {:induction false} ValidTagsMembers(tags: seq<Tag>, t: Tag)
    ensures t in ValidTags(tags) <==> t in tags && Zoho.ValidateTag(t).0
  {
    if tags != [] {
      var p := tags[..|tags| - 1];
      ValidTagsMembers(p, t);
      assert t in tags <==> t in p || t == tags[|tags| - 1];
    }
  }

  /** One more fetched tag extends the kept list by that tag exactly when it validates. */
  lemma ValidTagsStep(tags: seq<Tag>, i: nat)
    requires i < |tags|
    ensures ValidTags(tags[..i + 1]) == ValidTags(tags[..i]) + (if Zoho.ValidateTag(tags[i]).0 then [tags[i]] else [])
  {
    assert tags[..i + 1][..i] == tags[..i];
  }

  /** The validation loop: accepted tags kept in order, rejected ones counted. */
  method FilterValid(tags: seq<Tag>) returns (valid: seq<Tag>, invalidCount: nat)
    ensures valid == ValidTags(tags)
    ensures |valid| + invalidCount == |tags|
  {
    valid := [];
    invalidCount := 0;
    for i := 0 to |tags|
      invariant valid == ValidTags(tags[..i])
      invariant |valid| + invalidCount == i
    {
      ValidTagsStep(tags, i);
      var (isValid, _) := Zoho.ValidateTag(tags[i]);
      if isValid {
        valid := valid + [tags[i]];
      } else {
        invalidCount := invalidCount + 1;
      }
    }
    assert tags[..|tags|] == tags;
  }

  /** The record the sync saves as the new snapshot. */
  datatype CacheData = CacheData(version: string, syncTimestamp: string, syncSource: string, tagsCount: nat, tags: seq<Tag>)

  datatype SyncResponse =
    | SyncSuccess(
        syncTimestamp: string,
        tagsTotal: nat,
        addedCount: nat, updatedCount: nat, removedCount: nat, unchangedCount: nat,
        processingTimeMs: int,
        addedTags: Option<seq<TagSummary>>,
        updatedTags: Option<seq<UpdatedEntry>>,
        removedTags: Option<seq<RemovedEntry>>,
        invalidTagsSkipped: Option<nat>)
    | SyncError(errorCode: string, message: string, detail: string)

  function HttpStatus(r: SyncResponse): nat {
    if r.SyncSuccess? then 200 else 500
  }

  /** The first n entries of `s`, or all of them when there are fewer. */
  function Take<T>(s: seq<T>, n: nat): (r: seq<T>)
    ensures |r| == if |s| < n then |s| else n
    ensures r == s[..|r|]
  {
    if |s| <= n then s else s[..n]
  }

  /** A detail list is reported, cut to ten entries, only when it is non-empty. */
  function Detail<T>(s: seq<T>): (r: Option<seq<T>>)
    ensures r.Some? <==> s != []
    ensures r.Some? ==> |r.value| <= 10 && |r.value| <= |s| && r.value == s[..|r.value|]
  {
    if s == [] then None else Some(Take(s, 10))
  }

  /** The success summary: counts of each kind of change, the first ten entries of each
      non-empty detail list, and the number of skipped tags when there were any. */
  function SuccessBody(syncTimestamp: string, total: nat, c: Changes, elapsedMs: int, skipped: nat): SyncResponse {
    SyncSuccess(syncTimestamp, total, |c.added|, |c.updated|, |c.removed|, c.same, elapsedMs,
                Detail(c.added), Detail(c.updated), Detail(c.removed),
                if skipped > 0 then Some(skipped) else None)
  }

  /**
   * sync_tags. `current` is the snapshot's tag list, None when it could not be loaded;
   * `fetched` is the Zoho fetch; `saveError` is what saving would raise, if anything.
   * `toSave` is the record handed to the save.
   */
  method SyncTags(current: Option<seq<Tag>>, fetched: Result<seq<Tag>, string>, saveError: Option<string>,
                  syncTimestamp: string, elapsedMs: int)
    returns (resp: SyncResponse, toSave: Option<CacheData>)
    ensures fetched.Failure? ==>
      resp == SyncError("ZOHO_SYNC_FAILED", "Failed to sync tags from Zoho CRM", fetched.error) && toSave == None
    ensures fetched.Success? ==>
      var v := ValidTags(fetched.value);
      toSave == Some(CacheData("1.0", syncTimestamp, "zoho_crm", |v|, v))
    ensures fetched.Success? && saveError.Some? ==>
      resp == SyncError("CACHE_SAVE_FAILED", "Failed to save tag cache", saveError.value)
    ensures fetched.Success? && saveError.None? ==>
      var v := ValidTags(fetched.value);
      resp == SuccessBody(syncTimestamp, |v|, Diff(current.GetOr([]), v), elapsedMs, |fetched.value| - |v|)
    ensures HttpStatus(resp) == 200 <==> fetched.Success? && saveError.None?
  {
    if fetched.Failure? {
      return SyncError("ZOHO_SYNC_FAILED", "Failed to sync tags from Zoho CRM", fetched.error), None;
    }
    var currentTags := current.GetOr([]);
    var valid, invalidCount := FilterValid(fetched.value);
    var changes := ComputeChanges(currentTags, valid);
    toSave := Some(CacheData("1.0", syncTimestamp, "zoho_crm", |valid|, valid));
    if saveError.Some? {
      return SyncError("CACHE_SAVE_FAILED", "Failed to save tag cache", saveError.value), toSave;
    }
    resp := SuccessBody(syncTimestamp, |valid|, changes, elapsedMs, invalidCount);
  }

  /** The saved tags_count counts tags, not ids: two valid tags sharing an id are saved twice but diffed once. */
  lemma TagsCountCanExceedIds()
    ensures var t := Tag("1", "Solve", [], "S", "", "", "Horizon", "", "");
      |ValidTags([t, t])| == 2 && |IdMap([t, t])| == 1
  {
    var t := Tag("1", "Solve", [], "S", "", "", "Horizon", "", "");
    assert Zoho.ValidateTag(t).0 by {
      assert "Horizon" in Zoho.Config.TagTypes;
    }
    assert [t, t][..1] == [t];
    assert [t][..0] == [];
    assert IdMap([t]) == map["1" := t];
    assert IdMap([t, t]) == map["1" := t];
  }
}
