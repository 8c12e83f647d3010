/**
 * The tag taxonomy snapshot: the list of tags the last sync saved, with
 * case-insensitive indexes by name and by alias and one list per tag type.
 * A snapshot is built once and never changed, so its fields are constants.
 */
module Tags {
  import opened Wrappers
  import opened Text

  /** A tag as the sync stores it; an absent field of a stored record reads as "". */
  datatype Tag = Tag(
    id: string,
    name: string,
    aliases: seq<string>,
    shortForm: string,
    publicDescription: string,
    internalCommentary: string,
    tagType: string,
    createdAt: string,
    updatedAt: string)

  /** The tag types the snapshot keeps a list for (the same seven as the configuration). */
  const IndexedTypes: set<string> := {"Horizon", "Practice", "Stream", "Role", "Vendor", "Product", "Topic"}

  datatype MatchType = Primary | Alias

  /** The answer of a name-or-alias lookup; Python's pair (None, None) is Unresolved. */
  datatype Resolution = Resolved(tag: Tag, matchType: MatchType) | Unresolved

  /** The tag entry of the prompt: empty aliases dropped, description from the public description. */
  datatype PromptTag = PromptTag(name: string, aliases: seq<string>, shortForm: string, description: string, tagType: string)

  // ---------------------------------------------------------------------------
  // The indexes, defined by the order in which the build loop fills them:
  // a later tag overwrites an earlier one under the same key.

  function NameIndex(tags: seq<Tag>): map<string, Tag> {
    if tags == [] then map[]
    else
      var t := tags[|tags| - 1];
      NameIndex(tags[..|tags| - 1])[Lower(t.name) := t]
  }

  /** `t` is indexed under `k` by one of its non-empty aliases. */
  ghost predicate AliasKey(aliases: seq<string>, k: string) {
    exists a :: 0 <= a < |aliases| && aliases[a] != "" && Lower(aliases[a]) == k
  }

  function AddAliases(m: map<string, Tag>, aliases: seq<string>, t: Tag): map<string, Tag> {
    if aliases == [] then m
    else
      var m' := AddAliases(m, aliases[..|aliases| - 1], t);
      var a := aliases[|aliases| - 1];
      if a != "" then m'[Lower(a) := t] else m'
  }

  function AliasIndex(tags: seq<Tag>): map<string, Tag> {
    if tags == [] then map[]
    else
      var t := tags[|tags| - 1];
      AddAliases(AliasIndex(tags[..|tags| - 1]), t.aliases, t)
  }

  /** The tags of type `t`, in list order. */
  function OfType(tags: seq<Tag>, t: string): seq<Tag> {
    if tags == [] then []
    else OfType(tags[..|tags| - 1], t) + (if tags[|tags| - 1].tagType == t then [tags[|tags| - 1]] else [])
  }

  function TypeIndex(tags: seq<Tag>): map<string, seq<Tag>> {
    map k | k in IndexedTypes :: OfType(tags, k)
  }

  // ---------------------------------------------------------------------------
  // What the indexes hold.

  /** Every name-index entry is the LAST tag whose lowered name is the key. */
  lemma {:induction false} NameIndexLastWins(tags: seq<Tag>, k: string)
    requires k in NameIndex(tags)
    ensures exists i :: 0 <= i < |tags| && NameIndex(tags)[k] == tags[i] && Lower(tags[i].name) == k
                        && forall j :: i < j < |tags| ==> Lower(tags[j].name) != k
  {
    var n := |tags| - 1;
    if Lower(tags[n].name) != k {
      var init := tags[..n];
      NameIndexLastWins(init, k);
      var i :| 0 <= i < |init| && NameIndex(init)[k] == init[i] && Lower(init[i].name) == k
               && forall j :: i < j < |init| ==> Lower(init[j].name) != k;
      assert tags[i] == init[i];
      assert forall j :: i < j < |tags| ==> Lower(tags[j].name) != k by {
        forall j | i < j < |tags| ensures Lower(tags[j].name) != k {
          if j < n { assert tags[j] == init[j]; }
        }
      }
    }
  }

  /** Every tag's lowered name is a key of the name index. */
  lemma {:induction false} NameIndexComplete(tags: seq<Tag>, i: nat)
    requires i < |tags|
    ensures Lower(tags[i].name) in NameIndex(tags)
  {
    if i < |tags| - 1 {
      NameIndexComplete(tags[..|tags| - 1], i);
    }
  }

  /** The name index has at most one entry per tag. */
  lemma {:induction false} NameIndexSize(tags: seq<Tag>)
    ensures |NameIndex(tags)| <= |tags|
  {
    if tags != [] {
      NameIndexSize(tags[..|tags| - 1]);
    }
  }

  lemma AliasKeySnoc(aliases: seq<string>, k: string)
    requires aliases != []
    ensures AliasKey(aliases, k) <==>
      AliasKey(aliases[..|aliases| - 1], k) || (aliases[|aliases| - 1] != "" && Lower(aliases[|aliases| - 1]) == k)
  {
    var init := aliases[..|aliases| - 1];
    if AliasKey(aliases, k) {
      var a :| 0 <= a < |aliases| && aliases[a] != "" && Lower(aliases[a]) == k;
      if a < |init| { assert init[a] == aliases[a]; }
    }
    if AliasKey(init, k) {
      var a :| 0 <= a < |init| && init[a] != "" && Lower(init[a]) == k;
      assert aliases[a] == init[a];
    }
  }

  /** Adding one tag's aliases adds exactly the keys of its non-empty aliases, all owned by that tag. */
  lemma {:induction false} AddAliasesSpec(m: map<string, Tag>, aliases: seq<string>, t: Tag, k: string)
    ensures k in AddAliases(m, aliases, t) <==> k in m || AliasKey(aliases, k)
    ensures AliasKey(aliases, k) ==> AddAliases(m, aliases, t)[k] == t
    ensures k in m && !AliasKey(aliases, k) ==> AddAliases(m, aliases, t)[k] == m[k]
  {
    if aliases != [] {
      AddAliasesSpec(m, aliases[..|aliases| - 1], t, k);
      AliasKeySnoc(aliases, k);
    }
  }

  /** Every alias-index entry is the LAST tag that has a non-empty alias lowering to the key. */
  lemma {:induction false} AliasIndexLastWins(tags: seq<Tag>, k: string)
    requires k in AliasIndex(tags)
    ensures exists i :: 0 <= i < |tags| && AliasIndex(tags)[k] == tags[i] && AliasKey(tags[i].aliases, k)
                        && forall j :: i < j < |tags| ==> !AliasKey(tags[j].aliases, k)
  {
    var n := |tags| - 1;
    var init := tags[..n];
    AddAliasesSpec(AliasIndex(init), tags[n].aliases, tags[n], k);
    if !AliasKey(tags[n].aliases, k) {
      AliasIndexLastWins(init, k);
      var i :| 0 <= i < |init| && AliasIndex(init)[k] == init[i] && AliasKey(init[i].aliases, k)
               && forall j :: i < j < |init| ==> !AliasKey(init[j].aliases, k);
      assert tags[i] == init[i];
      assert forall j :: i < j < |tags| ==> !AliasKey(tags[j].aliases, k) by {
        forall j | i < j < |tags| ensures !AliasKey(tags[j].aliases, k) {
          if j < n { assert tags[j] == init[j]; }
        }
      }
    }
  }

  /** Every non-empty alias of every tag is a key of the alias index. */
  lemma {:induction false} AliasIndexComplete(tags: seq<Tag>, i: nat, a: nat)
    requires i < |tags| && a < |tags[i].aliases| && tags[i].aliases[a] != ""
    ensures Lower(tags[i].aliases[a]) in AliasIndex(tags)
  {
    var n := |tags| - 1;
    var k := Lower(tags[i].aliases[a]);
    AddAliasesSpec(AliasIndex(tags[..n]), tags[n].aliases, tags[n], k);
    if i < n {
      AliasIndexComplete(tags[..n], i, a);
    }
  }

  /** The empty string is never an alias key. */
  lemma NoEmptyAliasKey(tags: seq<Tag>)
    ensures "" !in AliasIndex(tags)
  {
    forall k | k in AliasIndex(tags) ensures k != "" {
      AliasIndexLastWins(tags, k);
    }
  }

  /** A type list holds exactly the tags of that type. */
  lemma {:induction false} OfTypeMembers(tags: seq<Tag>, t: string, x: Tag)
    ensures x in OfType(tags, t) <==> x in tags && x.tagType == t
  {
    if tags != [] {
      var init := tags[..|tags| - 1];
      OfTypeMembers(init, t, x);
      assert tags == init + [tags[|tags| - 1]];
    }
  }

  /** Type lists keep list order: the list of a concatenation is the concatenation of the lists. */
  lemma {:induction false} OfTypeAppend(a: seq<Tag>, b: seq<Tag>, t: string)
    ensures OfType(a + b, t) == OfType(a, t) + OfType(b, t)
  {
    if b != [] {
      var b' := b[..|b| - 1];
      assert (a + b)[..|a + b| - 1] == a + b';
      OfTypeAppend(a, b', t);
    } else {
      assert a + b == a;
    }
  }

  lemma TypeIndexSnoc(tags: seq<Tag>, tag: Tag)
    ensures TypeIndex(tags + [tag]) ==
      if tag.tagType in IndexedTypes then TypeIndex(tags)[tag.tagType := TypeIndex(tags)[tag.tagType] + [tag]]
      else TypeIndex(tags)
  {
    assert (tags + [tag])[..|tags|] == tags;
    forall k | k in IndexedTypes
      ensures OfType(tags + [tag], k) == OfType(tags, k) + (if tag.tagType == k then [tag] else [])
    {
    }
    var lhs := TypeIndex(tags + [tag]);
    var rhs := if tag.tagType in IndexedTypes then TypeIndex(tags)[tag.tagType := TypeIndex(tags)[tag.tagType] + [tag]]
               else TypeIndex(tags);
    assert lhs.Keys == rhs.Keys;
    assert forall k :: k in lhs ==> lhs[k] == rhs[k];
  }

  /** The index-building loop of the snapshot's constructor. */
  method BuildIndexes(tags: seq<Tag>) returns (byName: map<string, Tag>, byAlias: map<string, Tag>, byType: map<string, seq<Tag>>)
    ensures byName == NameIndex(tags) && byAlias == AliasIndex(tags) && byType == TypeIndex(tags)
  {
    byName := map[];
    byType := map["Horizon" := [], "Practice" := [], "Stream" := [], "Role" := [],
                  "Vendor" := [], "Product" := [], "Topic" := []];
    byAlias := map[];
    assert byType == TypeIndex([]);
    for i := 0 to |tags|
      invariant byName == NameIndex(tags[..i])
      invariant byAlias == AliasIndex(tags[..i])
      invariant byType == TypeIndex(tags[..i])
    {
      var tag := tags[i];
      assert tags[..i + 1] == tags[..i] + [tag];
      assert tags[..i + 1][..i] == tags[..i];
      byName := byName[Lower(tag.name) := tag];
      TypeIndexSnoc(tags[..i], tag);
      if tag.tagType in byType {
        byType := byType[tag.tagType := byType[tag.tagType] + [tag]];
      }
      var aliases := tag.aliases;
      for j := 0 to |aliases|
        invariant byAlias == AddAliases(AliasIndex(tags[..i]), aliases[..j], tag)
      {
        assert aliases[..j + 1][..j] == aliases[..j];
        var alias := aliases[j];
        if alias != "" {
          byAlias := byAlias[Lower(alias) := tag];
        }
      }
      assert aliases[..|aliases|] == aliases;
    }
    assert tags[..|tags|] == tags;
  }

  class TagCache {
    const tags: seq<Tag>
    const syncTimestamp: string
    const byName: map<string, Tag>
    const byAlias: map<string, Tag>
    const byType: map<string, seq<Tag>>

    /** The indexes are the ones the build loop derives from `tags`. */
    ghost predicate Valid() {
      byName == NameIndex(tags) && byAlias == AliasIndex(tags) && byType == TypeIndex(tags)
    }

    constructor (tags: seq<Tag>, syncTimestamp: string)
      ensures this.tags == tags && this.syncTimestamp == syncTimestamp
      ensures Valid()
    {
      var n, a, t := BuildIndexes(tags);
      this.tags := tags;
      this.syncTimestamp := syncTimestamp;
      byName := n;
      byAlias := a;
      byType := t;
    }

    /** Exact-name lookup, ignoring case: the last tag whose name lowers to the lowered query. */
    function GetByName(name: string): (r: Option<Tag>)
      requires Valid()
      ensures r.Some? <==> exists i :: 0 <= i < |tags| && Lower(tags[i].name) == Lower(name)
      ensures r.Some? ==> exists i :: 0 <= i < |tags| && r.value == tags[i] && Lower(tags[i].name) == Lower(name)
                                      && forall j :: i < j < |tags| ==> Lower(tags[j].name) != Lower(name)
    {
      var k := Lower(name);
      if k in byName then
        NameIndexLastWins(tags, k);
        Some(byName[k])
      else
        assert forall i :: 0 <= i < |tags| ==> Lower(tags[i].name) != k by {
          forall i | 0 <= i < |tags| ensures Lower(tags[i].name) != k {
            NameIndexComplete(tags, i);
          }
        }
        None
    }

    /** Alias lookup, ignoring case: the last tag with a non-empty alias that lowers to the lowered query. */
    function GetByAlias(alias: string): (r: Option<Tag>)
      requires Valid()
      ensures r.Some? <==> exists i :: 0 <= i < |tags| && AliasKey(tags[i].aliases, Lower(alias))
      ensures r.Some? ==> exists i :: 0 <= i < |tags| && r.value == tags[i] && AliasKey(tags[i].aliases, Lower(alias))
                                      && forall j :: i < j < |tags| ==> !AliasKey(tags[j].aliases, Lower(alias))
    {
      var k := Lower(alias);
      if k in byAlias then
        AliasIndexLastWins(tags, k);
        Some(byAlias[k])
      else
        assert forall i :: 0 <= i < |tags| ==> !AliasKey(tags[i].aliases, k) by {
          forall i | 0 <= i < |tags| && AliasKey(tags[i].aliases, k) ensures false {
            var a :| 0 <= a < |tags[i].aliases| && tags[i].aliases[a] != "" && Lower(tags[i].aliases[a]) == k;
            AliasIndexComplete(tags, i, a);
          }
        }
        None
    }

    /** Name first ("primary"), then alias ("alias"); Unresolved when neither matches. */
    function GetByNameOrAlias(text: string): (r: Resolution)
      requires Valid()
      ensures r.Resolved? ==> r.tag in tags
      ensures (r.Resolved? && r.matchType == Primary) <==>
              exists i :: 0 <= i < |tags| && Lower(tags[i].name) == Lower(text)
      ensures r.Resolved? && r.matchType == Primary ==> Lower(r.tag.name) == Lower(text)
      ensures r.Resolved? && r.matchType == Alias ==> AliasKey(r.tag.aliases, Lower(text))
      ensures r.Unresolved? <==>
              (forall i :: 0 <= i < |tags| ==> Lower(tags[i].name) != Lower(text)) &&
              (forall i :: 0 <= i < |tags| ==> !AliasKey(tags[i].aliases, Lower(text)))
    {
      match GetByName(text)
      case Some(t) => Resolved(t, Primary)
      case None =>
        match GetByAlias(text)
        case Some(t) => Resolved(t, Alias)
        case None => Unresolved
    }

    /** The tags of one type in list order; [] for a type outside the seven. */
    function GetByType(tagType: string): (r: seq<Tag>)
      requires Valid()
      ensures tagType !in IndexedTypes ==> r == []
      ensures tagType in IndexedTypes ==> r == OfType(tags, tagType)
      ensures forall x :: x in r <==> x in tags && x.tagType == tagType && tagType in IndexedTypes
    {
      if tagType in byType then
        assert forall x :: x in OfType(tags, tagType) <==> x in tags && x.tagType == tagType by {
          forall x { OfTypeMembers(tags, tagType, x); }
        }
        byType[tagType]
      else []
    }

    /** All tags; every value any index holds is one of them. */
    function GetAllTags(): (r: seq<Tag>)
      requires Valid()
      ensures forall k :: k in byName ==> byName[k] in r
      ensures forall k :: k in byAlias ==> byAlias[k] in r
      ensures forall t, x :: t in byType && x in byType[t] ==> x in r
    {
      forall k | k in byName ensures byName[k] in tags {
        NameIndexLastWins(tags, k);
      }
      forall k | k in byAlias ensures byAlias[k] in tags {
        AliasIndexLastWins(tags, k);
      }
      forall t, x | t in byType && x in byType[t] ensures x in tags {
        OfTypeMembers(tags, t, x);
      }
      tags
    }

    /** The number of tags, which bounds the number of distinct lowered names. */
    function GetTagsCount(): (n: nat)
      requires Valid()
      ensures n == |tags| && |byName| <= n
    {
      NameIndexSize(tags);
      |tags|
    }

    /** One prompt entry per tag, in order. */
    function GetFormattedForPrompt(): (r: seq<PromptTag>)
      ensures |r| == |tags|
      ensures forall i :: 0 <= i < |r| ==>
        r[i].name == tags[i].name && r[i].shortForm == tags[i].shortForm &&
        r[i].description == tags[i].publicDescription && r[i].tagType == tags[i].tagType
      ensures forall i, a :: 0 <= i < |r| ==> (a in r[i].aliases <==> a in tags[i].aliases && a != "")
      ensures forall i :: 0 <= i < |r| ==> r[i].aliases == NonEmpty(tags[i].aliases)
    {
      seq(|tags|, i requires 0 <= i < |tags| =>
        PromptTag(tags[i].name, NonEmpty(tags[i].aliases), tags[i].shortForm, tags[i].publicDescription, tags[i].tagType))
    }
  }

  /** Case-insensitivity: a query and its lower-cased form resolve identically. */
  lemma ResolutionIgnoresCase(cache: TagCache, text: string)
    requires cache.Valid()
    ensures cache.GetByNameOrAlias(text) == cache.GetByNameOrAlias(Lower(text))
  {
    LowerIdempotent(text);
  }
}
