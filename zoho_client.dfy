/**
 * The Zoho CRM side of tag synchronisation: turning a record of the IBRS_Tags
 * module into a tag, checking that a tag has what the taxonomy demands, the
 * page loop that collects every record, and the rule for when the OAuth
 * access token is refreshed. The HTTP requests themselves are parameters.
 */
module Zoho {
  import opened Wrappers
  import opened Text
  import opened Tags
  import Config

  /** A Zoho record: field name to text. */
  type ZohoRecord = map<string, string>

  /** The text of a field, "" when the record lacks it. */
  function Field(z: ZohoRecord, key: string): string {
    if key in z then z[key] else ""
  }

  /** Alias_1 .. Alias_4, each stripped, empty ones dropped, duplicates kept. */
  function AliasesOf(z: ZohoRecord): seq<string> {
    NonEmpty([Strip(Field(z, "Alias_1")), Strip(Field(z, "Alias_2")),
              Strip(Field(z, "Alias_3")), Strip(Field(z, "Alias_4"))])
  }

  /** At most four aliases, none empty, each already stripped. */
  lemma AliasesNormalised(z: ZohoRecord)
    ensures |AliasesOf(z)| <= 4
    ensures forall a :: a in AliasesOf(z) ==> a != "" && Strip(a) == a
  {
    StripIdempotent(Field(z, "Alias_1"));
    StripIdempotent(Field(z, "Alias_2"));
    StripIdempotent(Field(z, "Alias_3"));
    StripIdempotent(Field(z, "Alias_4"));
  }

  /** The internal form of a Zoho record. */
  function TransformTag(z: ZohoRecord): Tag {
    Tag(
      Field(z, "id"),
      Strip(Field(z, "name")),
      AliasesOf(z),
      Upper(Strip(Field(z, "Short_Form"))),
      Strip(Field(z, "Public_Description")),
      Strip(Field(z, "Internal_Commentary")),
      Strip(Field(z, "Type")),
      Field(z, "Created_Time"),
      Field(z, "Modified_Time"))
  }

  /** Every text field of a transformed tag is stripped; identifiers and timestamps are copied as they are. */
  lemma TransformTagNormalised(z: ZohoRecord)
    ensures var t := TransformTag(z);
      Strip(t.name) == t.name && Strip(t.tagType) == t.tagType
      && Strip(t.publicDescription) == t.publicDescription
      && Strip(t.internalCommentary) == t.internalCommentary
      && Strip(t.shortForm) == t.shortForm
    ensures var t := TransformTag(z);
      t.id == Field(z, "id") && t.createdAt == Field(z, "Created_Time") && t.updatedAt == Field(z, "Modified_Time")
  {
    StripIdempotent(Field(z, "name"));
    StripIdempotent(Field(z, "Public_Description"));
    StripIdempotent(Field(z, "Internal_Commentary"));
    StripIdempotent(Field(z, "Type"));
    StripIdempotent(Field(z, "Short_Form"));
    UpperKeepsStripped(Strip(Field(z, "Short_Form")));
  }

  /** The short form is upper case and has the length of the stripped field. */
  lemma ShortFormUpperCase(z: ZohoRecord)
    ensures var sf := TransformTag(z).shortForm;
      |sf| == |Strip(Field(z, "Short_Form"))| && forall i :: 0 <= i < |sf| ==> !('a' <= sf[i] <= 'z')
  {
  }

  /** Alias_1 to Alias_4 contribute in field order, each exactly when it is non-empty once stripped. */
  lemma AliasesInFieldOrder(z: ZohoRecord)
    ensures var a1, a2, a3, a4 := Strip(Field(z, "Alias_1")), Strip(Field(z, "Alias_2")),
                                  Strip(Field(z, "Alias_3")), Strip(Field(z, "Alias_4"));
      AliasesOf(z) == (if a1 != "" then [a1] else []) + (if a2 != "" then [a2] else [])
                    + (if a3 != "" then [a3] else []) + (if a4 != "" then [a4] else [])
  {
    var a1, a2, a3, a4 := Strip(Field(z, "Alias_1")), Strip(Field(z, "Alias_2")),
                          Strip(Field(z, "Alias_3")), Strip(Field(z, "Alias_4"));
    assert [a1, a2, a3, a4] == [a1] + [a2] + [a3] + [a4];
    NonEmptyAppend([a1] + [a2] + [a3], [a4]);
    NonEmptyAppend([a1] + [a2], [a3]);
    NonEmptyAppend([a1], [a2]);
    NonEmptySingleton(a1);
    NonEmptySingleton(a2);
    NonEmptySingleton(a3);
    NonEmptySingleton(a4);
  }

  /** Aliases that strip to the same text are all kept: nothing is deduplicated. With all four
      fields filled, the tag has four aliases in field order, equal or not. */
  lemma DuplicateAliasesKept(z: ZohoRecord)
    requires Strip(Field(z, "Alias_1")) != "" && Strip(Field(z, "Alias_2")) != ""
    requires Strip(Field(z, "Alias_3")) != "" && Strip(Field(z, "Alias_4")) != ""
    ensures AliasesOf(z) == [Strip(Field(z, "Alias_1")), Strip(Field(z, "Alias_2")),
                             Strip(Field(z, "Alias_3")), Strip(Field(z, "Alias_4"))]
  {
    AliasesInFieldOrder(z);
  }

  datatype TagError =
    | MissingName
    | MissingShortForm
    | MissingType
    | InvalidType(tagType: string)
    | InvalidHorizonName(name: string)

  /** The taxonomy's demands on one tag, as a verdict and the list of violations found. */
  function ValidateTag(t: Tag): (r: (bool, seq<TagError>))
    ensures r.0 <==> r.1 == []
    ensures r.0 <==> t.name != "" && t.shortForm != "" && t.tagType in Config.TagTypes
                     && (t.tagType == "Horizon" ==> t.name in Config.HorizonValues)
  {
    var errors :=
      (if t.name == "" then [MissingName] else [])
      + (if t.shortForm == "" then [MissingShortForm] else [])
      + (if t.tagType == "" then [MissingType]
         else if t.tagType !in Config.TagTypes then [InvalidType(t.tagType)] else [])
      + (if t.tagType == "Horizon" && t.name !in Config.HorizonValues then [InvalidHorizonName(t.name)] else []);
    assert "" !in Config.TagTypes;
    (|errors| == 0, errors)
  }

  /** The type errors: a missing type is reported as missing and never also as invalid;
      a present type outside the taxonomy is reported as invalid. */
  lemma ValidateTagTypeErrors(t: Tag)
    ensures var errors := ValidateTag(t).1;
      (MissingType in errors <==> t.tagType == "")
      && (MissingType in errors ==> forall e :: e in errors ==> !e.InvalidType?)
      && (InvalidType(t.tagType) in errors <==> t.tagType != "" && t.tagType !in Config.TagTypes)
  {
    assert "" !in Config.TagTypes;
  }

  // ---------------------------------------------------------------------------
  // The page loop.

  /** What one page request yields: the `data` records and `info.more_records`, either possibly absent. */
  datatype PageResponse = PageResponse(data: Option<seq<ZohoRecord>>, moreRecords: Option<bool>)

  /** A page request either answers or raises. */
  datatype PageOutcome = PageOk(response: PageResponse) | PageFailed(message: string)

  const MaxPages: nat := 100

  /** The transformed tags of a page. */
  function PageTags(p: PageResponse): (r: seq<Tag>)
    ensures |r| == |p.data.GetOr([])|
    ensures forall i :: 0 <= i < |r| ==> r[i] == TransformTag(p.data.GetOr([])[i])
  {
    var d := p.data.GetOr([]);
    seq(|d|, i requires 0 <= i < |d| => TransformTag(d[i]))
  }

  /** `more_records`, false when absent. */
  function HasMore(p: PageResponse): bool {
    p.moreRecords.GetOr(false)
  }

  /** What the loop collects from `page` on, given that it reaches `page`. */
  function Paginate(fetch: nat -> PageOutcome, page: nat): Result<seq<Tag>, string>
    requires 1 <= page <= MaxPages
    decreases MaxPages - page
  {
    match fetch(page)
    case PageFailed(m) => Failure(m)
    case PageOk(p) =>
      if !HasMore(p) || page + 1 > MaxPages then Success(PageTags(p))
      else Prefixed(PageTags(p), Paginate(fetch, page + 1))
  }

  /** The page loop of fetch_all_tags: pages 1, 2, ... until one says there are no more, at most 100. */
  method FetchAllTags(fetch: nat -> PageOutcome) returns (r: Result<seq<Tag>, string>)
    ensures r == Paginate(fetch, 1)
  {
    var allTags: seq<Tag> := [];
    var page: nat := 1;
    var hasMore := true;
    while hasMore
      invariant 1 <= page <= MaxPages
      invariant hasMore ==> Paginate(fetch, 1) == Prefixed(allTags, Paginate(fetch, page))
      invariant !hasMore ==> Paginate(fetch, 1) == Success(allTags)
      decreases MaxPages + 1 - page, hasMore
    {
      var outcome := fetch(page);
      if outcome.PageFailed? {
        return Failure(outcome.message);
      }
      var tags := PageTags(outcome.response);
      var more := HasMore(outcome.response);
      PrefixedTwice(allTags, tags, if more && page + 1 <= MaxPages then Paginate(fetch, page + 1) else Success([]));
      assert allTags + tags + [] == allTags + tags;
      allTags := allTags + tags;
      hasMore := more;
      if page + 1 > MaxPages {
        break;
      }
      page := page + 1;
    }
    return Success(allTags);
  }

  /** The tags of pages lo..hi, concatenated in page order. */
  function ConcatPages(fetch: nat -> PageOutcome, lo: nat, hi: nat): seq<Tag>
    decreases hi + 1 - lo
  {
    if lo > hi then []
    else (if fetch(lo).PageOk? then PageTags(fetch(lo).response) else []) + ConcatPages(fetch, lo + 1, hi)
  }

  /** The result is the concatenation of pages 1..last, where `last` is the first page
      without more records, or page 100 when every page claims more. */
  lemma {:induction false} PaginateConcat(fetch: nat -> PageOutcome, page: nat, last: nat)
    requires 1 <= page <= last <= MaxPages
    requires forall p :: page <= p <= last ==> fetch(p).PageOk?
    requires forall p :: page <= p < last ==> HasMore(fetch(p).response)
    requires last == MaxPages || !HasMore(fetch(last).response)
    ensures Paginate(fetch, page) == Success(ConcatPages(fetch, page, last))
    decreases last - page
  {
    assert fetch(page).PageOk?;
    var p := fetch(page).response;
    assert ConcatPages(fetch, page, last) == PageTags(p) + ConcatPages(fetch, page + 1, last);
    if page < last {
      assert HasMore(p);
      PaginateConcat(fetch, page + 1, last);
    } else {
      assert ConcatPages(fetch, page + 1, last) == [];
      assert PageTags(p) + [] == PageTags(p);
    }
  }

  /** Pages beyond 100 are never requested: the result depends on pages 1..100 only. */
  lemma {:induction false} PaginateIgnoresLaterPages(f: nat -> PageOutcome, g: nat -> PageOutcome, page: nat)
    requires 1 <= page <= MaxPages
    requires forall p :: page <= p <= MaxPages ==> f(p) == g(p)
    ensures Paginate(f, page) == Paginate(g, page)
    decreases MaxPages - page
  {
    if page < MaxPages {
      PaginateIgnoresLaterPages(f, g, page + 1);
    }
  }

  /** A failing page aborts the whole fetch with its own message. */
  lemma {:induction false} PaginateFailure(fetch: nat -> PageOutcome, page: nat, bad: nat)
    requires 1 <= page <= bad <= MaxPages
    requires forall p :: page <= p < bad ==> fetch(p).PageOk? && HasMore(fetch(p).response)
    requires fetch(bad).PageFailed?
    ensures Paginate(fetch, page) == Failure(fetch(bad).message)
    decreases bad - page
  {
    if page < bad {
      PaginateFailure(fetch, page + 1, bad);
    }
  }

  // ---------------------------------------------------------------------------
  // The access token.

  /** A token is fetched when there is none (or it is empty) or it expires within five minutes. */
  predicate NeedsRefresh(token: Option<string>, expiresAt: int, now: int) {
    token.None? || token.value == "" || now >= expiresAt - 300
  }

  /** A token refreshed at `now` is reused for 3300 seconds, then refreshed again. */
  lemma RefreshedTokenLifetime(token: string, now: int, later: int)
    requires token != ""
    ensures !NeedsRefresh(Some(token), now + 3600, later) <==> later < now + 3300
  {
  }

  class ZohoClient {
    var accessToken: Option<string>
    var tokenExpiresAt: int

    constructor ()
      ensures accessToken == None && tokenExpiresAt == 0
    {
      accessToken := None;
      tokenExpiresAt := 0;
    }

    /** `refreshed` is what the token endpoint would answer if it were asked. */
    method GetAccessToken(now: int, refreshed: Result<string, string>) returns (r: Result<string, string>)
      modifies this
      ensures !NeedsRefresh(old(accessToken), old(tokenExpiresAt), now) ==>
        r == Success(old(accessToken).value) && accessToken == old(accessToken) && tokenExpiresAt == old(tokenExpiresAt)
      ensures NeedsRefresh(old(accessToken), old(tokenExpiresAt), now) && refreshed.Success? ==>
        r == refreshed && accessToken == Some(refreshed.value) && tokenExpiresAt == now + 3600
      ensures NeedsRefresh(old(accessToken), old(tokenExpiresAt), now) && refreshed.Failure? ==>
        r == Failure("Failed to refresh Zoho access token: " + refreshed.error)
        && accessToken == old(accessToken) && tokenExpiresAt == old(tokenExpiresAt)
    {
      if NeedsRefresh(accessToken, tokenExpiresAt, now) {
        match refreshed
        case Failure(e) =>
          return Failure("Failed to refresh Zoho access token: " + e);
        case Success(token) =>
          accessToken := Some(token);
          tokenExpiresAt := now + 3600;
      }
      return Success(accessToken.value);
    }
  }
}
