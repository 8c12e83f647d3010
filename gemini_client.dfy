/**
 * Everything the classifier does with the model's answer: turning the raw
 * JSON into canonical tags of the snapshot (type filtering, the Solve and
 * first-Practice fallbacks), the mandatory-tag rules, the prompt truncation
 * and the retry schedule around the model call. The model, the JSON parser
 * and Python's float() of a string are parameters.
 */
module Classifier {
  import opened Wrappers
  import opened Text
  import opened Tags

  /** A parsed JSON value as Python's json module returns it (integers and floats apart). */
  datatype Json =
    | JNull
    | JBool(b: bool)
    | JInt(i: int)
    | JFloat(f: real)
    | JStr(s: string)
    | JArr(items: seq<Json>)
    | JObj(fields: map<string, Json>)

  /** Python's type() name of a JSON value, as it appears in runtime error messages. */
  function TypeName(j: Json): string {
    match j
    case JNull => "NoneType"
    case JBool(_) => "bool"
    case JInt(_) => "int"
    case JFloat(_) => "float"
    case JStr(_) => "str"
    case JArr(_) => "list"
    case JObj(_) => "dict"
  }

  datatype MatchedVia = ViaPrimary | ViaAlias | ViaDefault

  function Via(m: MatchType): MatchedVia {
    match m
    case Primary => ViaPrimary
    case Alias => ViaAlias
  }

  datatype EnrichedTag = EnrichedTag(name: string, shortForm: string, confidence: real, matchedVia: MatchedVia)

  /** The enriched result: its seven keys are the seven fields. */
  datatype Classification = Classification(
    horizon: Option<EnrichedTag>,
    practice: Option<EnrichedTag>,
    streams: seq<EnrichedTag>,
    roles: seq<EnrichedTag>,
    vendors: seq<EnrichedTag>,
    products: seq<EnrichedTag>,
    topics: seq<EnrichedTag>)

  /** What the enrichment raises, by cause. */
  datatype EnrichError =
    | NotAnObject(found: Json)
    | NameNotText(found: Json)
    | ConfidenceNotNumber(found: Json)
    | ConfidenceUnparsable(text: string)

  /** str() of the raised error. */
  function ErrorText(e: EnrichError): string {
    match e
    case NotAnObject(j) => "'" + TypeName(j) + "' object has no attribute 'get'"
    case NameNotText(j) => "'" + TypeName(j) + "' object has no attribute 'lower'"
    case ConfidenceNotNumber(j) => "float() argument must be a string or a real number, not '" + TypeName(j) + "'"
    case ConfidenceUnparsable(s) => "could not convert string to float: " + Repr(s)
  }

  /** The value under `key`, None when it is absent. */
  function Get(d: map<string, Json>, key: string): Option<Json> {
    if key in d then Some(d[key]) else None
  }

  /** The entry's name, "" when it has none; a name that is not text makes the lookup's lower-casing raise. */
  function NameOf(d: map<string, Json>): (r: Result<string, EnrichError>)
    ensures "name" !in d ==> r == Success("")
    ensures r.Success? ==> "name" !in d || d["name"] == JStr(r.value)
  {
    match Get(d, "name")
    case None => Success("")
    case Some(JStr(s)) => Success(s)
    case Some(other) => Failure(NameNotText(other))
  }

  /** The entry's confidence as a float, 0.0 when it has none; `parseFloat` is Python's float() of a string. */
  function ConfidenceOf(d: map<string, Json>, parseFloat: string -> Option<real>): (r: Result<real, EnrichError>)
    ensures "confidence" !in d ==> r == Success(0.0)
    ensures "confidence" in d && d["confidence"].JFloat? ==> r == Success(d["confidence"].f)
    ensures "confidence" in d && d["confidence"].JInt? ==> r == Success(d["confidence"].i as real)
  {
    match Get(d, "confidence")
    case None => Success(0.0)
    case Some(JFloat(f)) => Success(f)
    case Some(JInt(i)) => Success(i as real)
    case Some(JBool(b)) => Success(if b then 1.0 else 0.0)
    case Some(JStr(s)) =>
      (match parseFloat(s)
       case Some(x) => Success(x)
       case None => Failure(ConfidenceUnparsable(s)))
    case Some(other) => Failure(ConfidenceNotNumber(other))
  }

  /** `name` resolves, by name or alias, to a snapshot tag of type `wantType`. */
  predicate ResolvesTo(cache: TagCache, name: string, wantType: string)
    requires cache.Valid()
  {
    var res := cache.GetByNameOrAlias(name);
    res.Resolved? && res.tag.tagType == wantType
  }

  /**
   * One raw tag object: kept, as the snapshot's tag with the entry's confidence and the way it
   * matched, exactly when its name resolves to a tag of `wantType`; dropped when it does not.
   * A name that is not text, or a confidence float() refuses, raises.
   */
  function Accept(cache: TagCache, d: map<string, Json>, wantType: string, parseFloat: string -> Option<real>)
    : (r: Result<Option<EnrichedTag>, EnrichError>)
    requires cache.Valid()
    ensures r.Success? && r.value.Some? ==>
      var e := r.value.value;
      e.matchedVia != ViaDefault
      && exists t :: t in cache.tags && t.tagType == wantType && e.name == t.name && e.shortForm == t.shortForm
    ensures NameOf(d).Failure? ==> r == Failure(NameOf(d).error)
    ensures NameOf(d).Success? && !ResolvesTo(cache, NameOf(d).value, wantType) ==> r == Success(None)
    ensures NameOf(d).Success? && ResolvesTo(cache, NameOf(d).value, wantType) ==>
      var res := cache.GetByNameOrAlias(NameOf(d).value);
      (ConfidenceOf(d, parseFloat).Failure? ==> r == Failure(ConfidenceOf(d, parseFloat).error))
      && (ConfidenceOf(d, parseFloat).Success? ==>
            r == Success(Some(EnrichedTag(res.tag.name, res.tag.shortForm, ConfidenceOf(d, parseFloat).value, Via(res.matchType)))))
  {
    match NameOf(d)
    case Failure(err) => Failure(err)
    case Success(name) =>
      match cache.GetByNameOrAlias(name)
      case Unresolved => Success(None)
      case Resolved(t, m) =>
        if t.tagType != wantType then Success(None)
        else
          match ConfidenceOf(d, parseFloat)
          case Failure(err) => Failure(err)
          case Success(c) => Success(Some(EnrichedTag(t.name, t.shortForm, c, Via(m))))
  }

  function AsSeq<T>(o: Option<T>): seq<T> {
    match o
    case None => []
    case Some(x) => [x]
  }

  /** The raw entries of one optional list, kept in order when they are objects that resolve to `wantType`. */
  function KeepOfType(cache: TagCache, items: seq<Json>, wantType: string, parseFloat: string -> Option<real>)
    : Result<seq<EnrichedTag>, EnrichError>
    requires cache.Valid()
  {
    if items == [] then Success([])
    else
      match items[0]
      case JObj(d) =>
        (match Accept(cache, d, wantType, parseFloat)
         case Failure(err) => Failure(err)
         case Success(o) => Prefixed(AsSeq(o), KeepOfType(cache, items[1..], wantType, parseFloat)))
      case _ => KeepOfType(cache, items[1..], wantType, parseFloat)
  }

  /** The five optional keys with the type each keeps. */
  const OptionalKinds: seq<(string, string)> := [
    ("streams", "Stream"), ("roles", "Role"), ("vendors", "Vendor"), ("products", "Product"), ("topics", "Topic")]

  /** The entries kept from the list under `key`; nothing when the key is absent or is not a list. */
  function OptionalList(cache: TagCache, top: map<string, Json>, key: string, wantType: string,
                        parseFloat: string -> Option<real>): (r: Result<seq<EnrichedTag>, EnrichError>)
    requires cache.Valid()
    ensures key !in top || !top[key].JArr? ==> r == Success([])
  {
    match Get(top, key)
    case Some(JArr(items)) => KeepOfType(cache, items, wantType, parseFloat)
    case _ => Success([])
  }

  /** The raw horizon or practice candidate: a non-empty object whose name resolves to `wantType`. */
  function Mandatory(cache: TagCache, top: map<string, Json>, key: string, wantType: string,
                     parseFloat: string -> Option<real>): Result<Option<EnrichedTag>, EnrichError>
    requires cache.Valid()
  {
    match Get(top, key)
    case Some(JObj(d)) => if |d| > 0 then Accept(cache, d, wantType, parseFloat) else Success(None)
    case _ => Success(None)
  }

  /** Whatever "Solve" resolves to, of any type, with confidence 0.5. */
  function HorizonFallback(cache: TagCache): Option<EnrichedTag>
    requires cache.Valid()
  {
    match cache.GetByNameOrAlias("Solve")
    case Resolved(t, _) => Some(EnrichedTag(t.name, t.shortForm, 0.5, ViaDefault))
    case Unresolved => None
  }

  /** The first Practice tag of the snapshot, with confidence 0.3. */
  function PracticeFallback(cache: TagCache): Option<EnrichedTag>
    requires cache.Valid()
  {
    var practices := cache.GetByType("Practice");
    if practices == [] then None
    else Some(EnrichedTag(practices[0].name, practices[0].shortForm, 0.3, ViaDefault))
  }

  /** The optional lists of `kinds`, in order, stopping at the first error. */
  function OptionalLists(cache: TagCache, top: map<string, Json>, kinds: seq<(string, string)>,
                         parseFloat: string -> Option<real>): (r: Result<seq<seq<EnrichedTag>>, EnrichError>)
    requires cache.Valid()
    ensures r.Success? ==> |r.value| == |kinds|
  {
    if kinds == [] then Success([])
    else
      match OptionalList(cache, top, kinds[0].0, kinds[0].1, parseFloat)
      case Failure(e) => Failure(e)
      case Success(l) => Prefixed([l], OptionalLists(cache, top, kinds[1..], parseFloat))
  }

  /** Each list of a successful result is that kind's own optional list. */
  lemma {:induction false} OptionalListsEach(cache: TagCache, top: map<string, Json>, kinds: seq<(string, string)>,
                                             parseFloat: string -> Option<real>)
    requires cache.Valid()
    requires OptionalLists(cache, top, kinds, parseFloat).Success?
    ensures forall i :: 0 <= i < |kinds| ==>
      OptionalList(cache, top, kinds[i].0, kinds[i].1, parseFloat) == Success(OptionalLists(cache, top, kinds, parseFloat).value[i])
  {
    if kinds != [] {
      OptionalListsEach(cache, top, kinds[1..], parseFloat);
      assert forall i :: 1 <= i < |kinds| ==> kinds[i] == kinds[1..][i - 1];
    }
  }

  function OrElse<T>(o: Option<T>, fallback: Option<T>): Option<T> {
    if o.Some? then o else fallback
  }

  /** _validate_and_enrich_classification, in the order the source evaluates it. */
  function Enrich(cache: TagCache, raw: Json, parseFloat: string -> Option<real>): Result<Classification, EnrichError>
    requires cache.Valid()
  {
    if !raw.JObj? then Failure(NotAnObject(raw))
    else
      var top := raw.fields;
      match Mandatory(cache, top, "horizon", "Horizon", parseFloat)
      case Failure(e) => Failure(e)
      case Success(h) =>
        var horizon := OrElse(h, HorizonFallback(cache));
        match Mandatory(cache, top, "practice", "Practice", parseFloat)
        case Failure(e) => Failure(e)
        case Success(p) =>
          var practice := OrElse(p, PracticeFallback(cache));
          match OptionalLists(cache, top, OptionalKinds, parseFloat)
          case Failure(e) => Failure(e)
          case Success(ls) => Success(Classification(horizon, practice, ls[0], ls[1], ls[2], ls[3], ls[4]))
  }

  /** The inner loop over one optional list. */
  method CollectOfType(cache: TagCache, items: seq<Json>, wantType: string, parseFloat: string -> Option<real>)
    returns (r: Result<seq<EnrichedTag>, EnrichError>)
    requires cache.Valid()
    ensures r == KeepOfType(cache, items, wantType, parseFloat)
  {
    var kept: seq<EnrichedTag> := [];
    for i := 0 to |items|
      invariant KeepOfType(cache, items, wantType, parseFloat) == Prefixed(kept, KeepOfType(cache, items[i..], wantType, parseFloat))
    {
      assert items[i..][1..] == items[i + 1..];
      if items[i].JObj? {
        var accepted := Accept(cache, items[i].fields, wantType, parseFloat);
        if accepted.Failure? {
          return Failure(accepted.error);
        }
        PrefixedTwice(kept, AsSeq(accepted.value), KeepOfType(cache, items[i + 1..], wantType, parseFloat));
        kept := kept + AsSeq(accepted.value);
      }
    }
    assert KeepOfType(cache, items[|items|..], wantType, parseFloat) == Success([]);
    assert kept + [] == kept;
    return Success(kept);
  }

  /** The enrichment step by step: the two mandatory tags with their fallbacks, then the loop over the five optional lists. */
  method EnrichClassification(cache: TagCache, raw: Json, parseFloat: string -> Option<real>)
    returns (r: Result<Classification, EnrichError>)
    requires cache.Valid()
    ensures r == Enrich(cache, raw, parseFloat)
  {
    if !raw.JObj? {
      return Failure(NotAnObject(raw));
    }
    var top := raw.fields;
    var h := Mandatory(cache, top, "horizon", "Horizon", parseFloat);
    if h.Failure? {
      return Failure(h.error);
    }
    var horizon := h.value;
    if horizon.None? {
      horizon := HorizonFallback(cache);
    }
    var p := Mandatory(cache, top, "practice", "Practice", parseFloat);
    if p.Failure? {
      return Failure(p.error);
    }
    var practice := p.value;
    if practice.None? {
      practice := PracticeFallback(cache);
    }
    var lists := CollectOptionalLists(cache, top, OptionalKinds, parseFloat);
    if lists.Failure? {
      return Failure(lists.error);
    }
    var ls := lists.value;
    r := Success(Classification(horizon, practice, ls[0], ls[1], ls[2], ls[3], ls[4]));
  }

  /** The loop over the five optional lists, stopping at the first error. */
  method CollectOptionalLists(cache: TagCache, top: map<string, Json>, kinds: seq<(string, string)>,
                              parseFloat: string -> Option<real>)
    returns (r: Result<seq<seq<EnrichedTag>>, EnrichError>)
    requires cache.Valid()
    ensures r == OptionalLists(cache, top, kinds, parseFloat)
  {
    var lists: seq<seq<EnrichedTag>> := [];
    for k := 0 to |kinds|
      invariant OptionalLists(cache, top, kinds, parseFloat) == Prefixed(lists, OptionalLists(cache, top, kinds[k..], parseFloat))
    {
      var (key, wantType) := kinds[k];
      assert kinds[k..][1..] == kinds[k + 1..];
      var list: seq<EnrichedTag> := [];
      if key in top && top[key].JArr? {
        var collected := CollectOfType(cache, top[key].items, wantType, parseFloat);
        if collected.Failure? {
          return Failure(collected.error);
        }
        list := collected.value;
      }
      PrefixedTwice(lists, [list], OptionalLists(cache, top, kinds[k + 1..], parseFloat));
      lists := lists + [list];
    }
    assert lists + [] == lists;
    return Success(lists);
  }

  // ---------------------------------------------------------------------------
  // What the enrichment guarantees.

  /** Every kept optional entry is a snapshot tag of the list's type, found by name or alias. */
  lemma {:induction false} KeptEntriesResolve(cache: TagCache, items: seq<Json>, wantType: string, parseFloat: string -> Option<real>)
    requires cache.Valid()
    requires KeepOfType(cache, items, wantType, parseFloat).Success?
    ensures var kept := KeepOfType(cache, items, wantType, parseFloat).value;
      forall e :: e in kept ==>
        e.matchedVia != ViaDefault
        && exists t :: t in cache.tags && t.tagType == wantType && e.name == t.name && e.shortForm == t.shortForm
  {
    if items != [] {
      KeptEntriesResolve(cache, items[1..], wantType, parseFloat);
      if items[0].JObj? {
        var o := Accept(cache, items[0].fields, wantType, parseFloat).value;
        var rest := KeepOfType(cache, items[1..], wantType, parseFloat).value;
        assert KeepOfType(cache, items, wantType, parseFloat).value == AsSeq(o) + rest;
      }
    }
  }

  /** Entries that are not objects are dropped silently: a list of them keeps nothing. */
  lemma {:induction false} NonObjectsDropped(cache: TagCache, items: seq<Json>, wantType: string, parseFloat: string -> Option<real>)
    requires cache.Valid()
    requires forall i :: 0 <= i < |items| ==> !items[i].JObj?
    ensures KeepOfType(cache, items, wantType, parseFloat) == Success([])
  {
    if items != [] {
      NonObjectsDropped(cache, items[1..], wantType, parseFloat);
    }
  }

  /** An entry whose name resolves to no tag, or to a tag of another type, is dropped. */
  lemma UnresolvedEntryDropped(cache: TagCache, d: map<string, Json>, rest: seq<Json>, wantType: string, parseFloat: string -> Option<real>)
    requires cache.Valid()
    requires NameOf(d).Success?
    requires var res := cache.GetByNameOrAlias(NameOf(d).value); res.Unresolved? || res.tag.tagType != wantType
    ensures KeepOfType(cache, [JObj(d)] + rest, wantType, parseFloat) == KeepOfType(cache, rest, wantType, parseFloat)
  {
    assert ([JObj(d)] + rest)[1..] == rest;
    var k := KeepOfType(cache, rest, wantType, parseFloat);
    if k.Success? {
      assert [] + k.value == k.value;
    }
  }

  /** The accepted horizon is a Horizon tag of the snapshot; the default is what "Solve" resolves to. */
  lemma HorizonSound(cache: TagCache, raw: Json, parseFloat: string -> Option<real>)
    requires cache.Valid()
    requires Enrich(cache, raw, parseFloat).Success?
    ensures var h := Enrich(cache, raw, parseFloat).value.horizon;
      (h.Some? && h.value.matchedVia != ViaDefault ==>
         exists t :: t in cache.tags && t.tagType == "Horizon" && h.value.name == t.name && h.value.shortForm == t.shortForm)
      && (h.Some? && h.value.matchedVia == ViaDefault ==>
         cache.GetByNameOrAlias("Solve").Resolved? && h.value.name == cache.GetByNameOrAlias("Solve").tag.name
         && h.value.confidence == 0.5)
      && (h.None? ==> cache.GetByNameOrAlias("Solve").Unresolved?)
  {
  }

  /** Practice is missing exactly when the snapshot has no Practice tag. */
  lemma PracticeMissingIffNoPracticeTags(cache: TagCache, raw: Json, parseFloat: string -> Option<real>)
    requires cache.Valid()
    requires Enrich(cache, raw, parseFloat).Success?
    ensures Enrich(cache, raw, parseFloat).value.practice.None? <==> cache.GetByType("Practice") == []
  {
    var p := Mandatory(cache, raw.fields, "practice", "Practice", parseFloat).value;
    if p.Some? {
      var t :| t in cache.tags && t.tagType == "Practice" && p.value.name == t.name && p.value.shortForm == t.shortForm;
      assert t in cache.GetByType("Practice");
    }
  }

  /** The raw answer's entry under `key` is a non-empty object whose name resolves to a tag of `wantType`. */
  predicate NamesTagOf(cache: TagCache, top: map<string, Json>, key: string, wantType: string)
    requires cache.Valid()
  {
    key in top && top[key].JObj? && |top[key].fields| > 0
    && NameOf(top[key].fields).Success? && ResolvesTo(cache, NameOf(top[key].fields).value, wantType)
  }

  /** The tag the model named under `key`, enriched: the snapshot tag with the model's confidence. */
  function Named(cache: TagCache, top: map<string, Json>, key: string, wantType: string, parseFloat: string -> Option<real>)
    : Option<EnrichedTag>
    requires cache.Valid()
    requires NamesTagOf(cache, top, key, wantType)
  {
    var d := top[key].fields;
    var res := cache.GetByNameOrAlias(NameOf(d).value);
    match ConfidenceOf(d, parseFloat)
    case Success(c) => Some(EnrichedTag(res.tag.name, res.tag.shortForm, c, Via(res.matchType)))
    case Failure(_) => None
  }

  /** A horizon the model names, that resolves to a Horizon tag, is kept with its confidence: the
      default is not used then. */
  lemma HorizonKept(cache: TagCache, raw: Json, parseFloat: string -> Option<real>)
    requires cache.Valid()
    requires Enrich(cache, raw, parseFloat).Success?
    requires NamesTagOf(cache, raw.fields, "horizon", "Horizon")
    ensures var h := Enrich(cache, raw, parseFloat).value.horizon;
      h.Some? && h.value.matchedVia != ViaDefault
      && ConfidenceOf(raw.fields["horizon"].fields, parseFloat).Success?
      && h == Named(cache, raw.fields, "horizon", "Horizon", parseFloat)
  {
  }

  /** Only when no named horizon resolves to a Horizon tag is the default taken: whatever "Solve"
      resolves to, at confidence 0.5, or no horizon at all. */
  lemma HorizonFallbackWhenNotKept(cache: TagCache, raw: Json, parseFloat: string -> Option<real>)
    requires cache.Valid()
    requires Enrich(cache, raw, parseFloat).Success?
    requires !NamesTagOf(cache, raw.fields, "horizon", "Horizon")
    ensures var h := Enrich(cache, raw, parseFloat).value.horizon;
      var solve := cache.GetByNameOrAlias("Solve");
      (solve.Unresolved? ==> h.None?)
      && (solve.Resolved? ==> h == Some(EnrichedTag(solve.tag.name, solve.tag.shortForm, 0.5, ViaDefault)))
  {
  }

  /** A practice the model names, that resolves to a Practice tag, is kept with its confidence. */
  lemma PracticeKept(cache: TagCache, raw: Json, parseFloat: string -> Option<real>)
    requires cache.Valid()
    requires Enrich(cache, raw, parseFloat).Success?
    requires NamesTagOf(cache, raw.fields, "practice", "Practice")
    ensures var p := Enrich(cache, raw, parseFloat).value.practice;
      p.Some? && p.value.matchedVia != ViaDefault
      && ConfidenceOf(raw.fields["practice"].fields, parseFloat).Success?
      && p == Named(cache, raw.fields, "practice", "Practice", parseFloat)
  {
  }

  /** Only when no named practice resolves to a Practice tag is the default taken: the first Practice
      tag of the snapshot, in its order, at confidence 0.3, or no practice when there is none. */
  lemma PracticeFallbackFirst(cache: TagCache, raw: Json, parseFloat: string -> Option<real>)
    requires cache.Valid()
    requires Enrich(cache, raw, parseFloat).Success?
    requires !NamesTagOf(cache, raw.fields, "practice", "Practice")
    ensures var p := Enrich(cache, raw, parseFloat).value.practice;
      var practices := OfType(cache.tags, "Practice");
      (practices == [] ==> p.None?)
      && (practices != [] ==> p == Some(EnrichedTag(practices[0].name, practices[0].shortForm, 0.3, ViaDefault)))
  {
  }

  /** A snapshot tag of type `wantType` carries the entry's name and short form. */
  ghost predicate FromSnapshot(cache: TagCache, e: EnrichedTag, wantType: string)
    reads cache
  {
    exists t :: t in cache.tags && t.tagType == wantType && e.name == t.name && e.shortForm == t.shortForm
  }

  /** The entries kept under `key` all come from snapshot tags of `wantType`. */
  lemma OptionalListSound(cache: TagCache, top: map<string, Json>, key: string, wantType: string,
                          parseFloat: string -> Option<real>)
    requires cache.Valid()
    requires OptionalList(cache, top, key, wantType, parseFloat).Success?
    ensures forall e :: e in OptionalList(cache, top, key, wantType, parseFloat).value ==>
      e.matchedVia != ViaDefault && FromSnapshot(cache, e, wantType)
  {
    if key in top && top[key].JArr? {
      KeptEntriesResolve(cache, top[key].items, wantType, parseFloat);
    }
  }

  /** Each optional list holds only tags of its own type, found by name or alias. */
  lemma OptionalListsSound(cache: TagCache, raw: Json, parseFloat: string -> Option<real>)
    requires cache.Valid()
    requires Enrich(cache, raw, parseFloat).Success?
    ensures var c := Enrich(cache, raw, parseFloat).value;
      (forall e :: e in c.streams ==> e.matchedVia != ViaDefault && FromSnapshot(cache, e, "Stream"))
      && (forall e :: e in c.roles ==> e.matchedVia != ViaDefault && FromSnapshot(cache, e, "Role"))
      && (forall e :: e in c.vendors ==> e.matchedVia != ViaDefault && FromSnapshot(cache, e, "Vendor"))
      && (forall e :: e in c.products ==> e.matchedVia != ViaDefault && FromSnapshot(cache, e, "Product"))
      && (forall e :: e in c.topics ==> e.matchedVia != ViaDefault && FromSnapshot(cache, e, "Topic"))
  {
    var top := raw.fields;
    OptionalListsEach(cache, top, OptionalKinds, parseFloat);
    OptionalListSound(cache, top, "streams", "Stream", parseFloat);
    OptionalListSound(cache, top, "roles", "Role", parseFloat);
    OptionalListSound(cache, top, "vendors", "Vendor", parseFloat);
    OptionalListSound(cache, top, "products", "Product", parseFloat);
    OptionalListSound(cache, top, "topics", "Topic", parseFloat);
  }

  /** A top level that is not a JSON object fails the enrichment. */
  lemma NonObjectFails(cache: TagCache, raw: Json, parseFloat: string -> Option<real>)
    requires cache.Valid()
    requires !raw.JObj?
    ensures Enrich(cache, raw, parseFloat) == Failure(NotAnObject(raw))
    ensures ErrorText(NotAnObject(raw)) == "'" + TypeName(raw) + "' object has no attribute 'get'"
  {
  }

  /** The stored form of a classification: exactly its seven keys. */
  function TagJson(e: EnrichedTag): Json {
    JObj(map[
      "name" := JStr(e.name),
      "short_form" := JStr(e.shortForm),
      "confidence" := JFloat(e.confidence),
      "matched_via" := JStr(match e.matchedVia case ViaPrimary => "primary" case ViaAlias => "alias" case ViaDefault => "default")])
  }

  function OptionJson(o: Option<EnrichedTag>): Json {
    match o
    case None => JNull
    case Some(e) => TagJson(e)
  }

  function ListJson(s: seq<EnrichedTag>): (j: Json)
    ensures j.JArr? && |j.items| == |s|
  {
    JArr(seq(|s|, i requires 0 <= i < |s| => TagJson(s[i])))
  }

  function ClassificationJson(c: Classification): (j: Json)
    ensures j.JObj? && j.fields.Keys == {"horizon", "practice", "streams", "roles", "vendors", "products", "topics"}
    ensures j.fields["horizon"] == OptionJson(c.horizon) && j.fields["practice"] == OptionJson(c.practice)
    ensures forall k :: k in j.fields && k != "horizon" && k != "practice" ==> j.fields[k].JArr?
  {
    JObj(map[
      "horizon" := OptionJson(c.horizon),
      "practice" := OptionJson(c.practice),
      "streams" := ListJson(c.streams),
      "roles" := ListJson(c.roles),
      "vendors" := ListJson(c.vendors),
      "products" := ListJson(c.products),
      "topics" := ListJson(c.topics)])
  }

  // ---------------------------------------------------------------------------
  // The mandatory-tag rules.

  /** validate_classification_rules */
  function ValidateRules(c: Classification): (r: (bool, seq<string>))
    ensures r.0 <==> r.1 == []
  {
    var horizonErrors :=
      match c.horizon
      case None => ["Missing mandatory Horizon tag"]
      case Some(h) => if h.name !in ["Solve", "Plan", "Explore"] then ["Invalid Horizon value: " + h.name] else [];
    var errors := horizonErrors + (if c.practice.None? then ["Missing mandatory Practice tag"] else []);
    (|errors| == 0, errors)
  }

  /** A classification passes exactly when its horizon is one of the three values and it has a
      practice; each missing mandatory tag is reported, and a wrong horizon value comes first. */
  lemma RulesReported(c: Classification)
    ensures var r := ValidateRules(c);
      (r.0 <==> c.horizon.Some? && c.horizon.value.name in ["Solve", "Plan", "Explore"] && c.practice.Some?)
      && |r.1| <= 2
      && ("Missing mandatory Horizon tag" in r.1 <==> c.horizon.None?)
      && ("Missing mandatory Practice tag" in r.1 <==> c.practice.None?)
      && (c.horizon.Some? && c.horizon.value.name !in ["Solve", "Plan", "Explore"] ==>
          r.1[0] == "Invalid Horizon value: " + c.horizon.value.name)
  {
    assert forall n: string :: ("Invalid Horizon value: " + n)[0] == 'I';
  }

  /** The default horizon is not checked for its type. When no named horizon is kept and "Solve"
      resolves to a tag of another type, that tag becomes the horizon; the rules then reject the
      classification unless the tag's name is itself one of the three horizon values. */
  lemma FallbackHorizonUnchecked(cache: TagCache, raw: Json, parseFloat: string -> Option<real>)
    requires cache.Valid()
    requires Enrich(cache, raw, parseFloat).Success?
    requires !NamesTagOf(cache, raw.fields, "horizon", "Horizon")
    requires cache.GetByNameOrAlias("Solve").Resolved? && cache.GetByNameOrAlias("Solve").tag.tagType != "Horizon"
    ensures var t := cache.GetByNameOrAlias("Solve").tag;
      var c := Enrich(cache, raw, parseFloat).value;
      c.horizon == Some(EnrichedTag(t.name, t.shortForm, 0.5, ViaDefault))
      && (t.name !in ["Solve", "Plan", "Explore"] <==>
            |ValidateRules(c).1| > 0 && ValidateRules(c).1[0] == "Invalid Horizon value: " + t.name)
  {
    HorizonFallbackWhenNotKept(cache, raw, parseFloat);
    var t := cache.GetByNameOrAlias("Solve").tag;
    var c := Enrich(cache, raw, parseFloat).value;
    RulesReported(c);
    if t.name in ["Solve", "Plan", "Explore"] {
      assert c.practice.None? ==> ValidateRules(c).1 == ["Missing mandatory Practice tag"];
      assert "Missing mandatory Practice tag" != "Invalid Horizon value: " + t.name by {
        assert "Invalid Horizon value: "[0] == ("Invalid Horizon value: " + t.name)[0];
      }
    }
  }

  // ---------------------------------------------------------------------------
  // The prompt and the retries.

  const MaxPromptChars: nat := 100000
  const TruncationMarker: string := "\n\n[Document truncated for analysis]"

  /** Text over 100000 characters keeps its first 100000 and gets the marker; shorter text is unchanged. */
  function TruncateForPrompt(text: string): (r: string)
    ensures |text| <= MaxPromptChars ==> r == text
    ensures |text| > MaxPromptChars ==>
      |r| == MaxPromptChars + |TruncationMarker| && r[..MaxPromptChars] == text[..MaxPromptChars]
      && r[MaxPromptChars..] == TruncationMarker
  {
    if |text| > MaxPromptChars then text[..MaxPromptChars] + TruncationMarker else text
  }

  /** What one call of the model yields: its reply text, or the error it raised. */
  datatype Attempt = Reply(text: string) | CallFailed(message: string)

  /** One attempt, through parsing and enrichment. */
  datatype AttemptOutcome = Classified(c: Classification) | BadJson(message: string) | AttemptError(message: string)

  function Outcome(a: Attempt, cache: TagCache, parseJson: string -> Result<Json, string>,
                   parseFloat: string -> Option<real>): AttemptOutcome
    requires cache.Valid()
  {
    match a
    case CallFailed(m) => AttemptError(m)
    case Reply(text) =>
      match parseJson(text)
      case Failure(m) => BadJson(m)
      case Success(j) =>
        match Enrich(cache, j, parseFloat)
        case Failure(e) => AttemptError(ErrorText(e))
        case Success(c) => Classified(c)
  }

  /** The outcome of every call of the model, by attempt number. */
  function Attempts(model: nat -> Attempt, cache: TagCache, parseJson: string -> Result<Json, string>,
                    parseFloat: string -> Option<real>): nat -> AttemptOutcome
    requires cache.Valid()
  {
    (k: nat) => Outcome(model(k), cache, parseJson, parseFloat)
  }

  function Pow2(k: nat): (r: nat)
    ensures r >= 1
  {
    if k == 0 then 1 else 2 * Pow2(k - 1)
  }

  function FailureMessage(maxRetries: int, lastError: Option<string>): string {
    "Classification failed after " + IntToString(maxRetries) + " attempts. Last error: "
    + (match lastError case Some(m) => m case None => "None")
  }

  /** The attempts from `k` on: the classification or the final error, and the sleeps taken. */
  function Retry(k: nat, maxRetries: int, lastError: Option<string>, outcome: nat -> AttemptOutcome)
    : (r: (Result<Classification, string>, seq<nat>))
    decreases maxRetries - k
  {
    if k >= maxRetries then (Failure(FailureMessage(maxRetries, lastError)), [])
    else
      match outcome(k)
      case Classified(c) => (Success(c), [])
      case BadJson(m) => Retry(k + 1, maxRetries, Some("Invalid JSON response from Gemini: " + m), outcome)
      case AttemptError(m) =>
        var rest := Retry(k + 1, maxRetries, Some(m), outcome);
        (rest.0, (if k < maxRetries - 1 then [Pow2(k)] else []) + rest.1)
  }

  /**
   * classify_document: up to `maxRetries` calls of the model (`model(k)` answers call k),
   * the first that parses and enriches wins. `sleeps` lists the back-off waits in seconds.
   */
  method ClassifyDocument(cache: TagCache, maxRetries: int, model: nat -> Attempt,
                          parseJson: string -> Result<Json, string>, parseFloat: string -> Option<real>)
    returns (r: Result<Classification, string>, sleeps: seq<nat>)
    requires cache.Valid()
    ensures (r, sleeps) == Retry(0, maxRetries, None, Attempts(model, cache, parseJson, parseFloat))
  {
    ghost var outcome := Attempts(model, cache, parseJson, parseFloat);
    var lastError: Option<string> := None;
    sleeps := [];
    assert [] + Retry(0, maxRetries, None, outcome).1 == Retry(0, maxRetries, None, outcome).1;
    var attempt: nat := 0;
    while attempt < maxRetries
      invariant Retry(0, maxRetries, None, outcome)
             == (Retry(attempt, maxRetries, lastError, outcome).0, sleeps + Retry(attempt, maxRetries, lastError, outcome).1)
      decreases maxRetries - attempt
    {
      var a := model(attempt);
      var o := Outcome(a, cache, parseJson, parseFloat);
      assert o == outcome(attempt);
      match o {
        case Classified(c) =>
          assert sleeps + [] == sleeps;
          return Success(c), sleeps;
        case BadJson(m) =>
          lastError := Some("Invalid JSON response from Gemini: " + m);
        case AttemptError(m) =>
          lastError := Some(m);
          var rest := Retry(attempt + 1, maxRetries, lastError, outcome);
          if attempt < maxRetries - 1 {
            assert sleeps + ([Pow2(attempt)] + rest.1) == (sleeps + [Pow2(attempt)]) + rest.1;
            sleeps := sleeps + [Pow2(attempt)];
          } else {
            assert [] + rest.1 == rest.1;
          }
      }
      attempt := attempt + 1;
    }
    assert sleeps + [] == sleeps;
    r := Failure(FailureMessage(maxRetries, lastError));
  }

  /** `x` is 2^j for some j in [lo, hi). */
  ghost predicate PowerBetween(x: nat, lo: nat, hi: int) {
    exists j: nat :: lo <= j < hi && x == Pow2(j)
  }

  /** At most one sleep per attempt from k on, and none after the final attempt. */
  lemma {:induction false} SleepsBounded(k: nat, maxRetries: int, lastError: Option<string>, outcome: nat -> AttemptOutcome)
    ensures |Retry(k, maxRetries, lastError, outcome).1| <= if maxRetries - 1 > k then maxRetries - 1 - k else 0
    decreases maxRetries - k
  {
    if k < maxRetries {
      match outcome(k)
      case Classified(_) =>
      case BadJson(m) =>
        SleepsBounded(k + 1, maxRetries, Some("Invalid JSON response from Gemini: " + m), outcome);
      case AttemptError(m) =>
        SleepsBounded(k + 1, maxRetries, Some(m), outcome);
    }
  }

  /** Each sleep is 2^j seconds for an attempt j from k on that is not the final one. */
  lemma {:induction false} SleepsArePowers(k: nat, maxRetries: int, lastError: Option<string>, outcome: nat -> AttemptOutcome)
    ensures forall i :: 0 <= i < |Retry(k, maxRetries, lastError, outcome).1| ==>
      PowerBetween(Retry(k, maxRetries, lastError, outcome).1[i], k, maxRetries - 1)
    decreases maxRetries - k
  {
    if k < maxRetries {
      match outcome(k)
      case Classified(_) =>
      case BadJson(m) =>
        var last := Some("Invalid JSON response from Gemini: " + m);
        SleepsArePowers(k + 1, maxRetries, last, outcome);
        var s := Retry(k + 1, maxRetries, last, outcome).1;
        forall i | 0 <= i < |s| ensures PowerBetween(s[i], k, maxRetries - 1) {
          assert PowerBetween(s[i], k + 1, maxRetries - 1);
          var j: nat :| k + 1 <= j < maxRetries - 1 && s[i] == Pow2(j);
        }
      case AttemptError(m) =>
        SleepsArePowers(k + 1, maxRetries, Some(m), outcome);
        var rest := Retry(k + 1, maxRetries, Some(m), outcome).1;
        var head: seq<nat> := if k < maxRetries - 1 then [Pow2(k)] else [];
        var s := head + rest;
        assert s == Retry(k, maxRetries, lastError, outcome).1;
        forall i | 0 <= i < |s| ensures PowerBetween(s[i], k, maxRetries - 1) {
          if i < |head| {
            assert s[i] == Pow2(k);
          } else {
            assert s[i] == rest[i - |head|];
            assert PowerBetween(rest[i - |head|], k + 1, maxRetries - 1);
            var j: nat :| k + 1 <= j < maxRetries - 1 && rest[i - |head|] == Pow2(j);
          }
        }
    }
  }

  /** Doubling is strictly increasing, so distinct attempts sleep for distinct times. */
  lemma {:induction false} Pow2Increasing(i: nat, j: nat)
    requires i < j
    ensures Pow2(i) < Pow2(j)
    decreases j
  {
    if i < j - 1 {
      Pow2Increasing(i, j - 1);
    }
  }

  /** An attempt that is classified or fails to decode as JSON never sleeps: with no call error
      from k on there is no back-off at all. */
  lemma {:induction false} NoSleepWithoutCallError(k: nat, maxRetries: int, lastError: Option<string>, outcome: nat -> AttemptOutcome)
    requires forall j :: k <= j < maxRetries ==> !outcome(j).AttemptError?
    ensures Retry(k, maxRetries, lastError, outcome).1 == []
    decreases maxRetries - k
  {
    if k < maxRetries {
      match outcome(k)
      case Classified(_) =>
      case BadJson(m) =>
        NoSleepWithoutCallError(k + 1, maxRetries, Some("Invalid JSON response from Gemini: " + m), outcome);
    }
  }

  /**
   * The back-off waits exactly: 2^j seconds is among them when and only when attempt j was made
   * (no earlier attempt succeeded), failed with an error other than a JSON decode error, and was
   * not the final attempt.
   */
  lemma {:induction false} SleepsExactly(k: nat, maxRetries: int, lastError: Option<string>, outcome: nat -> AttemptOutcome, j: nat)
    ensures Pow2(j) in Retry(k, maxRetries, lastError, outcome).1 <==>
      k <= j < maxRetries - 1 && outcome(j).AttemptError? && forall i :: k <= i < j ==> !outcome(i).Classified?
    decreases maxRetries - k
  {
    if k < maxRetries {
      match outcome(k)
      case Classified(_) =>
        if k < j {
          assert outcome(k).Classified?;
        }
      case BadJson(m) =>
        SleepsExactly(k + 1, maxRetries, Some("Invalid JSON response from Gemini: " + m), outcome, j);
        if k < j {
          assert !outcome(k).Classified?;
        }
      case AttemptError(m) =>
        SleepsExactly(k + 1, maxRetries, Some(m), outcome, j);
        if j < k {
          Pow2Increasing(j, k);
        } else if k < j {
          Pow2Increasing(k, j);
          assert !outcome(k).Classified?;
        }
    }
  }

  /** The waits grow strictly, so each is taken once and in attempt order. */
  lemma {:induction false} SleepsIncreasing(k: nat, maxRetries: int, lastError: Option<string>, outcome: nat -> AttemptOutcome)
    ensures forall a, b :: 0 <= a < b < |Retry(k, maxRetries, lastError, outcome).1| ==>
      Retry(k, maxRetries, lastError, outcome).1[a] < Retry(k, maxRetries, lastError, outcome).1[b]
    decreases maxRetries - k
  {
    if k < maxRetries {
      match outcome(k)
      case Classified(_) =>
      case BadJson(m) =>
        SleepsIncreasing(k + 1, maxRetries, Some("Invalid JSON response from Gemini: " + m), outcome);
      case AttemptError(m) =>
        SleepsIncreasing(k + 1, maxRetries, Some(m), outcome);
        SleepsArePowers(k + 1, maxRetries, Some(m), outcome);
        var rest := Retry(k + 1, maxRetries, Some(m), outcome).1;
        if k < maxRetries - 1 {
          var s := [Pow2(k)] + rest;
          forall b | 1 <= b < |s| ensures s[0] < s[b] {
            assert s[b] == rest[b - 1];
            assert PowerBetween(rest[b - 1], k + 1, maxRetries - 1);
            var j: nat :| k + 1 <= j < maxRetries - 1 && rest[b - 1] == Pow2(j);
            Pow2Increasing(k, j);
          }
          forall a, b | 1 <= a < b < |s| ensures s[a] < s[b] {
            assert s[a] == rest[a - 1] && s[b] == rest[b - 1];
          }
        } else {
          assert [] + rest == rest;
        }
    }
  }

  /** Only the first successful attempt counts: attempts before it failed, and later ones are never made. */
  lemma {:induction false} FirstSuccessWins(k: nat, first: nat, maxRetries: int, lastError: Option<string>, outcome: nat -> AttemptOutcome)
    requires k <= first < maxRetries
    requires outcome(first).Classified?
    requires forall j :: k <= j < first ==> !outcome(j).Classified?
    ensures Retry(k, maxRetries, lastError, outcome).0 == Success(outcome(first).c)
    decreases first - k
  {
    if k < first {
      match outcome(k)
      case BadJson(m) =>
        FirstSuccessWins(k + 1, first, maxRetries, Some("Invalid JSON response from Gemini: " + m), outcome);
      case AttemptError(m) =>
        FirstSuccessWins(k + 1, first, maxRetries, Some(m), outcome);
    }
  }

  /** When no attempt succeeds the error names the attempt count and the last attempt's error. */
  lemma {:induction false} AllFailed(k: nat, maxRetries: int, lastError: Option<string>, outcome: nat -> AttemptOutcome)
    requires forall j :: k <= j < maxRetries ==> !outcome(j).Classified?
    ensures Retry(k, maxRetries, lastError, outcome).0.Failure?
    ensures k < maxRetries ==>
      var last := outcome(maxRetries - 1);
      Retry(k, maxRetries, lastError, outcome).0.error
        == FailureMessage(maxRetries, Some(if last.BadJson? then "Invalid JSON response from Gemini: " + last.message else last.message))
    decreases maxRetries - k
  {
    if k < maxRetries {
      match outcome(k)
      case BadJson(m) =>
        AllFailed(k + 1, maxRetries, Some("Invalid JSON response from Gemini: " + m), outcome);
      case AttemptError(m) =>
        AllFailed(k + 1, maxRetries, Some(m), outcome);
    }
  }
}
