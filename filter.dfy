/**
 * The relay query descriptor (`Filter`): an immutable value describing a set
 * of Nostr events, canonicalised at construction, serialised to the filter
 * object of NIP-01, and compared through the fields it hashes.
 */
module NostrFilter {
  import opened Wrappers
  import opened Ordering
  import opened NostrTypes

  /** The stored fields. `since` is in whole seconds since the Unix epoch. */
  datatype Filter = Filter(
    authorKeys: seq<HexString>,
    eventIDs: seq<HexString>,
    kinds: seq<EventKind>,
    eTags: seq<HexString>,
    pTags: seq<HexString>,
    limit: Option<int>,
    since: Option<int>)

  /** The form every constructed filter has: authors and kinds in descending order. */
  ghost predicate Canonical(f: Filter) {
    SortedDesc(f.authorKeys, StringGreater) && SortedDesc(f.kinds, KindGreater)
  }

  /** `Filter.init`: sorts authors and kinds into descending order and keeps
      every other argument as given. */
  function NewFilter(
    authorKeys: seq<HexString> := [],
    eventIDs: seq<HexString> := [],
    kinds: seq<EventKind> := [],
    eTags: seq<HexString> := [],
    pTags: seq<HexString> := [],
    limit: Option<int> := None,
    since: Option<int> := None): (f: Filter)
    ensures Canonical(f)
    ensures multiset(f.authorKeys) == multiset(authorKeys)
    ensures multiset(f.kinds) == multiset(kinds)
    ensures f.eventIDs == eventIDs && f.eTags == eTags && f.pTags == pTags
    ensures f.limit == limit && f.since == since
  {
    StringGreaterIsStrictTotalOrder();
    KindGreaterIsStrictTotalOrder();
    SortDescSorted(authorKeys, StringGreater);
    SortDescSorted(kinds, KindGreater);
    Filter(SortDesc(authorKeys, StringGreater), eventIDs, SortDesc(kinds, KindGreater),
           eTags, pTags, limit, since)
  }

  /** Construction order never matters for authors and kinds: permuted
      arguments give the very same filter. */
  lemma NewFilterIgnoresAuthorAndKindOrder(
    authors1: seq<HexString>, authors2: seq<HexString>, eventIDs: seq<HexString>,
    kinds1: seq<EventKind>, kinds2: seq<EventKind>, eTags: seq<HexString>,
    pTags: seq<HexString>, limit: Option<int>, since: Option<int>)
    requires multiset(authors1) == multiset(authors2)
    requires multiset(kinds1) == multiset(kinds2)
    ensures NewFilter(authors1, eventIDs, kinds1, eTags, pTags, limit, since)
         == NewFilter(authors2, eventIDs, kinds2, eTags, pTags, limit, since)
  {
    StringGreaterIsStrictTotalOrder();
    KindGreaterIsStrictTotalOrder();
    SortDescOfPermutation(authors1, authors2, StringGreater);
    SortDescOfPermutation(kinds1, kinds2, KindGreater);
  }

  /** Rebuilding a constructed filter from its own fields gives it back:
      canonicalisation is idempotent. */
  lemma NewFilterIdempotent(f: Filter)
    requires Canonical(f)
    ensures NewFilter(f.authorKeys, f.eventIDs, f.kinds, f.eTags, f.pTags, f.limit, f.since) == f
  {
    StringGreaterIsStrictTotalOrder();
    KindGreaterIsStrictTotalOrder();
    SortDescOfSorted(f.authorKeys, StringGreater);
    SortDescOfSorted(f.kinds, KindGreater);
  }

  /** Event ids, `#e` tags and `#p` tags are not sorted: lists that hold the
      same elements in different orders give unequal filters for ids and
      `#e`, and equal ones for `#p` only because `==` ignores `#p`. */
  lemma EventIDOrderIsKept(s: seq<HexString>, t: seq<HexString>)
    requires multiset(s) == multiset(t) && s != t
    ensures !Equal(NewFilter(eventIDs := s), NewFilter(eventIDs := t))
    ensures !Equal(NewFilter(eTags := s), NewFilter(eTags := t))
    ensures Equal(NewFilter(pTags := s), NewFilter(pTags := t))
  {
  }

  // ----- Wire format -----

  /** A value in the filter object sent to relays. */
  datatype WireValue = Strings(strings: seq<HexString>) | Integers(ints: seq<int>) | Number(n: int)

  /** The keys NIP-01 reserves for those fields. */
  const WireKeys: set<string> := {"authors", "ids", "kinds", "#e", "#p", "limit", "since"}

  /** `kinds.map({ $0.rawValue })`. */
  function RawValues(kinds: seq<EventKind>): (r: seq<int>)
    ensures |r| == |kinds|
    ensures forall i :: 0 <= i < |kinds| ==> r[i] == kinds[i].rawValue
  {
    seq(|kinds|, i requires 0 <= i < |kinds| => kinds[i].rawValue)
  }

  /** `dictionary`: starts empty and inserts each populated field in turn. */
  function Dictionary(f: Filter): (d: map<string, WireValue>)
    ensures d.Keys <= WireKeys
    ensures "limit" in d <==> f.limit.Some?
    ensures "authors" in d <==> |f.authorKeys| > 0
    ensures "ids" in d <==> |f.eventIDs| > 0
    ensures "kinds" in d <==> |f.kinds| > 0
    ensures "#e" in d <==> |f.eTags| > 0
    ensures "#p" in d <==> |f.pTags| > 0
    ensures "since" in d <==> f.since.Some?
    ensures "limit" in d ==> d["limit"] == Number(f.limit.value)
    ensures "authors" in d ==> d["authors"] == Strings(f.authorKeys)
    ensures "ids" in d ==> d["ids"] == Strings(f.eventIDs)
    ensures "kinds" in d ==> d["kinds"] == Integers(RawValues(f.kinds))
    ensures "#e" in d ==> d["#e"] == Strings(f.eTags)
    ensures "#p" in d ==> d["#p"] == Strings(f.pTags)
    ensures "since" in d ==> d["since"] == Number(f.since.value)
  {
    var d0: map<string, WireValue> := map[];
    var d1 := if f.limit.Some? then d0["limit" := Number(f.limit.value)] else d0;
    var d2 := if |f.authorKeys| > 0 then d1["authors" := Strings(f.authorKeys)] else d1;
    var d3 := if |f.eventIDs| > 0 then d2["ids" := Strings(f.eventIDs)] else d2;
    var d4 := if |f.kinds| > 0 then d3["kinds" := Integers(RawValues(f.kinds))] else d3;
    var d5 := if |f.eTags| > 0 then d4["#e" := Strings(f.eTags)] else d4;
    var d6 := if |f.pTags| > 0 then d5["#p" := Strings(f.pTags)] else d5;
    if f.since.Some? then d6["since" := Number(f.since.value)] else d6
  }

  /** How a relay reads a filter object back: a missing key is an empty list
      or no bound. */
  function FromDictionary(d: map<string, WireValue>): (f: Filter) {
    Filter(StringsAt(d, "authors"), StringsAt(d, "ids"), KindsAt(d, "kinds"),
           StringsAt(d, "#e"), StringsAt(d, "#p"), NumberAt(d, "limit"), NumberAt(d, "since"))
  }

  /** The string list under `key`, or an empty list when it is absent. */
  function StringsAt(d: map<string, WireValue>, key: string): (strings: seq<HexString>) {
    if key in d && d[key].Strings? then d[key].strings else []
  }

  /** The kinds whose raw values are listed under `key`, or none when it is absent. */
  function KindsAt(d: map<string, WireValue>, key: string): (kinds: seq<EventKind>) {
    if key in d && d[key].Integers? then
      var vs := d[key].ints;
      seq(|vs|, i requires 0 <= i < |vs| => EventKind(vs[i]))
    else []
  }

  /** The integer under `key`, or nil when it is absent. */
  function NumberAt(d: map<string, WireValue>, key: string): (n: Option<int>) {
    if key in d && d[key].Number? then Some(d[key].n) else None
  }

  /** The filter object loses nothing: reading it back gives the filter. */
  lemma DictionaryRoundTrip(f: Filter)
    ensures FromDictionary(Dictionary(f)) == f
  {
    var d := Dictionary(f);
    if |f.kinds| > 0 {
      assert KindsAt(d, "kinds") == f.kinds;
    }
  }

  /** Distinct filters send distinct filter objects. */
  lemma DictionaryInjective(a: Filter, b: Filter)
    requires Dictionary(a) == Dictionary(b)
    ensures a == b
  {
    DictionaryRoundTrip(a);
    DictionaryRoundTrip(b);
  }

  // ----- Equality through the hashed fields -----

  /** The fields `hash(into:)` combines, in its order; `pTags` is not among them. */
  function HashedFields(f: Filter):
    (fields: (seq<HexString>, seq<HexString>, seq<EventKind>, Option<int>, seq<HexString>, Option<int>))
  {
    (f.authorKeys, f.eventIDs, f.kinds, f.limit, f.eTags, f.since)
  }

  /** `==`, which compares hash values: two filters are equal exactly when
      they differ at most in `pTags`. */
  predicate Equal(a: Filter, b: Filter)
    ensures Equal(a, b) <==> a.(pTags := b.pTags) == b
  {
    HashedFields(a) == HashedFields(b)
  }

  /** Equality holds exactly when the six hashed fields agree. */
  lemma EqualIffHashedFieldsAgree(a: Filter, b: Filter)
    ensures Equal(a, b) <==>
      a.authorKeys == b.authorKeys && a.eventIDs == b.eventIDs && a.kinds == b.kinds &&
      a.limit == b.limit && a.eTags == b.eTags && a.since == b.since
  {
  }

  /** Two filters that differ only in `pTags` compare equal. */
  lemma EqualIgnoresPTags(f: Filter, pTags: seq<HexString>)
    ensures Equal(f, f.(pTags := pTags))
  {
  }

  /** `==` is an equivalence relation. */
  lemma EqualIsEquivalence(a: Filter, b: Filter, c: Filter)
    ensures Equal(a, a)
    ensures Equal(a, b) ==> Equal(b, a)
    ensures Equal(a, b) && Equal(b, c) ==> Equal(a, c)
  {
  }

  /** Two report filters for different profiles, as a profile screen builds
      them, compare equal although they ask relays for different events. */
  lemma ReportFiltersCollide(author1: HexString, author2: HexString)
    requires author1 != author2
    ensures Equal(NewFilter(kinds := [Report], pTags := [author1]),
                  NewFilter(kinds := [Report], pTags := [author2]))
    ensures Dictionary(NewFilter(kinds := [Report], pTags := [author1]))
         != Dictionary(NewFilter(kinds := [Report], pTags := [author2]))
  {
    var f1 := NewFilter(kinds := [Report], pTags := [author1]);
    var f2 := NewFilter(kinds := [Report], pTags := [author2]);
    assert |f1.authorKeys| == 0 && |f2.authorKeys| == 0;
    assert f1.kinds == [Report] && f2.kinds == [Report] by {
      assert multiset(f1.kinds) == multiset{Report};
      assert |f1.kinds| == 1 && f1.kinds[0] in multiset(f1.kinds);
      assert multiset(f2.kinds) == multiset{Report};
      assert |f2.kinds| == 1 && f2.kinds[0] in multiset(f2.kinds);
    }
    assert Dictionary(f1)["#p"] != Dictionary(f2)["#p"];
  }

  /** Equality that also compares `pTags`. */
  predicate EqualWithPTags(a: Filter, b: Filter) {
    HashedFields(a) == HashedFields(b) && a.pTags == b.pTags
  }

  /** Two filters are equal, counting `pTags`, exactly when they send the same
      filter object to relays. */
  lemma EqualWithPTagsIffSameWireQuery(a: Filter, b: Filter)
    ensures EqualWithPTags(a, b) <==> Dictionary(a) == Dictionary(b)
  {
    if Dictionary(a) == Dictionary(b) {
      DictionaryInjective(a, b);
    }
  }

  // ----- Single-result queries -----

  /** `limit == 1`, exactly one kind and at least one author. */
  predicate IsSingleResultQuery(f: Filter) {
    f.limit == Some(1) && |f.kinds| == 1 && |f.authorKeys| > 0
  }

  /** `kinds.first?.rawValue`. */
  function FirstRawValue(kinds: seq<EventKind>): (first: Option<int>)
    ensures first.Some? <==> |kinds| > 0
    ensures first.Some? ==> first.value == RawValues(kinds)[0]
  {
    if |kinds| == 0 then None else Some(kinds[0].rawValue)
  }

  /** `isFulfilled(by:)`: whether `e` alone satisfies a single-result query. */
  function IsFulfilled(f: Filter, e: Event): (r: bool)
    ensures f.limit != Some(1) ==> !r
    ensures r ==> IsSingleResultQuery(f)
    ensures IsSingleResultQuery(f) ==>
      (r <==> e.kind == f.kinds[0].rawValue && AuthorKey(e).Some? && AuthorKey(e).value in f.authorKeys)
  {
    if f.limit != Some(1) then false
    else if |f.kinds| == 1 && Some(e.kind) == FirstRawValue(f.kinds) && |f.authorKeys| > 0
            && AuthorKey(e).Some? then
      AuthorKey(e).value in f.authorKeys
    else false
  }

  /** An event that fulfils a filter matches the filter's kinds and authors in
      the sense of NIP-01. */
  lemma FulfillingEventMatches(f: Filter, e: Event)
    requires IsFulfilled(f, e)
    ensures e.kind in RawValues(f.kinds)
    ensures AuthorKey(e).Some? && AuthorKey(e).value in f.authorKeys
  {
    assert RawValues(f.kinds)[0] == e.kind;
  }

  /** Equal filters are fulfilled by the same events. */
  lemma EqualFiltersFulfilledAlike(a: Filter, b: Filter, e: Event)
    requires Equal(a, b)
    ensures IsFulfilled(a, e) == IsFulfilled(b, e)
  {
  }
}
