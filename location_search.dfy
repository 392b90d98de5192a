/**
 * `LocationSearch`: geocoding features mapped to search results, with the prefecture taken
 * from the first `region` context item or else from the place name, and the component's
 * result-list state.
 */
module LocationSearch {
  import opened Wrappers
  import opened Text

  const Unknown := "不明"
  const MinQueryLength := 2

  datatype ContextItem = ContextItem(id: Option<string>, text: Option<string>)
  /** A geocoding feature: its place name, its `center` as (longitude, latitude), its context. */
  datatype Feature = Feature(placeName: string, center: (real, real), context: Option<seq<ContextItem>>)
  datatype SearchResult = SearchResult(placeName: string, longitude: real, latitude: real, prefecture: string, address: string)

  /** `item.id && item.id.includes('region')`. */
  predicate IsRegion(item: ContextItem)
  {
    item.id.Some? && item.id.value != "" && Includes(item.id.value, "region")
  }

  /** `/(県|府|都|道)$/`: the part ends with one of the four prefecture suffixes. */
  predicate HasPrefectureSuffix(part: string)
  {
    |part| > 0 && part[|part| - 1] in {'県', '府', '都', '道'}
  }

  /** The first context item that is a region item. */
  function FirstRegion(context: seq<ContextItem>): (r: Option<ContextItem>)
    ensures r.Some? ==> IsRegion(r.value) && r.value in context
    ensures r.None? <==> forall i :: 0 <= i < |context| ==> !IsRegion(context[i])
  {
    if |context| == 0 then None
    else if IsRegion(context[0]) then Some(context[0])
    else FirstRegion(context[1..])
  }

  /** The item found is the first region item: every item before it is not one. */
  lemma {:induction false} FirstRegionIsFirst(context: seq<ContextItem>)
    requires FirstRegion(context).Some?
    ensures exists i :: (0 <= i < |context| && context[i] == FirstRegion(context).value &&
      forall j :: 0 <= j < i ==> !IsRegion(context[j]))
  {
    if !IsRegion(context[0]) {
      var tail := context[1..];
      FirstRegionIsFirst(tail);
      var i :| (0 <= i < |tail| && tail[i] == FirstRegion(tail).value && forall j :: 0 <= j < i ==> !IsRegion(tail[j]));
      assert context[i + 1] == FirstRegion(context).value;
      forall j | 0 <= j < i + 1 ensures !IsRegion(context[j]) {
        if j > 0 { assert context[j] == tail[j - 1]; }
      }
    } else {
      assert context[0] == FirstRegion(context).value;
    }
  }

  /** The first part with a prefecture suffix. */
  function FirstSuffixed(parts: seq<string>): (r: Option<string>)
    ensures r.Some? ==> HasPrefectureSuffix(r.value) && r.value in parts
    ensures r.None? <==> forall i :: 0 <= i < |parts| ==> !HasPrefectureSuffix(parts[i])
  {
    if |parts| == 0 then None
    else if HasPrefectureSuffix(parts[0]) then Some(parts[0])
    else FirstSuffixed(parts[1..])
  }

  /** The comma-separated parts of a place name, trimmed. */
  function AddressParts(placeName: string): seq<string>
  {
    TrimAllParts(Split(placeName, ','))
  }

  function TrimAllParts(parts: seq<string>): (r: seq<string>)
    ensures |r| == |parts| && forall i :: 0 <= i < |parts| ==> r[i] == Trim(parts[i])
  {
    if |parts| == 0 then [] else [Trim(parts[0])] + TrimAllParts(parts[1..])
  }

  /**
   * The prefecture the extraction finds, before the `'不明'` default: the text of the first
   * region item when that text is non-empty, otherwise the first suffixed address part, otherwise "".
   * A first region item with an empty or missing text still ends the context search.
   */
  function FoundPrefecture(f: Feature): string
  {
    var fromContext := match FirstRegion(f.context.GetOr([]))
      case Some(item) => item.text.GetOr("")
      case None => "";
    if fromContext != "" then fromContext
    else FirstSuffixed(AddressParts(f.placeName)).GetOr("")
  }

  /** `prefecture || '不明'`. */
  function PrefectureOf(f: Feature): (p: string)
    ensures p != ""
  {
    var found := FoundPrefecture(f);
    if found != "" then found else Unknown
  }

  /** The feature-to-result mapping of one feature. */
  function ToSearchResult(f: Feature): (r: SearchResult)
    ensures r.placeName == f.placeName && r.address == f.placeName
    ensures r.longitude == f.center.0 && r.latitude == f.center.1
    ensures r.prefecture == PrefectureOf(f)
  {
    SearchResult(f.placeName, f.center.0, f.center.1, PrefectureOf(f), f.placeName)
  }

  /** `data.features.map(...)`: one result per feature, in order. */
  function MapFeatures(fs: seq<Feature>): (rs: seq<SearchResult>)
    ensures |rs| == |fs| && forall i :: 0 <= i < |fs| ==> rs[i] == ToSearchResult(fs[i])
  {
    if |fs| == 0 then [] else [ToSearchResult(fs[0])] + MapFeatures(fs[1..])
  }

  // ---------------------------------------------------------------- properties

  /** A region item with a text decides the prefecture, whatever the place name says. */
  lemma RegionTextWins(f: Feature, item: ContextItem)
    requires FirstRegion(f.context.GetOr([])) == Some(item)
    requires item.text.Some? && item.text.value != ""
    ensures PrefectureOf(f) == item.text.value
  {
  }

  /** Without a usable region text, the first trimmed part with a prefecture suffix is taken. */
  lemma PlaceNameFallback(f: Feature, part: string)
    requires FirstRegion(f.context.GetOr([])).None? || FirstRegion(f.context.GetOr([])).value.text.GetOr("") == ""
    requires FirstSuffixed(AddressParts(f.placeName)) == Some(part)
    ensures PrefectureOf(f) == part
  {
  }

  /** With neither source, the prefecture is `'不明'`. */
  lemma UnknownDefault(f: Feature)
    requires FirstRegion(f.context.GetOr([])).None? || FirstRegion(f.context.GetOr([])).value.text.GetOr("") == ""
    requires forall i :: 0 <= i < |AddressParts(f.placeName)| ==> !HasPrefectureSuffix(AddressParts(f.placeName)[i])
    ensures PrefectureOf(f) == Unknown
  {
  }

  /**
   * Padding around the first comma-separated part does not hide its suffix: for a place name
   * `pre + core + post + "," + rest` with blank `pre` and `post`, a feature without context
   * gets `core` as its prefecture (e.g. "東京都" out of " 東京都 , 日本").
   */
  lemma TrimmedPartFound(pre: string, core: string, post: string, rest: string, center: (real, real))
    requires AllWhitespace(pre) && AllWhitespace(post)
    requires core != [] && !IsWhitespace(core[0]) && !IsWhitespace(core[|core| - 1])
    requires HasPrefectureSuffix(core)
    requires ',' !in pre + core + post
    ensures AddressParts(pre + core + post + [','] + rest)[0] == core
    ensures PrefectureOf(Feature(pre + core + post + [','] + rest, center, None)) == core
  {
    var first := pre + core + post;
    SplitAtFirst(first, rest, ',');
    TrimPadded(pre, core, post);
    var parts := AddressParts(first + [','] + rest);
    assert parts[0] == core;
    assert parts == [parts[0]] + parts[1..];
  }

  // ---------------------------------------------------------------- the extraction loops

  /** The context loop: the text of the first region item, `""` when it has none or there is no such item. */
  method RegionText(context: seq<ContextItem>) returns (prefecture: string)
    ensures prefecture == match FirstRegion(context) case Some(item) => item.text.GetOr("") case None => ""
  {
    prefecture := "";
    var i := 0;
    while i < |context|
      invariant 0 <= i <= |context|
      invariant prefecture == ""
      invariant FirstRegion(context) == FirstRegion(context[i..])
    {
      assert context[i..] == [context[i]] + context[i + 1..];
      if IsRegion(context[i]) {
        prefecture := context[i].text.GetOr("");
        break;
      }
      i := i + 1;
    }
  }

  /** The address loop: the first part with a prefecture suffix, `""` when none has one. */
  method SuffixedPart(parts: seq<string>) returns (prefecture: string)
    ensures prefecture == FirstSuffixed(parts).GetOr("")
  {
    prefecture := "";
    var k := 0;
    while k < |parts|
      invariant 0 <= k <= |parts|
      invariant prefecture == ""
      invariant FirstSuffixed(parts) == FirstSuffixed(parts[k..])
    {
      assert parts[k..] == [parts[k]] + parts[k + 1..];
      if HasPrefectureSuffix(parts[k]) {
        prefecture := parts[k];
        break;
      }
      k := k + 1;
    }
  }

  /** The extraction of the mapping, with `let prefecture` reassigned by the two loops; the default is applied by the caller. */
  method ExtractPrefecture(f: Feature) returns (prefecture: string)
    ensures prefecture == FoundPrefecture(f)
  {
    prefecture := RegionText(f.context.GetOr([]));
    if prefecture == "" {
      prefecture := SuffixedPart(AddressParts(f.placeName));
    }
  }

  // ---------------------------------------------------------------- component state

  /** What a geocoding lookup gave: a failure (the fetch or the JSON threw), or its `features`, if any. */
  datatype Lookup = LookupFailed | Answered(features: Option<seq<Feature>>)

  datatype Selection = Selection(coordinates: (real, real), prefecture: string, address: string)

  class SearchBox {
    var query: string
    var results: seq<SearchResult>
    var showResults: bool
    var isSearching: bool

    constructor ()
      ensures query == "" && results == [] && !showResults && !isSearching
    {
      query, results, showResults, isSearching := "", [], false, false;
    }

    /**
     * `searchLocation`: a query shorter than two UTF-16 units clears and hides the list without
     * a lookup; a lookup with features lists them all, in order; anything else clears and hides.
     */
    method SearchLocation(searchQuery: string, lookup: Lookup)
      modifies this
      ensures query == old(query)
      ensures Utf16Length(searchQuery) < MinQueryLength ==> results == [] && !showResults && isSearching == old(isSearching)
      ensures Utf16Length(searchQuery) >= MinQueryLength ==> (!isSearching &&
        (if lookup.Answered? && lookup.features.Some? && |lookup.features.value| > 0 then
           results == MapFeatures(lookup.features.value) && showResults
         else
           results == [] && !showResults))
    {
      if Utf16Length(searchQuery) < MinQueryLength {
        results := [];
        showResults := false;
        return;
      }
      isSearching := true;
      if lookup.Answered? && lookup.features.Some? && |lookup.features.value| > 0 {
        results := MapFeatures(lookup.features.value);
        showResults := true;
      } else {
        results := [];
        showResults := false;
      }
      isSearching := false;
    }

    /** `handleResultClick`: reports (longitude, latitude), prefecture and address; shows the place name; hides the list. */
    method SelectResult(r: SearchResult) returns (s: Selection)
      modifies this
      ensures s == Selection((r.longitude, r.latitude), r.prefecture, r.address)
      ensures query == r.placeName && !showResults
      ensures results == old(results) && isSearching == old(isSearching)
    {
      s := Selection((r.longitude, r.latitude), r.prefecture, r.address);
      query := r.placeName;
      showResults := false;
    }
  }
}
