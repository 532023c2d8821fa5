/** The catalogue's filter panel: it rewrites the URL's query parameters for a
    category choice, a price range or a reset, and keeps the shopper's search
    text. */
module ProductFilters {
  import opened Common
  import opened UrlParams

  /** One entry of the object handed to `applyFilters`: a parameter name and
      either a value to set or null to delete it. */
  datatype Entry = Entry(key: string, value: Option<string>)

  /** One `set` or `delete` of the `forEach`. */
  function Step(params: Params, e: Entry): (r: Params)
    ensures e.value.None? ==> e.key !in r
    ensures e.value.Some? ==> e.key in r && r[e.key] == e.value.value
    ensures forall k :: k != e.key ==> (k in r <==> k in params) && (k in r ==> r[k] == params[k])
  {
    if e.value.None? then params - {e.key} else params[e.key := e.value.value]
  }

  /** The entries applied in order. */
  function StepAll(params: Params, entries: seq<Entry>): Params
  {
    if entries == [] then params
    else Step(StepAll(params, entries[..|entries| - 1]), entries[|entries| - 1])
  }

  /** The parameters `applyFilters` pushes: the entries applied to a copy of
      the current parameters, then the current non-empty `search` set again. */
  function Applied(params: Params, entries: seq<Entry>): Params
  {
    var r := StepAll(params, entries);
    var search := OrEmpty(Get(params, "search"));
    if search != "" then r["search" := search] else r
  }

  /** The names the entries mention. */
  function Keys(entries: seq<Entry>): set<string>
  {
    set i | 0 <= i < |entries| :: entries[i].key
  }

  /** `searchParams.get("category") || ""`. */
  function CurrentCategory(params: Params): string
  {
    OrEmpty(Get(params, "category"))
  }

  /** `handleCategoryChange`: the selected slug again clears the category,
      any other slug selects it. */
  function CategoryEntries(params: Params, slug: string): seq<Entry>
  {
    [Entry("category", if CurrentCategory(params) == slug then None else Some(slug))]
  }

  /** `handlePriceChange`: both ends of the range, written with `toString`. */
  function PriceEntries(range: (JsNumber, JsNumber)): seq<Entry>
  {
    [Entry("minPrice", Some(NumberToString(range.0))), Entry("maxPrice", Some(NumberToString(range.1)))]
  }

  /** `resetFilters`: the category and both prices are deleted. */
  const ResetEntries := [Entry("category", None), Entry("minPrice", None), Entry("maxPrice", None)]

  /** The range the panel starts from: `parseInt` of the URL's prices, read as
      "0" and "1000" when absent or empty. */
  function InitialRange(params: Params): (JsNumber, JsNumber)
  {
    (ParseInt(ParamOr(params, "minPrice", "0")), ParseInt(ParamOr(params, "maxPrice", "1000")))
  }

  /** `searchParams.get(key) || fallback`. */
  function ParamOr(params: Params, key: string, fallback: string): string
  {
    OrElse(OrEmpty(Get(params, key)), fallback)
  }

  /** The panel's state: the URL it reads and pushes, and the range the
      slider and the two number inputs edit. */
  class Filters {
    var params: Params
    var priceRange: (JsNumber, JsNumber)

    constructor (url: Params)
      ensures params == url
      ensures priceRange == InitialRange(params)
    {
      params := url;
      priceRange := InitialRange(url);
    }

    /** `applyFilters`: copies the parameters, sets or deletes each entry in
        turn, keeps the search text and pushes the result. */
    method ApplyFilters(entries: seq<Entry>)
      modifies this`params
      ensures params == Applied(old(params), entries)
    {
      var newParams := params;
      var i := 0;
      while i < |entries|
        invariant 0 <= i <= |entries|
        invariant newParams == StepAll(params, entries[..i])
      {
        assert entries[..i + 1][..i] == entries[..i];
        var e := entries[i];
        if e.value.None? {
          newParams := newParams - {e.key};
        } else {
          newParams := newParams[e.key := e.value.value];
        }
        i := i + 1;
      }
      assert entries[..i] == entries;
      var search := Get(params, "search");
      if search.Some? && search.value != "" {
        newParams := newParams["search" := search.value];
      }
      params := newParams;
    }

    method HandleCategoryChange(slug: string)
      modifies this`params
      ensures params == Applied(old(params), CategoryEntries(old(params), slug))
    {
      ApplyFilters(CategoryEntries(params, slug));
    }

    method HandlePriceChange()
      modifies this`params
      ensures params == Applied(old(params), PriceEntries(priceRange))
    {
      ApplyFilters(PriceEntries(priceRange));
    }

    /** `resetFilters`: the range goes back to [0, 1000] and the three filter
        parameters are deleted. */
    method ResetFilters()
      modifies this
      ensures priceRange == (Num(0), Num(1000))
      ensures params == Applied(old(params), ResetEntries)
    {
      priceRange := (Num(0), Num(1000));
      ApplyFilters(ResetEntries);
    }

    /** The slider's `onValueChange` and the inputs' `onChange`. */
    method SetPriceRange(range: (JsNumber, JsNumber))
      modifies this`priceRange
      ensures priceRange == range
    {
      priceRange := range;
    }
  }

  /** A parameter no entry mentions, other than `search`, keeps its value or
      its absence. */
  lemma {:induction false} UnmentionedKept(params: Params, entries: seq<Entry>, k: string)
    requires k !in Keys(entries) && k != "search"
    ensures Get(Applied(params, entries), k) == Get(params, k)
  {
    StepAllUnmentioned(params, entries, k);
  }

  lemma {:induction false} StepAllUnmentioned(params: Params, entries: seq<Entry>, k: string)
    requires k !in Keys(entries)
    ensures Get(StepAll(params, entries), k) == Get(params, k)
  {
    if entries != [] {
      var front := entries[..|entries| - 1];
      assert Keys(front) <= Keys(entries) by {
        forall x | x in Keys(front) ensures x in Keys(entries) {
          var i :| 0 <= i < |front| && front[i].key == x;
          assert entries[i] == front[i];
        }
      }
      assert entries[|entries| - 1].key in Keys(entries);
      StepAllUnmentioned(params, front, k);
    }
  }

  /** The last entry for a name decides it: deleted for null, that value
      otherwise (`search` aside, which is set again when it was non-empty). */
  lemma {:induction false} LastEntryDecides(params: Params, entries: seq<Entry>, i: nat)
    requires i < |entries| && entries[i].key != "search"
    requires forall j :: i < j < |entries| ==> entries[j].key != entries[i].key
    ensures Get(Applied(params, entries), entries[i].key) == entries[i].value
  {
    StepAllLast(params, entries, i);
  }

  lemma {:induction false} StepAllLast(params: Params, entries: seq<Entry>, i: nat)
    requires i < |entries|
    requires forall j :: i < j < |entries| ==> entries[j].key != entries[i].key
    ensures Get(StepAll(params, entries), entries[i].key) == entries[i].value
  {
    if i < |entries| - 1 {
      StepAllLast(params, entries[..|entries| - 1], i);
    }
  }

  /** A non-empty search text survives every filter change, even one that
      names `search`. */
  lemma SearchKept(params: Params, entries: seq<Entry>)
    requires "search" in params && params["search"] != ""
    ensures Get(Applied(params, entries), "search") == Get(params, "search")
  {
  }

  /** Choosing a category other than the current one selects it. */
  lemma OtherCategorySelected(params: Params, slug: string)
    requires CurrentCategory(params) != slug
    ensures Get(Applied(params, CategoryEntries(params, slug)), "category") == Some(slug)
  {
    LastEntryDecides(params, CategoryEntries(params, slug), 0);
  }

  /** Choosing the same non-empty slug twice gives back the parameters the
      panel started from, when no other category was selected. */
  lemma ToggleTwiceRestores(params: Params, slug: string)
    requires slug != ""
    requires "category" !in params || params["category"] == slug
    ensures var once := Applied(params, CategoryEntries(params, slug));
      Applied(once, CategoryEntries(once, slug)) == params
  {
    var once := Applied(params, CategoryEntries(params, slug));
    OneEntry(params, CategoryEntries(params, slug)[0]);
    OneEntry(once, CategoryEntries(once, slug)[0]);
    var twice := Applied(once, CategoryEntries(once, slug));
    if "category" in params {
      assert once == params - {"category"};
      assert twice == params;
    } else {
      assert once == params["category" := slug];
      assert twice == params;
    }
  }

  /** A single entry is a single step. */
  lemma OneEntry(params: Params, e: Entry)
    ensures StepAll(params, [e]) == Step(params, e)
  {
    assert [e][..0] == [];
  }

  /** Reset deletes exactly the category and the two prices. */
  lemma ResetDeletesFilters(params: Params)
    ensures Applied(params, ResetEntries) == params - {"category", "minPrice", "maxPrice"}
  {
    var e := ResetEntries;
    assert e[..2][..1] == [e[0]];
    assert e[..3][..2] == e[..2];
    assert e[..3] == e;
    OneEntry(params, e[0]);
    var r1 := params - {"category"};
    var r2 := r1 - {"minPrice"};
    var r3 := r2 - {"maxPrice"};
    assert StepAll(params, e[..1]) == r1;
    assert StepAll(params, e[..2]) == r2;
    assert StepAll(params, e) == r3;
    assert r3 == params - {"category", "minPrice", "maxPrice"};
  }

  /** The range written by `handlePriceChange` is the range a panel built on
      the new URL starts from. */
  lemma PriceRoundTrip(params: Params, range: (JsNumber, JsNumber))
    ensures InitialRange(Applied(params, PriceEntries(range))) == range
  {
    var r := Applied(params, PriceEntries(range));
    LastEntryDecides(params, PriceEntries(range), 0);
    LastEntryDecides(params, PriceEntries(range), 1);
    NumberTextNonEmpty(range.0);
    NumberTextNonEmpty(range.1);
    ParseIntOfNumberToString(range.0);
    ParseIntOfNumberToString(range.1);
  }

  lemma NumberTextNonEmpty(n: JsNumber)
    ensures NumberToString(n) != ""
  {
  }

  /** Without price parameters the panel starts from [0, 1000]. */
  lemma DefaultRange(params: Params)
    requires "minPrice" !in params && "maxPrice" !in params
    ensures InitialRange(params) == (Num(0), Num(1000))
  {
    ParseIntOfIntToString(0);
    ParseIntOfIntToString(1000);
    assert IntToString(0) == "0";
    assert IntToString(1000) == "1000";
  }
}
