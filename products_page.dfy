/** The catalogue page of `src/pages/Products.tsx`: filters kept in the URL's search
    parameters, and the product query built from them. */
module ProductsPage {
  import opened Common
  import opened Api

  // ---------------------------------------------------------------------------
  // URLSearchParams, as a list of (name, value) pairs in order

  type SearchParams = seq<(string, string)>

  /** `params.get(key)`: the value of the first pair with that name, or `null`. */
  function GetParam(q: SearchParams, key: string): (r: Option<string>)
    ensures r.None? <==> forall i :: 0 <= i < |q| ==> q[i].0 != key
    decreases |q|
  {
    if q == [] then None else if q[0].0 == key then Some(q[0].1) else GetParam(q[1..], key)
  }

  /** `params.delete(key)`: every pair with that name goes. */
  function DeleteParam(q: SearchParams, key: string): (r: SearchParams)
    ensures forall i :: 0 <= i < |r| ==> r[i].0 != key
    decreases |q|
  {
    if q == [] then []
    else if q[0].0 == key then DeleteParam(q[1..], key)
    else [q[0]] + DeleteParam(q[1..], key)
  }

  /** `params.set(key, value)`: the first pair with that name takes the value and any
      later ones go; with no such pair, one is appended. */
  function SetParam(q: SearchParams, key: string, value: string): (r: SearchParams)
    ensures GetParam(r, key) == Some(value)
    decreases |q|
  {
    if q == [] then [(key, value)]
    else if q[0].0 == key then [(key, value)] + DeleteParam(q[1..], key)
    else [q[0]] + SetParam(q[1..], key, value)
  }

  /** After a delete the name has no value, and every other name keeps its value. */
  lemma {:induction false} GetAfterDelete(q: SearchParams, key: string, other: string)
    ensures GetParam(DeleteParam(q, key), other) == if other == key then None else GetParam(q, other)
    decreases |q|
  {
    if q != [] {
      GetAfterDelete(q[1..], key, other);
    }
  }

  /** After a set the name has the new value, and every other name keeps its value. */
  lemma {:induction false} GetAfterSet(q: SearchParams, key: string, value: string, other: string)
    ensures GetParam(SetParam(q, key, value), other) == if other == key then Some(value) else GetParam(q, other)
    decreases |q|
  {
    if q != [] {
      if q[0].0 == key {
        GetAfterDelete(q[1..], key, other);
      } else {
        GetAfterSet(q[1..], key, value, other);
      }
    }
  }

  // ---------------------------------------------------------------------------
  // The filters the page reads

  function SearchQuery(q: SearchParams): string {
    OrElse(GetParam(q, "search"), "")
  }

  function SelectedCategory(q: SearchParams): string {
    OrElse(GetParam(q, "category"), "")
  }

  function SelectedBrand(q: SearchParams): string {
    OrElse(GetParam(q, "brand"), "")
  }

  function SortBy(q: SearchParams): string {
    OrElse(GetParam(q, "sort"), "newest")
  }

  /** A search, category or brand narrows the list; a sort order does not. */
  predicate HasActiveFilters(q: SearchParams) {
    SearchQuery(q) != "" || SelectedCategory(q) != "" || SelectedBrand(q) != ""
  }

  /** `updateFilter(key, value)`: sets a non-empty value, deletes the name for an
      empty one. */
  function UpdateFilter(q: SearchParams, key: string, value: string): (r: SearchParams)
    ensures OrElse(GetParam(r, key), "") == value
  {
    if value != "" then SetParam(q, key, value) else DeleteParam(q, key)
  }

  /** The names whose values narrow the list. */
  const FILTER_NAMES := ["search", "category", "brand"]

  /** After `updateFilter` on one of the filter names, the list is narrowed unless
      the new value is empty and the other two filters are empty too; in particular
      any non-empty filter turns filtering on. */
  lemma FilterActiveIff(q: SearchParams, key: string, value: string)
    requires key in FILTER_NAMES
    ensures value != "" ==> HasActiveFilters(UpdateFilter(q, key, value))
    ensures !HasActiveFilters(UpdateFilter(q, key, value)) <==>
              value == "" && forall j :: 0 <= j < |FILTER_NAMES| && FILTER_NAMES[j] != key ==>
                                           OrElse(GetParam(q, FILTER_NAMES[j]), "") == ""
  {
    assert FILTER_NAMES[0] == "search" && FILTER_NAMES[1] == "category" && FILTER_NAMES[2] == "brand";
    UpdateFilterReadsBack(q, key, value, "search");
    UpdateFilterReadsBack(q, key, value, "category");
    UpdateFilterReadsBack(q, key, value, "brand");
  }

  /** `clearFilters`: no parameter is left. */
  function ClearFilters(): SearchParams {
    []
  }

  /** The updated filter reads back as the value given, and every other parameter
      reads as before. */
  lemma UpdateFilterReadsBack(q: SearchParams, key: string, value: string, other: string)
    ensures OrElse(GetParam(UpdateFilter(q, key, value), key), "") == value
    ensures other != key ==> GetParam(UpdateFilter(q, key, value), other) == GetParam(q, other)
  {
    if value != "" {
      GetAfterSet(q, key, value, key);
      GetAfterSet(q, key, value, other);
    } else {
      GetAfterDelete(q, key, key);
      GetAfterDelete(q, key, other);
    }
  }

  /** Choosing a sort order never turns the filters on or off, and clearing leaves
      no filter and the default order. */
  lemma SortIsNotAFilter(q: SearchParams, order: string)
    ensures HasActiveFilters(UpdateFilter(q, "sort", order)) == HasActiveFilters(q)
    ensures !HasActiveFilters(ClearFilters()) && SortBy(ClearFilters()) == "newest"
  {
    UpdateFilterReadsBack(q, "sort", order, "search");
    UpdateFilterReadsBack(q, "sort", order, "category");
    UpdateFilterReadsBack(q, "sort", order, "brand");
  }

  /** The value a category or brand button sends: none for the selected one. */
  function ToggleValue(selected: string, id: string): string {
    if selected == id then "" else id
  }

  /** Pressing the selected category clears it, pressing another selects it; the
      search, the brand and the sort order stay as they were. Likewise for brands. */
  lemma ToggleCategory(q: SearchParams, id: string)
    ensures SelectedCategory(UpdateFilter(q, "category", ToggleValue(SelectedCategory(q), id)))
            == if SelectedCategory(q) == id then "" else id
    ensures var q' := UpdateFilter(q, "category", ToggleValue(SelectedCategory(q), id));
            SearchQuery(q') == SearchQuery(q) && SelectedBrand(q') == SelectedBrand(q) && SortBy(q') == SortBy(q)
  {
    var v := ToggleValue(SelectedCategory(q), id);
    UpdateFilterReadsBack(q, "category", v, "search");
    UpdateFilterReadsBack(q, "category", v, "brand");
    UpdateFilterReadsBack(q, "category", v, "sort");
  }

  lemma ToggleBrand(q: SearchParams, id: string)
    ensures SelectedBrand(UpdateFilter(q, "brand", ToggleValue(SelectedBrand(q), id)))
            == if SelectedBrand(q) == id then "" else id
    ensures var q' := UpdateFilter(q, "brand", ToggleValue(SelectedBrand(q), id));
            SearchQuery(q') == SearchQuery(q) && SelectedCategory(q') == SelectedCategory(q) && SortBy(q') == SortBy(q)
  {
    var v := ToggleValue(SelectedBrand(q), id);
    UpdateFilterReadsBack(q, "brand", v, "search");
    UpdateFilterReadsBack(q, "brand", v, "category");
    UpdateFilterReadsBack(q, "brand", v, "sort");
  }

  // ---------------------------------------------------------------------------
  // The product query

  /** The service's sort key for the page's sort choice. */
  function SortParam(sortBy: string): (key: string)
    ensures key == "price" <==> sortBy == "price-asc"
    ensures key == "-price" <==> sortBy == "price-desc"
    ensures key == "-createdAt" <==> sortBy != "price-asc" && sortBy != "price-desc"
  {
    if sortBy == "price-asc" then "price" else if sortBy == "price-desc" then "-price" else "-createdAt"
  }

  /** The pair a filter contributes: none when its value is empty. */
  function FilterPair(key: string, value: string): seq<(string, string)> {
    if value != "" then [(key, value)] else []
  }

  lemma AppendDefined(entries: ParamEntries, key: string, value: string)
    ensures DefinedPairs(entries + [(key, Some(Str(value)))]) == DefinedPairs(entries) + [(key, value)]
  {
    DefinedPairsAppend(entries, [(key, Some(Str(value)))]);
  }

  /** `fetchProducts`: `limit: 40`, then `keyword`, `category` and `brand` for the
      filters that are set, then the sort key, and the query `productsAPI.getAll`
      makes of them. */
  method ProductsQuery(q: SearchParams) returns (t: Target)
    ensures t.path == "/products"
    ensures t.query == [("limit", "40")] + FilterPair("keyword", SearchQuery(q)) + FilterPair("category", SelectedCategory(q))
                       + FilterPair("brand", SelectedBrand(q)) + [("sort", SortParam(SortBy(q)))]
  {
    var params: ParamEntries := [("limit", Some(Num(40)))];
    ghost var pairs := [("limit", "40")];
    assert Decimal.IntToDecimal(40) == "40";
    assert DefinedPairs(params) == pairs;
    if SearchQuery(q) != "" {
      AppendDefined(params, "keyword", SearchQuery(q));
      params := params + [("keyword", Some(Str(SearchQuery(q))))];
    }
    pairs := pairs + FilterPair("keyword", SearchQuery(q));
    assert DefinedPairs(params) == pairs;
    if SelectedCategory(q) != "" {
      AppendDefined(params, "category", SelectedCategory(q));
      params := params + [("category", Some(Str(SelectedCategory(q))))];
    }
    pairs := pairs + FilterPair("category", SelectedCategory(q));
    assert DefinedPairs(params) == pairs;
    if SelectedBrand(q) != "" {
      AppendDefined(params, "brand", SelectedBrand(q));
      params := params + [("brand", Some(Str(SelectedBrand(q))))];
    }
    pairs := pairs + FilterPair("brand", SelectedBrand(q));
    assert DefinedPairs(params) == pairs;
    AppendDefined(params, "sort", SortParam(SortBy(q)));
    params := params + [("sort", Some(Str(SortParam(SortBy(q)))))];
    t := ProductsTarget(Some(params));
  }

  /** `{totalResults} product(s)`: singular exactly for one result. */
  function ResultsNoun(total: int): (noun: string)
    ensures noun == "product" <==> total == 1
    ensures noun == "products" <==> total != 1
  {
    if total == 1 then "product" else "products"
  }
}
