/**
 * The storefront's catalogue state: the product list, the shopper's filter
 * options, the filtered and sorted view derived from both, and the updates
 * a seller makes to the list.
 */
module ProductCatalog {
  import opened Common
  import opened Text
  import opened Sequences
  import opened Products

  /**
   * `FilterOptions`. An absent option is `None`; a numeric bound of 0 is
   * present but, being falsy, switches its filter off like an absent one.
   */
  datatype FilterOptions = FilterOptions(
    sortBy: SortKey,
    category: Option<string>,
    maxPrice: Option<real>,
    maxCarbon: Option<real>,
    searchQuery: Option<string>,
    co2Max: Option<real>,
    minCO2: Option<real>)

  /** The options the catalogue starts with, and those `resetFilters` restores. */
  const DefaultFilters := FilterOptions(CarbonLow, Some("All"), None, None, Some(""), None, None)

  /** A numeric option that is present and not 0: JavaScript truthiness. */
  predicate Truthy(bound: Option<real>) {
    bound.Some? && bound.value != 0.0
  }

  /**
   * The search runs when the query is present and holds something besides
   * whitespace, which is when its trimmed form is not empty.
   */
  predicate SearchActive(o: FilterOptions) {
    o.searchQuery.Some? && !AllWhitespace(o.searchQuery.value)
  }

  /** `searchQuery && searchQuery.trim() !== ''` is the test above. */
  lemma SearchActiveIffTrimmed(o: FilterOptions)
    ensures SearchActive(o) <==> o.searchQuery.Some? && o.searchQuery.value != "" && Trim(o.searchQuery.value) != ""
  {
    if o.searchQuery.Some? {
      TrimEmptyIffBlank(o.searchQuery.value);
    }
  }

  /** The lowercased, trimmed query. */
  function SearchTerm(o: FilterOptions): string
    requires o.searchQuery.Some?
  {
    Trim(ToLower(o.searchQuery.value))
  }

  /** The category filter runs for a non-empty category other than `All`. */
  predicate CategoryActive(o: FilterOptions) {
    o.category.Some? && o.category.value != "" && o.category.value != "All"
  }

  /** The six stages of the filter, each passing everything when switched off. */
  predicate PassesSearch(o: FilterOptions, p: Product) {
    SearchActive(o) ==> MatchesTerm(p, SearchTerm(o))
  }

  predicate PassesCategory(o: FilterOptions, p: Product) {
    CategoryActive(o) ==> p.category == o.category.value
  }

  predicate PassesMaxPrice(o: FilterOptions, p: Product) {
    Truthy(o.maxPrice) ==> p.price <= o.maxPrice.value
  }

  predicate PassesMaxCarbon(o: FilterOptions, p: Product) {
    Truthy(o.maxCarbon) ==> p.carbonFootprint <= o.maxCarbon.value
  }

  predicate PassesCO2Max(o: FilterOptions, p: Product) {
    Truthy(o.co2Max) ==> p.carbonFootprint <= o.co2Max.value
  }

  predicate PassesMinCO2(o: FilterOptions, p: Product) {
    Truthy(o.minCO2) ==> p.carbonFootprint >= o.minCO2.value
  }

  function SearchStage(o: FilterOptions): Product -> bool {
    (p: Product) => PassesSearch(o, p)
  }

  function CategoryStage(o: FilterOptions): Product -> bool {
    (p: Product) => PassesCategory(o, p)
  }

  function MaxPriceStage(o: FilterOptions): Product -> bool {
    (p: Product) => PassesMaxPrice(o, p)
  }

  function MaxCarbonStage(o: FilterOptions): Product -> bool {
    (p: Product) => PassesMaxCarbon(o, p)
  }

  function CO2MaxStage(o: FilterOptions): Product -> bool {
    (p: Product) => PassesCO2Max(o, p)
  }

  function MinCO2Stage(o: FilterOptions): Product -> bool {
    (p: Product) => PassesMinCO2(o, p)
  }

  /** A product is shown when it passes every stage. */
  predicate Selected(o: FilterOptions, p: Product) {
    && PassesSearch(o, p) && PassesCategory(o, p) && PassesMaxPrice(o, p)
    && PassesMaxCarbon(o, p) && PassesCO2Max(o, p) && PassesMinCO2(o, p)
  }

  function SelectedBy(o: FilterOptions): Product -> bool {
    (p: Product) => Selected(o, p)
  }

  /** Whether stage `k` of the pipeline, counted from 0, is switched on. */
  predicate StageActive(o: FilterOptions, k: nat) {
    if k == 0 then SearchActive(o)
    else if k == 1 then CategoryActive(o)
    else if k == 2 then Truthy(o.maxPrice)
    else if k == 3 then Truthy(o.maxCarbon)
    else if k == 4 then Truthy(o.co2Max)
    else Truthy(o.minCO2)
  }

  /** The check of stage `k`. */
  function StageCheck(o: FilterOptions, k: nat): Product -> bool {
    if k == 0 then SearchStage(o)
    else if k == 1 then CategoryStage(o)
    else if k == 2 then MaxPriceStage(o)
    else if k == 3 then MaxCarbonStage(o)
    else if k == 4 then CO2MaxStage(o)
    else MinCO2Stage(o)
  }

  /** A product passes the first `n` stages. */
  predicate PassesFirst(o: FilterOptions, p: Product, n: nat) {
    n == 0 || (PassesFirst(o, p, n - 1) && StageCheck(o, n - 1)(p))
  }

  function FirstStages(o: FilterOptions, n: nat): Product -> bool {
    (p: Product) => PassesFirst(o, p, n)
  }

  /**
   * One `if (option) { filtered = filtered.filter(check) }` step of the
   * pipeline: from the products passing the first `n` stages to those
   * passing the first `n + 1`.
   */
  method ApplyStage(products: seq<Product>, o: FilterOptions, n: nat, before: seq<Product>)
    returns (after: seq<Product>)
    requires n == 0 ==> before == products
    requires 0 < n ==> before == Filter(products, FirstStages(o, n))
    ensures after == Filter(products, FirstStages(o, n + 1))
  {
    after := before;
    if StageActive(o, n) {
      after := Filter(before, StageCheck(o, n));
    }
    forall x ensures FirstStages(o, n + 1)(x) == (FirstStages(o, n)(x) && StageCheck(o, n)(x)) {
      assert PassesFirst(o, x, n + 1) == (PassesFirst(o, x, n) && StageCheck(o, n)(x));
    }
    if !StageActive(o, n) {
      forall x ensures StageCheck(o, n)(x) {
        StageOffPassesAll(o, n, x);
      }
    }
    if n == 0 {
      if StageActive(o, 0) {
        FilterCongruent(products, StageCheck(o, 0), FirstStages(o, 1));
      } else {
        forall x ensures FirstStages(o, 1)(x) {
          assert PassesFirst(o, x, 0);
        }
        FilterKeepsAll(products, FirstStages(o, 1));
      }
    } else if StageActive(o, n) {
      FilterTwice(products, FirstStages(o, n), StageCheck(o, n), FirstStages(o, n + 1));
    } else {
      FilterCongruent(products, FirstStages(o, n), FirstStages(o, n + 1));
    }
  }

  /** A switched-off stage passes every product. */
  lemma StageOffPassesAll(o: FilterOptions, k: nat, p: Product)
    requires !StageActive(o, k)
    ensures StageCheck(o, k)(p)
  {
  }

  /** Passing all six stages is being selected. */
  lemma AllStagesSelect(products: seq<Product>, o: FilterOptions)
    ensures Filter(products, FirstStages(o, 6)) == Filter(products, SelectedBy(o))
  {
    forall p ensures PassesFirst(o, p, 6) == Selected(o, p) {
      assert PassesFirst(o, p, 6) == (PassesFirst(o, p, 5) && PassesMinCO2(o, p));
      assert PassesFirst(o, p, 5) == (PassesFirst(o, p, 4) && PassesCO2Max(o, p));
      assert PassesFirst(o, p, 4) == (PassesFirst(o, p, 3) && PassesMaxCarbon(o, p));
      assert PassesFirst(o, p, 3) == (PassesFirst(o, p, 2) && PassesMaxPrice(o, p));
      assert PassesFirst(o, p, 2) == (PassesFirst(o, p, 1) && PassesCategory(o, p));
      assert PassesFirst(o, p, 1) == PassesSearch(o, p);
    }
    FilterCongruent(products, FirstStages(o, 6), SelectedBy(o));
  }

  /**
   * `filteredProducts`: the products that pass every switched-on filter,
   * stably sorted by the chosen key. The stages run in the order search,
   * category, price bound, carbon bound, CO2 upper bound, CO2 lower bound.
   */
  method FilteredProducts(products: seq<Product>, o: FilterOptions) returns (filtered: seq<Product>)
    ensures forall p :: p in filtered <==> p in products && Selected(o, p)
    ensures multiset(filtered) == multiset(Filter(products, SelectedBy(o)))
    ensures SortedBy(filtered, Precedes(o.sortBy))
    ensures o.sortBy == Unsorted ==> filtered == Filter(products, SelectedBy(o))
    ensures NoDuplicates(products) ==> NoDuplicates(filtered)
    ensures filtered == SortBy(Filter(products, SelectedBy(o)), o.sortBy)
  {
    filtered := ApplyStage(products, o, 0, products);
    filtered := ApplyStage(products, o, 1, filtered);
    filtered := ApplyStage(products, o, 2, filtered);
    filtered := ApplyStage(products, o, 3, filtered);
    filtered := ApplyStage(products, o, 4, filtered);
    filtered := ApplyStage(products, o, 5, filtered);
    ghost var chosen := filtered;
    AllStagesSelect(products, o);
    filtered := SortBy(filtered, o.sortBy);
    SortedSelection(products, o, chosen, filtered);
  }

  /** The selected products, sorted: exactly the products that pass, in the key's order. */
  lemma SortedSelection(products: seq<Product>, o: FilterOptions, chosen: seq<Product>, sorted: seq<Product>)
    requires chosen == Filter(products, FirstStages(o, 6))
    requires sorted == SortBy(chosen, o.sortBy)
    ensures forall p :: p in sorted <==> p in products && Selected(o, p)
    ensures multiset(sorted) == multiset(Filter(products, SelectedBy(o)))
    ensures SortedBy(sorted, Precedes(o.sortBy))
    ensures o.sortBy == Unsorted ==> sorted == Filter(products, SelectedBy(o))
    ensures NoDuplicates(products) ==> NoDuplicates(sorted)
  {
    AllStagesSelect(products, o);
    if NoDuplicates(products) {
      FilterNoDuplicates(products, SelectedBy(o));
      PermutationNoDuplicates(Filter(products, SelectedBy(o)), sorted);
    }
    forall p ensures p in sorted <==> p in products && Selected(o, p) {
      assert p in sorted <==> p in multiset(sorted);
      assert p in chosen <==> p in multiset(chosen);
    }
  }

  /** Under the default options every product is shown. */
  lemma DefaultFiltersSelectAll(p: Product)
    ensures Selected(DefaultFilters, p)
  {
  }

  /** A bound of 0 filters nothing out: it behaves as an absent bound. */
  lemma ZeroBoundIsIgnored(o: FilterOptions, p: Product)
    ensures Selected(o.(maxPrice := Some(0.0)), p) == Selected(o.(maxPrice := None), p)
    ensures Selected(o.(maxCarbon := Some(0.0)), p) == Selected(o.(maxCarbon := None), p)
    ensures Selected(o.(co2Max := Some(0.0)), p) == Selected(o.(co2Max := None), p)
    ensures Selected(o.(minCO2 := Some(0.0)), p) == Selected(o.(minCO2 := None), p)
  {
  }

  /** A query of whitespace only behaves as no query at all. */
  lemma BlankQueryIsIgnored(o: FilterOptions, query: string, p: Product)
    requires AllWhitespace(query)
    ensures Selected(o.(searchQuery := Some(query)), p) == Selected(o.(searchQuery := None), p)
  {
  }

  /** The bounds read together: a shown product lies within every truthy bound. */
  lemma ShownWithinBounds(o: FilterOptions, p: Product)
    requires Selected(o, p)
    ensures Truthy(o.maxPrice) ==> p.price <= o.maxPrice.value
    ensures Truthy(o.maxCarbon) ==> p.carbonFootprint <= o.maxCarbon.value
    ensures Truthy(o.co2Max) ==> p.carbonFootprint <= o.co2Max.value
    ensures Truthy(o.minCO2) ==> o.minCO2.value <= p.carbonFootprint
    ensures CategoryActive(o) ==> p.category == o.category.value
    ensures SearchActive(o) ==> MatchesTerm(p, SearchTerm(o))
  {
  }

  /** `Date.now().toString()` as the id of an added product. */
  function WithNewProduct(products: seq<Product>, product: Product, now: nat): (r: seq<Product>)
    ensures |r| == |products| + 1 && r[..|products|] == products
    ensures r[|products|] == product.(id := DecimalString(now))
  {
    products + [product.(id := DecimalString(now))]
  }

  /** Products added at different clock readings receive different ids. */
  lemma NewIdsDiffer(first: Product, second: Product, t1: nat, t2: nat)
    requires t1 != t2
    ensures first.(id := DecimalString(t1)).id != second.(id := DecimalString(t2)).id
  {
    if DecimalString(t1) == DecimalString(t2) {
      DecimalStringInjective(t1, t2);
    }
  }

  function PatchIf(id: ProductId, patch: ProductPatch): Product -> Product {
    (p: Product) => if p.id == id then ApplyPatch(p, patch) else p
  }

  /** `updateProduct(id, patch)`: every product with the id takes the patch; the rest stay. */
  function WithUpdate(products: seq<Product>, id: ProductId, patch: ProductPatch): (r: seq<Product>)
    ensures |r| == |products|
    ensures forall i :: 0 <= i < |r| && products[i].id != id ==> r[i] == products[i]
    ensures forall i :: 0 <= i < |r| && products[i].id == id ==> r[i] == ApplyPatch(products[i], patch)
  {
    MapSeq(products, PatchIf(id, patch))
  }

  /** An update for an id that is not listed, or with an empty patch, changes nothing. */
  lemma UpdateWithoutEffect(products: seq<Product>, id: ProductId, patch: ProductPatch)
    requires (forall i :: 0 <= i < |products| ==> products[i].id != id)
             || patch == ProductPatch(None, None, None, None, None, None, None, None, None)
    ensures WithUpdate(products, id, patch) == products
  {
  }

  function IdIsNot(id: ProductId): Product -> bool {
    (p: Product) => p.id != id
  }

  /** `deleteProduct(id)`: every product with the id removed, the rest in order. */
  function WithoutProduct(products: seq<Product>, id: ProductId): (r: seq<Product>)
    ensures forall p :: p in r <==> p in products && p.id != id
    ensures |r| <= |products|
    ensures forall p :: multiset(r)[p] == if p.id == id then 0 else multiset(products)[p]
    ensures IsSubsequence(r, products)
  {
    FilterCounts(products, IdIsNot(id));
    FilterIsSubsequence(products, IdIsNot(id));
    Filter(products, IdIsNot(id))
  }

  /** Deleting an id that is not listed changes nothing. */
  lemma DeleteAbsent(products: seq<Product>, id: ProductId)
    requires forall i :: 0 <= i < |products| ==> products[i].id != id
    ensures WithoutProduct(products, id) == products
  {
    FilterKeepsAll(products, IdIsNot(id));
  }

  /** A deleted product never appears in the filtered view, whatever the options. */
  lemma DeletedNeverShown(products: seq<Product>, id: ProductId, o: FilterOptions)
    ensures forall p :: p in Filter(WithoutProduct(products, id), SelectedBy(o)) ==> p.id != id
  {
  }

  /**
   * `getProductsBySeller`: the whole catalogue, whatever the seller, so a
   * seller is shown other sellers' products as well.
   */
  function ProductsBySeller(products: seq<Product>, sellerId: string): (r: seq<Product>)
    ensures |r| == |products|
    ensures forall p :: p in products && p.sellerId != sellerId ==> p in r
  {
    products
  }

  lemma ProductsBySellerIgnoresSeller(products: seq<Product>, sellerId: string)
    ensures forall p :: p in products ==> p in ProductsBySeller(products, sellerId)
    ensures |ProductsBySeller(products, sellerId)| == |products|
  {
  }

  /** The catalogue holder: the product list and the filter options, each replaced by its setter. */
  class ProductStore {
    var products: seq<Product>
    var filterOptions: FilterOptions

    constructor (initialProducts: seq<Product>)
      ensures products == initialProducts && filterOptions == DefaultFilters
    {
      products := initialProducts;
      filterOptions := DefaultFilters;
    }

    method SetFilterOptions(options: FilterOptions)
      modifies this
      ensures filterOptions == options && products == old(products)
    {
      filterOptions := options;
    }

    method SortProducts(option: SortKey)
      modifies this
      ensures filterOptions == old(filterOptions).(sortBy := option) && products == old(products)
    {
      filterOptions := filterOptions.(sortBy := option);
    }

    method FilterByCategory(category: string)
      modifies this
      ensures filterOptions == old(filterOptions).(category := Some(category)) && products == old(products)
    {
      filterOptions := filterOptions.(category := Some(category));
    }

    method ResetFilters()
      modifies this
      ensures filterOptions == DefaultFilters && products == old(products)
    {
      filterOptions := DefaultFilters;
    }

    method SearchProducts(query: string)
      modifies this
      ensures filterOptions == old(filterOptions).(searchQuery := Some(query)) && products == old(products)
    {
      filterOptions := filterOptions.(searchQuery := Some(query));
    }

    method SetCO2MaxFilter(maxCO2: Option<real>)
      modifies this
      ensures filterOptions == old(filterOptions).(co2Max := maxCO2) && products == old(products)
    {
      filterOptions := filterOptions.(co2Max := maxCO2);
    }

    method SetMinCO2Filter(minCO2: Option<real>)
      modifies this
      ensures filterOptions == old(filterOptions).(minCO2 := minCO2) && products == old(products)
    {
      filterOptions := filterOptions.(minCO2 := minCO2);
    }

    /** `addProduct`: `now` stands for `Date.now()`; the argument's own id is overwritten. */
    method AddProduct(product: Product, now: nat)
      modifies this
      ensures products == WithNewProduct(old(products), product, now) && filterOptions == old(filterOptions)
    {
      products := products + [product.(id := DecimalString(now))];
    }

    method UpdateProduct(id: ProductId, patch: ProductPatch)
      modifies this
      ensures products == WithUpdate(old(products), id, patch) && filterOptions == old(filterOptions)
    {
      products := MapSeq(products, PatchIf(id, patch));
    }

    method DeleteProduct(id: ProductId)
      modifies this
      ensures products == WithoutProduct(old(products), id) && filterOptions == old(filterOptions)
    {
      products := Filter(products, IdIsNot(id));
    }
  }
}
