/**
 * The product helpers of the frontend's utility module: sorting by a named
 * key, free-text search, the list of categories, grouping by category and
 * the validation of a product form.
 */
module Products {
  import opened Common
  import opened Text
  import opened Sequences

  type ProductId = string

  /** A catalogue entry, with the fields the storefront logic reads. */
  datatype Product = Product(
    id: ProductId,
    name: string,
    description: string,
    price: real,
    brand: string,
    sellerId: string,
    category: string,
    stock: int,
    carbonFootprint: real)

  /**
   * A `Partial<Product>`: each field may be absent. Used both for the
   * fields an update overwrites and for a product form being validated.
   */
  datatype ProductPatch = ProductPatch(
    id: Option<ProductId>,
    name: Option<string>,
    description: Option<string>,
    price: Option<real>,
    brand: Option<string>,
    sellerId: Option<string>,
    category: Option<string>,
    stock: Option<int>,
    carbonFootprint: Option<real>)

  /** `{ ...p, ...patch }`: the fields present in the patch win. */
  function ApplyPatch(p: Product, patch: ProductPatch): (r: Product)
    ensures r.id == if patch.id.Some? then patch.id.value else p.id
    ensures r.name == if patch.name.Some? then patch.name.value else p.name
    ensures r.description == if patch.description.Some? then patch.description.value else p.description
    ensures r.price == if patch.price.Some? then patch.price.value else p.price
    ensures r.brand == if patch.brand.Some? then patch.brand.value else p.brand
    ensures r.sellerId == if patch.sellerId.Some? then patch.sellerId.value else p.sellerId
    ensures r.category == if patch.category.Some? then patch.category.value else p.category
    ensures r.stock == if patch.stock.Some? then patch.stock.value else p.stock
    ensures r.carbonFootprint == if patch.carbonFootprint.Some? then patch.carbonFootprint.value else p.carbonFootprint
    ensures patch == ProductPatch(None, None, None, None, None, None, None, None, None) ==> r == p
  {
    Product(
      patch.id.GetOr(p.id),
      patch.name.GetOr(p.name),
      patch.description.GetOr(p.description),
      patch.price.GetOr(p.price),
      patch.brand.GetOr(p.brand),
      patch.sellerId.GetOr(p.sellerId),
      patch.category.GetOr(p.category),
      patch.stock.GetOr(p.stock),
      patch.carbonFootprint.GetOr(p.carbonFootprint))
  }

  /** The sort orders a caller can name; `Unsorted` stands for every other string. */
  datatype SortKey = CarbonLow | CarbonHigh | PriceLow | PriceHigh | ByName | Unsorted

  /** The `SortOption` string of each key. */
  function SortKeyName(k: SortKey): string {
    match k
    case CarbonLow => "carbon-low"
    case CarbonHigh => "carbon-high"
    case PriceLow => "price-low"
    case PriceHigh => "price-high"
    case ByName => "name"
    case Unsorted => ""
  }

  /** The `switch (sortBy)` of the comparators. */
  function ParseSortKey(s: string): (k: SortKey)
    ensures k != Unsorted ==> SortKeyName(k) == s
    ensures k == Unsorted <==> s !in {"carbon-low", "carbon-high", "price-low", "price-high", "name"}
  {
    if s == "price-low" then PriceLow
    else if s == "price-high" then PriceHigh
    else if s == "carbon-low" then CarbonLow
    else if s == "carbon-high" then CarbonHigh
    else if s == "name" then ByName
    else Unsorted
  }

  /** Every named key is recognised from its own string. */
  lemma SortKeyRoundTrip(k: SortKey)
    requires k != Unsorted
    ensures ParseSortKey(SortKeyName(k)) == k
  {
  }

  /** Code-point order on strings: the model's stand-in for `localeCompare`. */
  predicate LexLe(a: string, b: string) {
    if a == [] then true
    else if b == [] then false
    else if a[0] != b[0] then a[0] < b[0]
    else LexLe(a[1..], b[1..])
  }

  lemma {:induction false} LexLeTotal(a: string, b: string)
    ensures LexLe(a, b) || LexLe(b, a)
  {
    if a != [] && b != [] && a[0] == b[0] {
      LexLeTotal(a[1..], b[1..]);
    }
  }

  lemma {:induction false} LexLeTransitive(a: string, b: string, c: string)
    requires LexLe(a, b) && LexLe(b, c)
    ensures LexLe(a, c)
  {
    if a != [] && b != [] && c != [] && a[0] == b[0] && b[0] == c[0] {
      LexLeTransitive(a[1..], b[1..], c[1..]);
    }
  }

  /**
   * The comparator of each key, read as "a may stay before b" (the
   * comparator returns a value no greater than 0). An unrecognised key's
   * comparator returns 0 for every pair.
   */
  function Precedes(k: SortKey): (Product, Product) -> bool {
    match k
    case PriceLow => (a: Product, b: Product) => a.price <= b.price
    case PriceHigh => (a: Product, b: Product) => b.price <= a.price
    case CarbonLow => (a: Product, b: Product) => a.carbonFootprint <= b.carbonFootprint
    case CarbonHigh => (a: Product, b: Product) => b.carbonFootprint <= a.carbonFootprint
    case ByName => (a: Product, b: Product) => LexLe(a.name, b.name)
    case Unsorted => (a: Product, b: Product) => true
  }

  /** Each comparator is consistent, so the sort it drives is well defined. */
  lemma PrecedesIsTotalPreorder(k: SortKey)
    ensures TotalPreorder(Precedes(k))
  {
    if k == ByName {
      var le := Precedes(k);
      forall a: Product, b: Product ensures le(a, b) || le(b, a) {
        LexLeTotal(a.name, b.name);
      }
      forall a: Product, b: Product, c: Product | le(a, b) && le(b, c) ensures le(a, c) {
        LexLeTransitive(a.name, b.name, c.name);
      }
    }
  }

  /** Sorting by a key: a reordering of the input, in the key's order. */
  function SortBy(products: seq<Product>, k: SortKey): (r: seq<Product>)
    ensures multiset(r) == multiset(products)
    ensures SortedBy(r, Precedes(k))
    ensures k == Unsorted ==> r == products
  {
    PrecedesIsTotalPreorder(k);
    SortSorted(products, Precedes(k));
    assert k == Unsorted ==> Sort(products, Precedes(k)) == products by {
      if k == Unsorted {
        SortAllTied(products, Precedes(k));
      }
    }
    Sort(products, Precedes(k))
  }

  /** Products whose keys tie keep their input order. */
  lemma SortByStable(products: seq<Product>, k: SortKey, x: Product)
    ensures Filter(SortBy(products, k), Tied(Precedes(k), x)) == Filter(products, Tied(Precedes(k), x))
  {
    PrecedesIsTotalPreorder(k);
    SortStable(products, Precedes(k), x);
  }

  /**
   * `sortProducts`: a sorted copy; the argument is not changed. Ascending
   * keys give a non-decreasing sequence, descending ones a non-increasing
   * one, and an unrecognised key keeps the input order.
   */
  function SortProducts(products: seq<Product>, sortBy: string): (r: seq<Product>)
    ensures |r| == |products| && multiset(r) == multiset(products)
    ensures sortBy == "price-low" ==> forall i, j :: 0 <= i < j < |r| ==> r[i].price <= r[j].price
    ensures sortBy == "price-high" ==> forall i, j :: 0 <= i < j < |r| ==> r[i].price >= r[j].price
    ensures sortBy == "carbon-low" ==>
              forall i, j :: 0 <= i < j < |r| ==> r[i].carbonFootprint <= r[j].carbonFootprint
    ensures sortBy == "carbon-high" ==>
              forall i, j :: 0 <= i < j < |r| ==> r[i].carbonFootprint >= r[j].carbonFootprint
    ensures sortBy == "name" ==> forall i, j :: 0 <= i < j < |r| ==> LexLe(r[i].name, r[j].name)
    ensures ParseSortKey(sortBy) == Unsorted ==> r == products
  {
    SortBy(products, ParseSortKey(sortBy))
  }

  /** The search predicate: the term occurs in the lowercased name, description or category. */
  predicate MatchesTerm(p: Product, term: string) {
    Contains(ToLower(p.name), term) || Contains(ToLower(p.description), term)
    || Contains(ToLower(p.category), term)
  }

  /** Every string contains the empty string. */
  lemma ContainsEmpty(s: string)
    ensures Contains(s, "")
  {
    assert StartsWith(s, "");
  }

  /**
   * `filterProductsBySearch`: the products whose name, description or
   * category contains the lowercased term, in input order. The term is not
   * trimmed, and an empty term keeps everything.
   */
  function FilterProductsBySearch(products: seq<Product>, searchTerm: string): (r: seq<Product>)
    ensures |r| <= |products| && multiset(r) <= multiset(products)
    ensures forall p :: p in r <==> p in products && MatchesTerm(p, ToLower(searchTerm))
    ensures searchTerm == "" ==> r == products
    ensures forall p :: multiset(r)[p] == if MatchesTerm(p, ToLower(searchTerm)) then multiset(products)[p] else 0
    ensures IsSubsequence(r, products)
  {
    var term := ToLower(searchTerm);
    FilterCounts(products, (p: Product) => MatchesTerm(p, term));
    FilterIsSubsequence(products, (p: Product) => MatchesTerm(p, term));
    assert searchTerm == "" ==> Filter(products, (p: Product) => MatchesTerm(p, term)) == products by {
      if searchTerm == "" {
        forall p: Product ensures MatchesTerm(p, term) {
          ContainsEmpty(ToLower(p.name));
        }
        FilterKeepsAll(products, (p: Product) => MatchesTerm(p, term));
      }
    }
    Filter(products, (p: Product) => MatchesTerm(p, term))
  }

  /** `products.map(p => p.category)`. */
  function Categories(products: seq<Product>): (r: seq<string>)
    ensures |r| == |products|
    ensures forall i :: 0 <= i < |products| ==> r[i] == products[i].category
  {
    MapSeq(products, (p: Product) => p.category)
  }

  /**
   * `getUniqueCategories`: each category of the input once, in the order of
   * first appearance.
   */
  function UniqueCategories(products: seq<Product>): (r: seq<string>)
    ensures NoDuplicates(r)
    ensures forall c :: c in r <==> c in Categories(products)
    ensures forall i, j :: 0 <= i < j < |r| ==>
              FirstIndex(Categories(products), r[i]) < FirstIndex(Categories(products), r[j])
  {
    DedupFirstOccurrenceOrder(Categories(products));
    Dedup(Categories(products))
  }

  /** The members of one category group. */
  function InCategory(c: string): Product -> bool {
    (p: Product) => p.category == c
  }

  /** One step of the reduction: `product` pushed onto its category's list, created empty if missing. */
  function Push(groups: map<string, seq<Product>>, product: Product): (r: map<string, seq<Product>>)
    ensures r.Keys == groups.Keys + {product.category}
    ensures forall c :: c in groups && c != product.category ==> r[c] == groups[c]
  {
    groups[product.category := (if product.category in groups then groups[product.category] else []) + [product]]
  }

  /** The reduction of `groupByCategory` over `products`, from an empty record. */
  function GroupsOf(products: seq<Product>): map<string, seq<Product>> {
    if products == [] then map[]
    else Push(GroupsOf(products[..|products| - 1]), products[|products| - 1])
  }

  /**
   * `groupByCategory`: one key per category of the input, each holding the
   * products of that category in input order.
   */
  method GroupByCategory(products: seq<Product>) returns (groups: map<string, seq<Product>>)
    ensures forall c :: c in groups <==> c in Categories(products)
    ensures forall c :: c in groups ==> groups[c] == Filter(products, InCategory(c))
  {
    groups := map[];
    var i := 0;
    while i < |products|
      invariant 0 <= i <= |products|
      invariant groups == GroupsOf(products[..i])
    {
      var product := products[i];
      var category := product.category;
      if category !in groups {
        groups := groups[category := []];
      }
      groups := groups[category := groups[category] + [product]];
      assert products[..i + 1][..i] == products[..i];
      i := i + 1;
    }
    assert products[..i] == products;
    GroupsOfFilters(products);
  }

  /** The reduction groups each category's products, in order, under that category and nowhere else. */
  lemma {:induction false} GroupsOfFilters(products: seq<Product>)
    ensures forall c :: c in GroupsOf(products) <==> c in Categories(products)
    ensures forall c :: c in GroupsOf(products) ==> GroupsOf(products)[c] == Filter(products, InCategory(c))
  {
    if products != [] {
      var prefix, product := products[..|products| - 1], products[|products| - 1];
      assert products == prefix + [product];
      GroupsOfFilters(prefix);
      PushKeys(prefix, product);
      PushValues(prefix, GroupsOf(prefix), product);
    }
  }

  /** The categories after a push are the earlier ones and the new product's. */
  lemma PushKeys(prefix: seq<Product>, product: Product)
    ensures forall c :: c in Categories(prefix + [product]) <==> c in Categories(prefix) || c == product.category
  {
    assert Categories(prefix + [product]) == Categories(prefix) + [product.category];
  }

  /** Pushing a product onto a correct grouping of `prefix` gives the groups of `prefix + [product]`. */
  lemma PushValues(prefix: seq<Product>, groups: map<string, seq<Product>>, product: Product)
    requires forall c :: c in groups <==> c in Categories(prefix)
    requires forall c :: c in groups ==> groups[c] == Filter(prefix, InCategory(c))
    ensures forall c :: c in Push(groups, product) ==>
              Push(groups, product)[c] == Filter(prefix + [product], InCategory(c))
  {
    var after := Push(groups, product);
    forall c | c in after
      ensures after[c] == Filter(prefix + [product], InCategory(c))
    {
      PushOne(prefix, product, c);
      if c != product.category {
        assert after[c] == groups[c];
      } else if c in groups {
        assert after[c] == groups[c] + [product];
      } else {
        EmptyGroup(prefix, c);
        assert after[c] == [] + [product];
      }
    }
  }

  /** A category no product of `prefix` has gets an empty group. */
  lemma EmptyGroup(prefix: seq<Product>, c: string)
    requires c !in Categories(prefix)
    ensures Filter(prefix, InCategory(c)) == []
  {
  }

  /** Pushing the next product extends its own group and no other. */
  lemma PushOne(prefix: seq<Product>, product: Product, c: string)
    ensures Filter(prefix + [product], InCategory(c))
         == Filter(prefix, InCategory(c)) + (if product.category == c then [product] else [])
  {
    FilterAppend(prefix, [product], InCategory(c));
    FilterSingleton(product, InCategory(c));
  }

  /** Summed over a list of categories, the sizes of their groups. */
  function GroupSizes(categories: seq<string>, products: seq<Product>): nat {
    if categories == [] then 0
    else |Filter(products, InCategory(categories[0]))| + GroupSizes(categories[1..], products)
  }

  /** How many times `c` occurs in `categories`. */
  function Occurrences(categories: seq<string>, c: string): nat {
    if categories == [] then 0
    else (if categories[0] == c then 1 else 0) + Occurrences(categories[1..], c)
  }

  lemma {:induction false} OccursOnce(categories: seq<string>, c: string)
    requires NoDuplicates(categories) && c in categories
    ensures Occurrences(categories, c) == 1
  {
    if categories[0] == c {
      OccursNever(categories[1..], c);
    } else {
      OccursOnce(categories[1..], c);
    }
  }

  lemma {:induction false} OccursNever(categories: seq<string>, c: string)
    requires c !in categories
    ensures Occurrences(categories, c) == 0
  {
    if categories != [] {
      OccursNever(categories[1..], c);
    }
  }

  lemma {:induction false} GroupSizesCons(categories: seq<string>, products: seq<Product>)
    requires products != []
    ensures GroupSizes(categories, products)
         == GroupSizes(categories, products[1..]) + Occurrences(categories, products[0].category)
  {
    if categories != [] {
      GroupSizesCons(categories[1..], products);
    }
  }

  /**
   * The groups partition the input: over a duplicate-free list of
   * categories that covers every product, the group sizes add up to the
   * number of products.
   */
  lemma {:induction false} GroupSizesSum(categories: seq<string>, products: seq<Product>)
    requires NoDuplicates(categories)
    requires forall i :: 0 <= i < |products| ==> products[i].category in categories
    ensures GroupSizes(categories, products) == |products|
  {
    if products == [] {
      GroupSizesEmpty(categories);
    } else {
      GroupSizesCons(categories, products);
      OccursOnce(categories, products[0].category);
      GroupSizesSum(categories, products[1..]);
    }
  }

  lemma {:induction false} GroupSizesEmpty(categories: seq<string>)
    ensures GroupSizes(categories, []) == 0
  {
    if categories != [] {
      GroupSizesEmpty(categories[1..]);
    }
  }

  /** The group sizes produced by `groupByCategory` add up to the number of products. */
  lemma GroupByCategorySizes(products: seq<Product>, groups: map<string, seq<Product>>)
    requires forall c :: c in groups ==> groups[c] == Filter(products, InCategory(c))
    ensures forall c :: c in groups ==> forall p :: p in groups[c] ==> p in products && p.category == c
    ensures GroupSizes(UniqueCategories(products), products) == |products|
  {
    var categories := UniqueCategories(products);
    forall i | 0 <= i < |products| ensures products[i].category in categories {
    }
    GroupSizesSum(categories, products);
  }

  /** The rules of `validateProduct`, in the order it checks them. */
  datatype Rule = NameRule | PriceRule | DescriptionRule | CarbonRule

  const Rules: seq<Rule> := [NameRule, PriceRule, DescriptionRule, CarbonRule]

  function RuleMessage(rule: Rule): string {
    match rule
    case NameRule => "Name must be at least 3 characters long"
    case PriceRule => "Price must be greater than 0"
    case DescriptionRule => "Description must be at least 10 characters long"
    case CarbonRule => "Carbon footprint must be a non-negative number"
  }

  /**
   * Whether a form passes a rule. An absent or empty name or description
   * fails; an absent or zero price fails; a carbon footprint must be a number.
   */
  predicate Passes(form: ProductPatch, rule: Rule) {
    match rule
    case NameRule => form.name.Some? && |form.name.value| >= 3
    case PriceRule => form.price.Some? && form.price.value > 0.0
    case DescriptionRule => form.description.Some? && |form.description.value| >= 10
    case CarbonRule => form.carbonFootprint.Some? && form.carbonFootprint.value >= 0.0
  }

  /** The message of `rule` when the form fails it, and nothing otherwise. */
  function Check(form: ProductPatch, rule: Rule): (r: seq<string>)
    ensures r == [] <==> Passes(form, rule)
    ensures r != [] ==> r == [RuleMessage(rule)]
  {
    if Passes(form, rule) then [] else [RuleMessage(rule)]
  }

  /** The message of every rule in `rules` that the form fails, in the order of `rules`. */
  function Failures(rules: seq<Rule>, form: ProductPatch): (r: seq<string>)
    ensures |r| <= |rules|
    ensures r == [] <==> forall i :: 0 <= i < |rules| ==> Passes(form, rules[i])
  {
    if rules == [] then []
    else
      var init := rules[..|rules| - 1];
      assert forall i :: 0 <= i < |init| ==> init[i] == rules[i];
      Failures(init, form) + Check(form, rules[|rules| - 1])
  }

  /** The four rules, checked one after another. */
  lemma FailuresOfRules(form: ProductPatch)
    ensures Failures(Rules, form)
         == Check(form, NameRule) + Check(form, PriceRule) + Check(form, DescriptionRule) + Check(form, CarbonRule)
    ensures Failures(Rules, form) == [] <==> forall rule :: Passes(form, rule)
  {
    assert Rules[..3] == [NameRule, PriceRule, DescriptionRule];
    assert Rules[..3][..2] == [NameRule, PriceRule];
    assert Rules[..3][..2][..1] == [NameRule];
    assert Rules[..3][..2][..1][..0] == [];
    var name := Check(form, NameRule);
    assert Failures([NameRule], form) == [] + name == name;
    assert Failures([NameRule, PriceRule], form) == name + Check(form, PriceRule);
    assert Failures([NameRule, PriceRule, DescriptionRule], form)
        == name + Check(form, PriceRule) + Check(form, DescriptionRule);
    forall rule: Rule ensures rule in Rules {
      assert rule == Rules[0] || rule == Rules[1] || rule == Rules[2] || rule == Rules[3];
    }
  }

  /**
   * `validateProduct`: the message of every rule the form fails, in the
   * fixed order of the rules; no messages exactly when every rule passes.
   */
  method ValidateProduct(form: ProductPatch) returns (errors: seq<string>)
    ensures errors == Failures(Rules, form)
    ensures errors == [] <==> forall rule :: Passes(form, rule)
  {
    errors := [];
    if !Passes(form, NameRule) {
      errors := errors + [RuleMessage(NameRule)];
    }
    assert errors == Check(form, NameRule);
    if !Passes(form, PriceRule) {
      errors := errors + [RuleMessage(PriceRule)];
    }
    assert errors == Check(form, NameRule) + Check(form, PriceRule);
    if !Passes(form, DescriptionRule) {
      errors := errors + [RuleMessage(DescriptionRule)];
    }
    assert errors == Check(form, NameRule) + Check(form, PriceRule) + Check(form, DescriptionRule);
    if !Passes(form, CarbonRule) {
      errors := errors + [RuleMessage(CarbonRule)];
    }
    FailuresOfRules(form);
  }
}
