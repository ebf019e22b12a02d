/**
 * The product listing of the client: the search-and-category filter, the list
 * of categories offered (`'all'` followed by each product category once, in
 * order of first occurrence), and the page state with its clear-filters reset.
 * Lowercasing is ASCII only.
 */
module ProductsPage {
  import opened Wrappers
  import opened Types

  function LowerChar(c: char): char {
    if 'A' <= c <= 'Z' then (c as int + 32) as char else c
  }

  /** `toLowerCase`, on ASCII letters. */
  function ToLower(s: string): (r: string)
    ensures |r| == |s|
    ensures forall k :: 0 <= k < |s| ==> r[k] == LowerChar(s[k])
  {
    seq(|s|, k requires 0 <= k < |s| => LowerChar(s[k]))
  }

  /** `s.includes(sub)`: `sub` is a prefix of `s` from some position on. */
  predicate Includes(s: string, sub: string) {
    exists i :: 0 <= i <= |s| && sub <= s[i..]
  }

  /** The filter predicate: the name matches the query and the category is "all" or the product's. */
  predicate Matches(p: Product, searchQuery: string, selectedCategory: string) {
    && Includes(ToLower(p.name), ToLower(searchQuery))
    && (selectedCategory == "all" || p.category == selectedCategory)
  }

  /** `xs` is `ys` with some elements left out, order kept. */
  ghost predicate Subsequence(xs: seq<Product>, ys: seq<Product>)
    decreases |ys|
  {
    if xs == [] then true
    else if ys == [] then false
    else (xs[0] == ys[0] && Subsequence(xs[1..], ys[1..])) || Subsequence(xs, ys[1..])
  }

  /** `products.filter(...)`: keeps exactly the matching products, in order. */
  function FilterProducts(products: seq<Product>, searchQuery: string, selectedCategory: string): (r: seq<Product>)
    ensures forall p :: p in r <==> p in products && Matches(p, searchQuery, selectedCategory)
    ensures forall p :: multiset(r)[p] == if Matches(p, searchQuery, selectedCategory) then multiset(products)[p] else 0
    ensures Subsequence(r, products)
    ensures |r| <= |products|
    decreases |products|
  {
    if products == [] then []
    else
      assert products == [products[0]] + products[1..];
      var rest := FilterProducts(products[1..], searchQuery, selectedCategory);
      if Matches(products[0], searchQuery, selectedCategory) then [products[0]] + rest else rest
  }

  lemma IncludesEmpty(s: string)
    ensures Includes(s, "")
  {
    assert "" <= s[0..];
  }

  /** With the query cleared and category "all" every product is shown. */
  lemma {:induction false} ClearedFiltersShowAll(products: seq<Product>)
    ensures FilterProducts(products, "", "all") == products
    decreases |products|
  {
    if products != [] {
      var rest := products[1..];
      ClearedFiltersShowAll(rest);
      IncludesEmpty(ToLower(products[0].name));
      assert ToLower("") == "";
      assert Matches(products[0], "", "all");
      assert FilterProducts(products, "", "all") == [products[0]] + FilterProducts(rest, "", "all");
      assert products == [products[0]] + rest;
    }
  }

  /** No value occurs twice. */
  ghost predicate Distinct(xs: seq<string>) {
    forall i, j :: 0 <= i < j < |xs| ==> xs[i] != xs[j]
  }

  /** Position of the first occurrence of `x`. */
  function FirstIndex(xs: seq<string>, x: string): (k: nat)
    requires x in xs
    ensures k < |xs| && xs[k] == x
    ensures forall j :: 0 <= j < k ==> xs[j] != x
  {
    if xs[0] == x then 0 else 1 + FirstIndex(xs[1..], x)
  }

  /** `Array.from(new Set(xs))`: each value once, in insertion order. */
  function Dedup(xs: seq<string>): (r: seq<string>)
    ensures forall x :: x in r <==> x in xs
    ensures Distinct(r)
    decreases |xs|
  {
    if xs == [] then []
    else
      var seen := Dedup(xs[..|xs| - 1]);
      if xs[|xs| - 1] in seen then seen else seen + [xs[|xs| - 1]]
  }

  /** The values of `Dedup(xs)` come in order of their first occurrence in `xs`. */
  lemma {:induction false} DedupKeepsFirstOccurrenceOrder(xs: seq<string>)
    ensures forall i, j :: 0 <= i < j < |Dedup(xs)| ==> FirstIndex(xs, Dedup(xs)[i]) < FirstIndex(xs, Dedup(xs)[j])
    decreases |xs|
  {
    if xs != [] {
      var init := xs[..|xs| - 1];
      var last := xs[|xs| - 1];
      var seen := Dedup(init);
      DedupKeepsFirstOccurrenceOrder(init);
      forall x | x in init
        ensures FirstIndex(xs, x) == FirstIndex(init, x) < |init|
      {
        var a, b := FirstIndex(xs, x), FirstIndex(init, x);
        assert xs[b] == x;
      }
      if last !in seen {
        assert FirstIndex(xs, last) == |init|;
      }
    }
  }

  function CategoriesOf(products: seq<Product>): (cs: seq<string>)
    ensures |cs| == |products|
    ensures forall k :: 0 <= k < |products| ==> cs[k] == products[k].category
  {
    seq(|products|, k requires 0 <= k < |products| => products[k].category)
  }

  /** `['all', ...new Set(categories)]`. */
  function UniqueCategories(products: seq<Product>): (r: seq<string>)
    ensures |r| >= 1 && r[0] == "all"
    ensures Distinct(r[1..])
    ensures forall c :: c in r[1..] <==> exists p :: p in products && p.category == c
    ensures forall p :: p in products ==> p.category in r
  {
    var cs := CategoriesOf(products);
    var r := ["all"] + Dedup(cs);
    assert r[1..] == Dedup(cs);
    assert forall c :: c in cs <==> exists p :: p in products && p.category == c by {
      forall c | c in cs ensures exists p :: p in products && p.category == c {
        var k :| 0 <= k < |cs| && cs[k] == c;
        assert products[k] in products;
      }
      forall p | p in products ensures p.category in cs {
        var k :| 0 <= k < |products| && products[k] == p;
        assert cs[k] == p.category;
      }
    }
    r
  }

  /** The categories after "all" are in order of first occurrence among the products. */
  lemma CategoriesInFirstOccurrenceOrder(products: seq<Product>)
    ensures var r := UniqueCategories(products)[1..];
      forall i, j :: 0 <= i < j < |r| ==>
        FirstIndex(CategoriesOf(products), r[i]) < FirstIndex(CategoriesOf(products), r[j])
  {
    var cs := CategoriesOf(products);
    assert UniqueCategories(products)[1..] == Dedup(cs);
    DedupKeepsFirstOccurrenceOrder(cs);
  }

  /** The page state: the fetched products, the categories offered and the two filters. */
  class ProductsView {
    var products: seq<Product>
    var loading: bool
    var searchQuery: string
    var selectedCategory: string
    var showFilters: bool
    var categories: seq<string>

    constructor ()
      ensures products == [] && loading && searchQuery == "" && selectedCategory == "all"
      ensures !showFilters && categories == ["all"]
    {
      products := [];
      loading := true;
      searchQuery := "";
      selectedCategory := "all";
      showFilters := false;
      categories := ["all"];
    }

    /** The products shown for the current state. */
    function Shown(): (r: seq<Product>)
      reads this
      ensures forall p :: p in r <==> p in products && Matches(p, searchQuery, selectedCategory)
      ensures forall p :: multiset(r)[p] == if Matches(p, searchQuery, selectedCategory) then multiset(products)[p] else 0
      ensures Subsequence(r, products)
    {
      FilterProducts(products, searchQuery, selectedCategory)
    }

    /** `fetchProducts`: fetched data replaces products and categories; a failure keeps both. */
    method FetchProducts(response: Option<seq<Product>>)
      modifies this
      ensures !loading
      ensures response.Some? ==> products == response.value && categories == UniqueCategories(response.value)
      ensures response.None? ==> products == old(products) && categories == old(categories)
      ensures searchQuery == old(searchQuery) && selectedCategory == old(selectedCategory)
      ensures showFilters == old(showFilters)
    {
      if response.Some? {
        products := response.value;
        categories := UniqueCategories(response.value);
      }
      loading := false;
    }

    /** Typing in the search box replaces the query and nothing else. */
    method SetSearchQuery(query: string)
      modifies this
      ensures searchQuery == query && selectedCategory == old(selectedCategory)
      ensures products == old(products) && categories == old(categories)
      ensures loading == old(loading) && showFilters == old(showFilters)
    {
      searchQuery := query;
    }

    /** A category button selects its category and nothing else. */
    method SelectCategory(category: string)
      modifies this
      ensures selectedCategory == category && searchQuery == old(searchQuery)
      ensures products == old(products) && categories == old(categories)
      ensures loading == old(loading) && showFilters == old(showFilters)
    {
      selectedCategory := category;
    }

    /** The "Filters" button shows or hides the category buttons. */
    method ToggleFilters()
      modifies this
      ensures showFilters == !old(showFilters)
      ensures searchQuery == old(searchQuery) && selectedCategory == old(selectedCategory)
      ensures products == old(products) && categories == old(categories) && loading == old(loading)
    {
      showFilters := !showFilters;
    }

    /** "Clear Filters": resets the query and the category, so every product is shown again. */
    method ClearFilters()
      modifies this
      ensures searchQuery == "" && selectedCategory == "all"
      ensures products == old(products) && categories == old(categories)
      ensures loading == old(loading) && showFilters == old(showFilters)
      ensures Shown() == products
    {
      searchQuery := "";
      selectedCategory := "all";
      ClearedFiltersShowAll(products);
    }
  }
}
