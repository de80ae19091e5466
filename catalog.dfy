/**
 * The home page's product lists: the grid filtered by category and search text, and the two
 * rails (trending, on offer) shown only on the unfiltered page.
 */
module Catalog {
  import opened Types
  import opened Seqs

  /** How many products each rail shows at most. */
  const RailSize: nat := 8

  /** Lower-casing of one character; only ASCII letters are folded. */
  function LowerChar(c: char): char
  {
    if 'A' <= c <= 'Z' then (c as int + 32) as char else c
  }

  function Lower(s: string): (r: string)
    ensures |r| == |s|
    ensures forall i :: 0 <= i < |r| ==> !('A' <= r[i] <= 'Z')
  {
    seq(|s|, i requires 0 <= i < |s| => LowerChar(s[i]))
  }

  predicate OccursAt(s: string, t: string, i: int)
  {
    0 <= i && i + |t| <= |s| && s[i..i + |t|] == t
  }

  /** `s.includes(t)`: t occurs in s at some position. */
  predicate Includes(s: string, t: string)
  {
    exists i :: 0 <= i <= |s| - |t| && OccursAt(s, t, i)
  }

  /** No category, or the empty one, selects every category. */
  predicate AllCategories(category: Option<string>)
  {
    category.None? || category.value == ""
  }

  predicate MatchesCategory(p: Product, category: Option<string>)
  {
    AllCategories(category) || p.categoryId == category.value
  }

  /** The empty query matches everything; otherwise the name or the description must contain it, ignoring case. */
  predicate MatchesSearch(p: Product, query: string)
  {
    query == "" || Includes(Lower(p.name), Lower(query)) || Includes(Lower(p.description), Lower(query))
  }

  function KeepFor(category: Option<string>, query: string): Product -> bool
  {
    p => MatchesCategory(p, category) && MatchesSearch(p, query)
  }

  /** filteredProducts: the catalogue restricted to the category and the query, in catalogue order. */
  function Filtered(products: seq<Product>, category: Option<string>, query: string): seq<Product>
  {
    Filter(products, KeepFor(category, query))
  }

  /** The rails are shown only when no category is selected and the query is empty. */
  predicate RailsVisible(category: Option<string>, query: string)
  {
    AllCategories(category) && query == ""
  }

  function IsTrending(p: Product): bool { p.isTrending }

  function IsOnOffer(p: Product): bool { p.isOnOffer }

  /** `slice(0, 8)` */
  function TakeRail(s: seq<Product>): seq<Product>
  {
    if |s| <= RailSize then s else s[..RailSize]
  }

  function Trending(products: seq<Product>): seq<Product>
  {
    TakeRail(Filter(products, IsTrending))
  }

  function Offers(products: seq<Product>): seq<Product>
  {
    TakeRail(Filter(products, IsOnOffer))
  }

  datatype GridHeading = CategoryProducts | SearchResults | AllProducts

  function HeadingFor(category: Option<string>, query: string): GridHeading
  {
    if !AllCategories(category) then CategoryProducts
    else if query != "" then SearchResults
    else AllProducts
  }

  /**
   * The grid holds, in catalogue order, exactly the products of the catalogue that match both the
   * category and the query.
   */
  lemma FilteredSpec(products: seq<Product>, category: Option<string>, query: string)
    ensures IsSubsequence(Filtered(products, category, query), products)
    ensures forall p :: p in Filtered(products, category, query) <==>
      p in products && MatchesCategory(p, category) && MatchesSearch(p, query)
  {
    FilterIsSubsequence(products, KeepFor(category, query));
    forall p {
      FilterMembership(products, KeepFor(category, query), p);
    }
  }

  /** With the rails visible the grid is the whole catalogue, under the heading "All Products". */
  lemma UnfilteredShowsAll(products: seq<Product>, category: Option<string>, query: string)
    ensures RailsVisible(category, query) ==> Filtered(products, category, query) == products
    ensures RailsVisible(category, query) <==> HeadingFor(category, query) == AllProducts
  {
    if RailsVisible(category, query) {
      FilterAllKept(products, KeepFor(category, query));
    }
  }

  lemma {:induction false} LowerIdempotent(s: string)
    ensures Lower(Lower(s)) == Lower(s)
  {
    var l := Lower(s);
    assert forall i :: 0 <= i < |s| ==> Lower(l)[i] == l[i];
  }

  /** The search ignores the case of the query. */
  lemma SearchIgnoresQueryCase(products: seq<Product>, category: Option<string>, query: string)
    ensures Filtered(products, category, query) == Filtered(products, category, Lower(query))
  {
    LowerIdempotent(query);
    forall p ensures KeepFor(category, query)(p) == KeepFor(category, Lower(query))(p) {
      assert query == "" <==> Lower(query) == "";
    }
    FilterSameKeep(products, KeepFor(category, query), KeepFor(category, Lower(query)));
  }

  lemma LowerAppend(a: string, b: string)
    ensures Lower(a + b) == Lower(a) + Lower(b)
  {
    assert forall i :: 0 <= i < |a + b| ==> Lower(a + b)[i] == (Lower(a) + Lower(b))[i];
  }

  /** A text containing t + u contains t. */
  lemma IncludesPrefix(s: string, t: string, u: string)
    requires Includes(s, t + u)
    ensures Includes(s, t)
  {
    var i :| 0 <= i <= |s| - |t + u| && OccursAt(s, t + u, i);
    assert s[i..i + |t + u|] == t + u;
    assert s[i..i + |t|] == s[i..i + |t + u|][..|t|];
    assert OccursAt(s, t, i);
  }

  /** A product that matches a query also matches every prefix of it. */
  lemma SearchPrefix(p: Product, query: string, more: string)
    requires MatchesSearch(p, query + more)
    ensures MatchesSearch(p, query)
  {
    if query != "" {
      LowerAppend(query, more);
      if Includes(Lower(p.name), Lower(query + more)) {
        IncludesPrefix(Lower(p.name), Lower(query), Lower(more));
      } else {
        IncludesPrefix(Lower(p.description), Lower(query), Lower(more));
      }
    }
  }

  /** Typing further characters only removes products from the grid, never reorders it. */
  lemma NarrowingQuery(products: seq<Product>, category: Option<string>, query: string, more: string)
    ensures IsSubsequence(Filtered(products, category, query + more), Filtered(products, category, query))
  {
    forall p | KeepFor(category, query + more)(p)
      ensures KeepFor(category, query)(p)
    {
      SearchPrefix(p, query, more);
    }
    FilterStronger(products, KeepFor(category, query + more), KeepFor(category, query));
  }

  /** Selecting a category only removes products from the unfiltered-by-category grid. */
  lemma CategoryNarrows(products: seq<Product>, category: string, query: string)
    ensures IsSubsequence(Filtered(products, Some(category), query), Filtered(products, None, query))
  {
    FilterStronger(products, KeepFor(Some(category), query), KeepFor(None, query));
  }

  /** Each rail shows flagged products only, the first eight of them in catalogue order. */
  lemma RailsSpec(products: seq<Product>)
    ensures var all := Filter(products, IsTrending);
      && |Trending(products)| == (if |all| <= RailSize then |all| else RailSize)
      && Trending(products) == all[..|Trending(products)|]
      && IsSubsequence(Trending(products), products)
      && forall p :: p in Trending(products) ==> p in products && p.isTrending
    ensures var all := Filter(products, IsOnOffer);
      && |Offers(products)| == (if |all| <= RailSize then |all| else RailSize)
      && Offers(products) == all[..|Offers(products)|]
      && IsSubsequence(Offers(products), products)
      && forall p :: p in Offers(products) ==> p in products && p.isOnOffer
  {
    RailSpec(products, IsTrending);
    RailSpec(products, IsOnOffer);
  }

  lemma RailSpec(products: seq<Product>, flag: Product -> bool)
    ensures var all := Filter(products, flag);
      && IsSubsequence(TakeRail(all), products)
      && forall p :: p in TakeRail(all) ==> p in products && flag(p)
  {
    var all := Filter(products, flag);
    FilterIsSubsequence(products, flag);
    SubsequencePrefix(all, products, |TakeRail(all)|);
    assert TakeRail(all) == all[..|TakeRail(all)|];
    forall p | p in TakeRail(all)
      ensures p in products && flag(p)
    {
      FilterMembership(products, flag, p);
    }
  }

  /** The search "LAP" finds a product named "Laptop", whatever its category, when no category is selected. */
  lemma LaptopFound(p: Product)
    requires p.name == "Laptop"
    ensures p in Filtered([p], None, "LAP")
  {
    assert Lower("LAP") == "lap";
    assert OccursAt(Lower(p.name), "lap", 0);
    assert [p][1..] == [];
  }
}
