/**
 * The component gallery's category list and search filter: the category
 * tabs are "All" followed by the distinct categories in order of first
 * appearance (the insertion order of a JavaScript `Set`), and the grid shows
 * the components whose category matches the selected tab and whose title,
 * description or one of whose tags contains the search text, ignoring case.
 */
module Gallery {
  import opened Text

  datatype Component = Component(id: string, title: string, description: string, category: string, tags: seq<string>)

  // ---------------------------------------------------------------------
  // Categories
  // ---------------------------------------------------------------------

  /** `Array.from(new Set(xs))`: each value once, in order of first appearance. */
  function Distinct(xs: seq<string>): (d: seq<string>)
    ensures forall x :: x in d <==> x in xs
    ensures NoDuplicates(d)
  {
    if xs == [] then []
    else
      var d := Distinct(xs[..|xs| - 1]);
      var x := xs[|xs| - 1];
      assert xs == xs[..|xs| - 1] + [x];
      if x in d then d else d + [x]
  }

  predicate NoDuplicates<T(==)>(d: seq<T>)
  {
    forall i, j :: 0 <= i < j < |d| ==> d[i] != d[j]
  }

  /** The position of the first occurrence of `x`. */
  function FirstIndex(xs: seq<string>, x: string): (k: nat)
    requires x in xs
    ensures k < |xs| && xs[k] == x
    ensures forall j :: 0 <= j < k ==> xs[j] != x
  {
    if xs[0] == x then 0 else 1 + FirstIndex(xs[1..], x)
  }

  /** A value that already occurs in a prefix has its first occurrence there. */
  lemma FirstIndexPrefix(xs: seq<string>, n: nat, x: string)
    requires n <= |xs| && x in xs[..n]
    ensures FirstIndex(xs, x) == FirstIndex(xs[..n], x) < n
  {
    var a, b := FirstIndex(xs[..n], x), FirstIndex(xs, x);
    assert xs[a] == x;
    assert xs[..n][b] == xs[b];
  }

  /** The distinct values appear in the order of their first occurrences. */
  lemma {:induction false} DistinctOrder(xs: seq<string>, i: nat, j: nat)
    requires i < j < |Distinct(xs)|
    ensures FirstIndex(xs, Distinct(xs)[i]) < FirstIndex(xs, Distinct(xs)[j])
  {
    var n := |xs| - 1;
    var init := xs[..n];
    var d := Distinct(init);
    var x := xs[n];
    assert Distinct(xs) == if x in d then d else d + [x];
    assert Distinct(xs)[i] == d[i];
    FirstIndexPrefix(xs, n, d[i]);
    if j < |d| {
      assert Distinct(xs)[j] == d[j];
      FirstIndexPrefix(xs, n, d[j]);
      DistinctOrder(init, i, j);
    } else {
      assert Distinct(xs)[j] == x && x !in init;
      assert FirstIndex(xs, x) == n by {
        assert forall k :: 0 <= k < n ==> xs[k] == init[k];
      }
    }
  }

  /** The `categories` memo: "All" first, then every distinct category. */
  function Categories(components: seq<Component>): (tabs: seq<string>)
    ensures |tabs| >= 1 && tabs[0] == "All"
    ensures forall i :: 0 <= i < |components| ==> components[i].category in tabs
  {
    var cats := seq(|components|, i requires 0 <= i < |components| => components[i].category);
    assert forall i :: 0 <= i < |components| ==> cats[i] == components[i].category && cats[i] in cats;
    ["All"] + Distinct(cats)
  }

  /**
   * "All" leads; after it every category of some component appears, exactly
   * once, and only those, in order of the first component that has it.
   */
  lemma CategoriesShape(components: seq<Component>)
    ensures var cats := Categories(components);
      |cats| >= 1 && cats[0] == "All" &&
      (forall c :: c in cats[1..] <==> exists k :: 0 <= k < |components| && components[k].category == c) &&
      NoDuplicates(cats[1..])
  {
    var cs := seq(|components|, i requires 0 <= i < |components| => components[i].category);
    var cats := Categories(components);
    assert cats[1..] == Distinct(cs);
    forall c
      ensures c in cats[1..] <==> exists k :: 0 <= k < |components| && components[k].category == c
    {
      if c in cs {
        var k :| 0 <= k < |cs| && cs[k] == c;
        assert components[k].category == c;
      }
      if exists k :: 0 <= k < |components| && components[k].category == c {
        var k :| 0 <= k < |components| && components[k].category == c;
        assert cs[k] == c;
      }
    }
  }

  // ---------------------------------------------------------------------
  // The filter
  // ---------------------------------------------------------------------

  /** `selectedCategory === 'All' || component.category === selectedCategory`. */
  predicate MatchesCategory(c: Component, selected: string)
  {
    selected == "All" || c.category == selected
  }

  /** Case-insensitive substring search on the title, the description or any tag. */
  predicate MatchesSearch(c: Component, query: string)
    ensures query == "" ==> MatchesSearch(c, query)
  {
    var q := Lower(query);
    query == "" ||
    Contains(Lower(c.title), q) ||
    Contains(Lower(c.description), q) ||
    exists k :: 0 <= k < |c.tags| && Contains(Lower(c.tags[k]), q)
  }

  predicate Shown(c: Component, selected: string, query: string)
    ensures selected == "All" && query == "" ==> Shown(c, selected, query)
    ensures Shown(c, selected, query) ==> MatchesSearch(c, query)
  {
    MatchesCategory(c, selected) && MatchesSearch(c, query)
  }

  /** The `filteredComponents` memo: `components.filter(...)`. */
  function Filter(components: seq<Component>, selected: string, query: string): (r: seq<Component>)
    ensures |r| <= |components|
  {
    if components == [] then []
    else
      (if Shown(components[0], selected, query) then [components[0]] else []) +
      Filter(components[1..], selected, query)
  }

  /** `a` is `b` with some elements left out, the rest kept in order. */
  predicate IsSubsequence<T(==)>(a: seq<T>, b: seq<T>)
    decreases |b|
  {
    a == [] ||
    (b != [] && ((a[0] == b[0] && IsSubsequence(a[1..], b[1..])) || IsSubsequence(a, b[1..])))
  }

  /** The filtered list is an order-preserving subsequence of the components. */
  lemma {:induction false} FilterIsSubsequence(components: seq<Component>, selected: string, query: string)
    ensures IsSubsequence(Filter(components, selected, query), components)
  {
    if components != [] {
      var rest := Filter(components[1..], selected, query);
      FilterIsSubsequence(components[1..], selected, query);
      if Shown(components[0], selected, query) {
        var r := Filter(components, selected, query);
        assert r == [components[0]] + rest;
        assert r[0] == components[0] && r[1..] == rest;
      } else {
        assert Filter(components, selected, query) == rest;
        SubsequenceOfTail(rest, components);
      }
    }
  }

  lemma SubsequenceOfTail(a: seq<Component>, b: seq<Component>)
    requires b != [] && IsSubsequence(a, b[1..])
    ensures IsSubsequence(a, b)
  {
  }

  /**
   * Soundness and completeness: a component is listed exactly when it is
   * one of the components and matches both the tab and the search.
   */
  lemma {:induction false} FilterMembers(components: seq<Component>, selected: string, query: string, c: Component)
    ensures c in Filter(components, selected, query) <==> c in components && Shown(c, selected, query)
  {
    if components != [] {
      FilterMembers(components[1..], selected, query, c);
      assert components == [components[0]] + components[1..];
    }
  }

  /** Every listed component has the selected category, unless the tab is "All". */
  lemma FilterCategory(components: seq<Component>, selected: string, query: string)
    requires selected != "All"
    ensures forall c :: c in Filter(components, selected, query) ==> c.category == selected
  {
    forall c | c in Filter(components, selected, query)
      ensures c.category == selected
    {
      FilterMembers(components, selected, query, c);
    }
  }

  /** With the "All" tab and no search text every component is listed, in order. */
  lemma {:induction false} FilterAllEmpty(components: seq<Component>)
    ensures Filter(components, "All", "") == components
  {
    if components != [] {
      FilterAllEmpty(components[1..]);
      assert [components[0]] + components[1..] == components;
    }
  }

  lemma LowerIdempotent(s: string)
    ensures Lower(Lower(s)) == Lower(s)
  {
  }

  /** The search ignores the case of the query: its lower-cased form matches the same components. */
  lemma SearchIgnoresCase(c: Component, query: string)
    ensures MatchesSearch(c, Lower(query)) <==> MatchesSearch(c, query)
  {
    LowerIdempotent(query);
    assert Lower(query) == "" <==> query == "";
  }

  /** A query that occurs in the title, in any case, finds the component. */
  lemma TitleMatch(c: Component, query: string)
    requires Contains(Lower(c.title), Lower(query))
    ensures MatchesSearch(c, query)
  {
  }

  // ---------------------------------------------------------------------
  // The page
  // ---------------------------------------------------------------------

  /** The gallery page: its one state hook is the selected category tab. */
  class GalleryPage {
    var selectedCategory: string

    constructor()
      ensures selectedCategory == "All"
    {
      selectedCategory := "All";
    }

    /** A category tab's click selects it. */
    method SelectCategory(category: string)
      modifies this
      ensures selectedCategory == category
    {
      selectedCategory := category;
    }

    /**
     * The grid for the `search` URL parameter (`""` when absent): the
     * components of the selected tab that match the search, in order.
     */
    method Visible(components: seq<Component>, searchQuery: string) returns (r: seq<Component>)
      ensures r == Filter(components, selectedCategory, searchQuery)
      ensures forall c :: c in r <==> c in components && Shown(c, selectedCategory, searchQuery)
    {
      r := Filter(components, selectedCategory, searchQuery);
      forall c
        ensures c in r <==> c in components && Shown(c, selectedCategory, searchQuery)
      {
        FilterMembers(components, selectedCategory, searchQuery, c);
      }
    }
  }
}
