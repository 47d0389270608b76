/**
 * The categories page: the loaded list sorted newest first, the search over
 * it and the counts shown above the table.
 */
module CategoriesPage {
  import opened Text
  import opened ListOps

  datatype CategoryRow = CategoryRow(id: int, name: string, description: string)

  /** Ids never increase along the list. */
  predicate SortedByIdDesc(xs: seq<CategoryRow>) {
    forall i, j :: 0 <= i < j < |xs| ==> xs[i].id >= xs[j].id
  }

  /** Putting the larger id at the head of a newest-first list whose multiset is known keeps it newest first. */
  lemma ConsSorted(sorted: seq<CategoryRow>, x: CategoryRow, rest: seq<CategoryRow>)
    requires sorted != [] && SortedByIdDesc(sorted) && sorted[0].id > x.id
    requires SortedByIdDesc(rest) && multiset(rest) == multiset(sorted[1..]) + multiset{x}
    ensures SortedByIdDesc([sorted[0]] + rest)
    ensures multiset([sorted[0]] + rest) == multiset(sorted) + multiset{x}
  {
    assert sorted == [sorted[0]] + sorted[1..];
    forall k | 0 <= k < |rest| ensures sorted[0].id >= rest[k].id {
      assert rest[k] in multiset(rest);
      if rest[k] != x {
        assert rest[k] in multiset(sorted[1..]);
        assert rest[k] in sorted[1..];
      }
    }
    var r := [sorted[0]] + rest;
    forall i, j | 0 <= i < j < |r| ensures r[i].id >= r[j].id {
      assert r[j] == rest[j - 1];
      if i > 0 {
        assert r[i] == rest[i - 1];
      }
    }
  }

  /** `x` placed in a newest-first list, ahead of the rows whose id is not larger. */
  function Insert(x: CategoryRow, sorted: seq<CategoryRow>): (r: seq<CategoryRow>)
    requires SortedByIdDesc(sorted)
    ensures SortedByIdDesc(r)
    ensures multiset(r) == multiset(sorted) + multiset{x}
    ensures |r| == |sorted| + 1
    decreases |sorted|
  {
    if sorted == [] || sorted[0].id <= x.id then
      [x] + sorted
    else
      var rest := Insert(x, sorted[1..]);
      ConsSorted(sorted, x, rest);
      [sorted[0]] + rest
  }

  /** `data.sort((a, b) => b.id - a.id)`: the same rows, newest first. */
  function SortByIdDesc(xs: seq<CategoryRow>): (r: seq<CategoryRow>)
    ensures SortedByIdDesc(r)
    ensures multiset(r) == multiset(xs)
    ensures |r| == |xs|
    decreases |xs|
  {
    if xs == [] then []
    else
      assert xs == [xs[0]] + xs[1..];
      Insert(xs[0], SortByIdDesc(xs[1..]))
  }

  /**
   * `Insert` puts `x` ahead of every row whose id is not larger, so among the
   * rows of one id it comes first and the others keep their order.
   */
  lemma {:induction false} InsertKeepsEqualIdOrder(x: CategoryRow, sorted: seq<CategoryRow>, v: int)
    requires SortedByIdDesc(sorted)
    ensures Filter(Insert(x, sorted), (c: CategoryRow) => c.id == v)
         == (if x.id == v then [x] else []) + Filter(sorted, (c: CategoryRow) => c.id == v)
    decreases |sorted|
  {
    if sorted == [] || sorted[0].id <= x.id {
      assert ([x] + sorted)[1..] == sorted;
    } else {
      var rest := Insert(x, sorted[1..]);
      InsertKeepsEqualIdOrder(x, sorted[1..], v);
      assert ([sorted[0]] + rest)[1..] == rest;
      if x.id == v {
        assert sorted[0].id != v;
      }
    }
  }

  /**
   * The sort is stable, as `Array.prototype.sort` must be: the rows of any
   * one id come out in the order they came in.
   */
  lemma {:induction false} SortKeepsEqualIdOrder(xs: seq<CategoryRow>, v: int)
    ensures Filter(SortByIdDesc(xs), (c: CategoryRow) => c.id == v) == Filter(xs, (c: CategoryRow) => c.id == v)
    decreases |xs|
  {
    if xs != [] {
      SortKeepsEqualIdOrder(xs[1..], v);
      InsertKeepsEqualIdOrder(xs[0], SortByIdDesc(xs[1..]), v);
    }
  }

  /** The search test over name, description and id. */
  predicate Matches(c: CategoryRow, needle: string) {
    Includes(ToLower(c.name), needle) || Includes(ToLower(c.description), needle) || Includes(IntToString(c.id), needle)
  }

  /** `onSearch`'s result. */
  function SearchCategories(categories: seq<CategoryRow>, term: string): (r: seq<CategoryRow>)
    ensures IsBlank(term) ==> r == categories
    ensures !IsBlank(term) ==> r == Filter(categories, (c: CategoryRow) => Matches(c, ToLower(term)))
    ensures IsSubsequence(r, categories)
    ensures forall c :: c in r <==> c in categories && (IsBlank(term) || Matches(c, ToLower(term)))
  {
    Search(categories, term, (c: CategoryRow) => Matches(c, ToLower(term)))
  }

  /** A search of the sorted list keeps it newest first. */
  lemma {:induction false} SubsequenceStaysSorted(r: seq<CategoryRow>, xs: seq<CategoryRow>)
    requires SortedByIdDesc(xs) && IsSubsequence(r, xs)
    ensures SortedByIdDesc(r)
    decreases |xs|
  {
    if r != [] {
      assert xs != [];
      if r[0] == xs[0] && IsSubsequence(r[1..], xs[1..]) {
        SubsequenceStaysSorted(r[1..], xs[1..]);
        SubsequenceElements(r[1..], xs[1..]);
        forall j | 0 < j < |r| ensures r[0].id >= r[j].id {
          assert r[j] == r[1..][j - 1];
          assert r[j] in xs[1..];
        }
      } else {
        SubsequenceStaysSorted(r, xs[1..]);
      }
    }
  }

  class CategoryList {
    var categories: seq<CategoryRow>
    var filteredCategories: seq<CategoryRow>
    var resultsLength: nat
    var recentCount: nat
    var activeCount: nat
    var searchTerm: string
    var isLoading: bool
    var loads: nat
    var alerts: seq<string>

    constructor ()
      ensures categories == [] && filteredCategories == [] && searchTerm == []
      ensures resultsLength == 0 && recentCount == 0 && activeCount == 0
      ensures !isLoading && loads == 0 && alerts == [] && Valid()
    {
      categories := [];
      filteredCategories := [];
      resultsLength := 0;
      recentCount := 0;
      activeCount := 0;
      searchTerm := [];
      isLoading := false;
      loads := 0;
      alerts := [];
    }

    /** The list is newest first and the shown list keeps that order. */
    ghost predicate Valid()
      reads this
    {
      SortedByIdDesc(categories) && SortedByIdDesc(filteredCategories)
    }

    /** `loadCategories` sends the request. */
    method LoadCategories()
      modifies this`isLoading, this`loads
      ensures isLoading && loads == old(loads) + 1
    {
      isLoading := true;
      loads := loads + 1;
    }

    /** The list arrived: sorted newest first, shown whole, and counted three times over. */
    method OnCategoriesLoaded(data: seq<CategoryRow>)
      modifies this`categories, this`filteredCategories, this`resultsLength, this`recentCount, this`activeCount, this`isLoading
      ensures categories == SortByIdDesc(data) && filteredCategories == categories
      ensures multiset(categories) == multiset(data) && Valid()
      ensures resultsLength == |data| && recentCount == |data| && activeCount == |data|
      ensures !isLoading
    {
      categories := SortByIdDesc(data);
      filteredCategories := categories;
      resultsLength := |data|;
      CalculateStats();
      isLoading := false;
    }

    /** The request failed: the error dialog opens. */
    method OnLoadError()
      modifies this`isLoading, this`alerts
      ensures !isLoading && alerts == old(alerts) + ["Error!"]
    {
      isLoading := false;
      alerts := alerts + ["Error!"];
    }

    /** The error dialog closed: "Retry" loads again, "Cancel" does nothing. */
    method OnErrorDialogClosed(retry: bool)
      modifies this`isLoading, this`loads
      ensures retry ==> isLoading && loads == old(loads) + 1
      ensures !retry ==> isLoading == old(isLoading) && loads == old(loads)
    {
      if retry {
        LoadCategories();
      }
    }

    /** `calculateStats`: every category counts as recent and as active. */
    method CalculateStats()
      modifies this`recentCount, this`activeCount
      ensures recentCount == |categories| && activeCount == |categories|
    {
      recentCount := |categories|;
      activeCount := |categories|;
    }

    method SetSearchTerm(term: string)
      modifies this`searchTerm
      ensures searchTerm == term
    {
      searchTerm := term;
    }

    /** `onSearch`: the result is a subsequence of the list, so still newest first. */
    method OnSearch()
      requires Valid()
      modifies this`filteredCategories
      ensures filteredCategories == SearchCategories(categories, searchTerm)
      ensures Valid()
    {
      filteredCategories := SearchCategories(categories, searchTerm);
      SubsequenceStaysSorted(filteredCategories, categories);
    }

    /** `clearSearch`: no term, and the whole list. */
    method ClearSearch()
      requires Valid()
      modifies this`searchTerm, this`filteredCategories
      ensures searchTerm == [] && filteredCategories == categories
      ensures Valid()
    {
      searchTerm := [];
      filteredCategories := categories;
    }
  }
}
