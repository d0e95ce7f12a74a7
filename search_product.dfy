/**
 * The search results page (src/Pages/SearchProduct/SearchProduct.tsx): the query from the address,
 * the results once the simulated load finishes, a page-local cart counter and the chips of applied
 * filters. Filter values are kept as the text their chip shows.
 */
module SearchProduct {
  import opened Wrappers
  import opened Text
  import opened Catalogue
  import ProductSearch

  /** The no-results message: shown once loading is over, nothing matched and the query is not empty. */
  predicate NoResultsMessage(isLoading: bool, results: seq<Product>, query: string) {
    !isLoading && results == [] && |query| > 0
  }

  /** A query of spaces is not empty, so it gets the no-results message although nothing was searched. */
  lemma WhitespaceQueryShowsNoResults(catalogue: seq<Product>, query: string)
    requires query != [] && AllWhitespace(query)
    ensures NoResultsMessage(false, ProductSearch.SearchResults(catalogue, query), query)
  {
    ProductSearch.BlankQueryFindsNothing(catalogue, query);
  }

  /** The empty query shows neither results nor the message. */
  lemma EmptyQueryShowsNothing(catalogue: seq<Product>)
    ensures ProductSearch.SearchResults(catalogue, "") == []
    ensures !NoResultsMessage(false, ProductSearch.SearchResults(catalogue, ""), "")
  {
    ProductSearch.BlankQueryFindsNothing(catalogue, "");
  }

  class SearchPage {
    var searchQuery: string
    var cartCount: int
    var isLoading: bool
    var filteredProducts: seq<Product>
    var appliedFilters: map<string, string>

    constructor ()
      ensures cartCount == 3 && searchQuery == "" && isLoading && filteredProducts == [] && appliedFilters == map[]
    {
      searchQuery := "";
      cartCount := 3;
      isLoading := true;
      filteredProducts := [];
      appliedFilters := map[];
    }

    predicate NoResultsShown()
      reads this
    {
      NoResultsMessage(isLoading, filteredProducts, searchQuery)
    }

    /** The address effect: `params.get("q") || ""`, so a missing and an empty parameter both give
        the empty query. Only a query that differs from the current one re-runs the search effect
        and so starts loading again; the same query leaves the page as it is. */
    method SetQueryFromUrl(q: Option<string>)
      modifies this
      ensures searchQuery == (if q.Some? then q.value else "")
      ensures isLoading == (old(isLoading) || searchQuery != old(searchQuery))
      ensures filteredProducts == old(filteredProducts) && cartCount == old(cartCount) && appliedFilters == old(appliedFilters)
    {
      var query := if q.Some? && q.value != "" then q.value else "";
      if query != searchQuery {
        isLoading := true;
      }
      searchQuery := query;
    }

    /** The end of the simulated load: the results are the search of the current query. */
    method FinishLoading(catalogue: seq<Product>)
      modifies this
      ensures filteredProducts == ProductSearch.SearchResults(catalogue, searchQuery)
      ensures !isLoading
      ensures NoResultsShown() == NoResultsMessage(false, ProductSearch.SearchResults(catalogue, searchQuery), searchQuery)
      ensures searchQuery == old(searchQuery) && cartCount == old(cartCount) && appliedFilters == old(appliedFilters)
    {
      var query := searchQuery;
      var results := ProductSearch.SearchResults(catalogue, query);
      filteredProducts := results;
      isLoading := false;
    }

    /** The page's own add-to-cart: one more on its counter, nothing in the shared cart. */
    method HandleAddToCart(p: Product)
      modifies this
      ensures cartCount == old(cartCount) + 1
      ensures searchQuery == old(searchQuery) && isLoading == old(isLoading)
      ensures filteredProducts == old(filteredProducts) && appliedFilters == old(appliedFilters)
    {
      cartCount := cartCount + 1;
    }

    /** handleFiltersChange: the panel's filters replace the applied ones. */
    method HandleFiltersChange(filters: map<string, string>)
      modifies this
      ensures appliedFilters == filters
      ensures searchQuery == old(searchQuery) && cartCount == old(cartCount)
      ensures isLoading == old(isLoading) && filteredProducts == old(filteredProducts)
    {
      appliedFilters := filters;
    }

    /** A chip's close icon: copy the filters and delete that one key. */
    method RemoveFilter(key: string)
      modifies this
      ensures key !in appliedFilters
      ensures forall k :: k != key ==> (k in appliedFilters <==> k in old(appliedFilters))
      ensures forall k :: k in appliedFilters ==> appliedFilters[k] == old(appliedFilters)[k]
      ensures |appliedFilters| == (if key in old(appliedFilters) then |old(appliedFilters)| - 1 else |old(appliedFilters)|)
      ensures searchQuery == old(searchQuery) && cartCount == old(cartCount)
      ensures isLoading == old(isLoading) && filteredProducts == old(filteredProducts)
    {
      appliedFilters := appliedFilters - {key};
    }

    /** clearFilters. */
    method ClearFilters()
      modifies this
      ensures appliedFilters == map[]
      ensures searchQuery == old(searchQuery) && cartCount == old(cartCount)
      ensures isLoading == old(isLoading) && filteredProducts == old(filteredProducts)
    {
      appliedFilters := map[];
    }
  }
}
