/**
 * The product search predicate shared by the header's live results
 * (src/components/layout/Header.tsx) and the search results page
 * (src/Pages/SearchProduct/SearchProduct.tsx): a case-insensitive substring match on the name,
 * the category or the category card, run only for a query that is not blank.
 */
module ProductSearch {
  import opened Text
  import opened Seqs
  import opened Catalogue

  /** The filter callback. The query is lower-cased but not trimmed; an empty category card is
      skipped, as the `p.categoryCard &&` guard does. */
  predicate Matches(p: Product, query: string) {
    var q := Lower(query);
    Contains(Lower(p.name), q) || Contains(Lower(p.category), q)
    || (p.categoryCard != "" && Contains(Lower(p.categoryCard), q))
  }

  /** `query.trim() ? allProducts.filter(...) : []`. */
  function SearchResults(catalogue: seq<Product>, query: string): seq<Product> {
    if IsBlank(query) then [] else Filter(catalogue, (p: Product) => Matches(p, query))
  }

  /** A query made only of whitespace, the empty one included, finds nothing. */
  lemma BlankQueryFindsNothing(catalogue: seq<Product>, query: string)
    requires AllWhitespace(query)
    ensures SearchResults(catalogue, query) == []
  {
    BlankIffAllWhitespace(query);
  }

  /** For any other query the results are exactly the matching catalogue entries, each once per
      catalogue occurrence, in catalogue order. */
  lemma SearchResultsExact(catalogue: seq<Product>, query: string)
    requires !AllWhitespace(query)
    ensures forall p :: p in SearchResults(catalogue, query) <==> p in catalogue && Matches(p, query)
    ensures IsSubsequence(SearchResults(catalogue, query), catalogue)
    ensures NoDuplicates(catalogue) ==> NoDuplicates(SearchResults(catalogue, query))
  {
    BlankIffAllWhitespace(query);
    if NoDuplicates(catalogue) {
      FilterKeepsNoDuplicates(catalogue, (p: Product) => Matches(p, query));
    }
  }

  /** Case does not matter: a letter-for-letter lower-cased query finds the same products. */
  lemma {:induction false} LowerIdempotent(s: string)
    ensures Lower(Lower(s)) == Lower(s)
  {
    var once := Lower(s);
    var twice := Lower(once);
    forall i | 0 <= i < |s| ensures twice[i] == once[i] {
      assert once[i] == LowerChar(s[i]);
    }
  }

  lemma MatchesIgnoresQueryCase(p: Product, query: string)
    ensures Matches(p, Lower(query)) == Matches(p, query)
  {
    LowerIdempotent(query);
  }
}
