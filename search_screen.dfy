/** The search screen (`src/screens/SearchScreen.tsx`): the query box, its results, and
    a most-recent-first list of at most five earlier searches. The debounce timer is
    gone: a search runs its delayed part at once. */
module Search {
  import opened Common
  import opened Types
  import opened Catalogue

  /** The recent searches the screen loads when it mounts. */
  const InitialRecentSearches: seq<string> := ["سیب", "شیر", "نان", "برنج"]

  const MaxRecent: nat := 5

  /** The recent list after a search for the (trimmed) `term`: unchanged when the term
      is already there, else the term in front of the first four old entries. */
  function UpdateRecent(recent: seq<string>, term: string): (r: seq<string>)
    ensures term in r
    ensures term in recent ==> r == recent
    ensures term !in recent ==> |r| == 1 + Min(MaxRecent - 1, |recent|) && r[0] == term && r[1..] == recent[..|r| - 1]
    ensures |recent| <= MaxRecent ==> |r| <= MaxRecent
    ensures NoDuplicates(recent) ==> NoDuplicates(r)
  {
    if term in recent then recent
    else
      var r := [term] + recent[..Min(MaxRecent - 1, |recent|)];
      assert r[1..] == recent[..|r| - 1];
      assert forall k :: 1 <= k < |r| ==> r[k] == recent[k - 1];
      r
  }

  /** A query is blank for the screen (`query.trim()`) exactly when it is blank for the
      store (`query.toLowerCase().trim()`): lowering never makes or unmakes white space. */
  lemma BlankAgreesWithStore(query: string)
    ensures (Trim(query) == []) == (SearchTerm(query) == [])
  {
    var lowered := Lower(query);
    assert forall k :: 0 <= k < |query| ==> (IsSpace(lowered[k]) <==> IsSpace(query[k]));
  }

  /** A stored search term: not blank, and with no white space left to trim. */
  predicate IsStoredTerm(term: string) {
    term != [] && Trim(term) == term
  }

  /** Trimming a second time changes nothing, so a trimmed query is a stored term. */
  lemma TrimIdempotent(s: string)
    ensures Trim(Trim(s)) == Trim(s)
  {
    var r := Trim(s);
    assert r[0..|r|] == r;
  }

  /** Text without any white space is already trimmed. */
  lemma TrimWithoutSpaces(s: string)
    requires forall k :: 0 <= k < |s| ==> !IsSpace(s[k])
    ensures Trim(s) == s
  {
    assert s[0..|s|] == s;
  }

  /** Every entry of the list is a stored term. */
  ghost predicate AllStored(recent: seq<string>) {
    forall k :: 0 <= k < |recent| ==> IsStoredTerm(recent[k])
  }

  /** Recording a stored term keeps every entry a stored term. */
  lemma UpdateRecentKeepsStored(recent: seq<string>, term: string)
    requires AllStored(recent) && IsStoredTerm(term)
    ensures AllStored(UpdateRecent(recent, term))
  {
    var r := UpdateRecent(recent, term);
    if term !in recent {
      assert forall k :: 1 <= k < |r| ==> r[k] == recent[k - 1];
    }
  }

  /** The recent searches loaded on mount are stored terms. */
  lemma InitialRecentAreStored()
    ensures AllStored(InitialRecentSearches)
  {
    forall k | 0 <= k < |InitialRecentSearches|
      ensures IsStoredTerm(InitialRecentSearches[k])
    {
      TrimWithoutSpaces(InitialRecentSearches[k]);
    }
  }

  class SearchState {
    var searchQuery: string
    var searchResults: seq<Product>
    var recentSearches: seq<string>
    var isSearching: bool

    /** Between events: no search is pending, and the recent list is short, free of
        duplicates and holds only trimmed, non-blank terms (a search records
        `query.trim()` and only when it is not empty). */
    ghost predicate Valid()
      reads this
    {
      && !isSearching && |recentSearches| <= MaxRecent && NoDuplicates(recentSearches)
      && AllStored(recentSearches)
    }

    /** The state once the screen has mounted and loaded its recent searches. */
    constructor ()
      ensures Valid()
      ensures searchQuery == [] && searchResults == [] && recentSearches == InitialRecentSearches
    {
      searchQuery, searchResults, isSearching := [], [], false;
      recentSearches := InitialRecentSearches;
      InitialRecentAreStored();
    }

    /** `handleSearch` together with the body of its timer. */
    method HandleSearch(query: string, products: seq<Product>)
      requires Valid()
      modifies this
      ensures Valid()
      ensures searchQuery == query
      ensures Trim(query) == [] ==> searchResults == [] && recentSearches == old(recentSearches)
      ensures Trim(query) != [] ==>
        && searchResults == SearchProducts(products, query)
        && recentSearches == UpdateRecent(old(recentSearches), Trim(query))
      ensures Trim(query) != [] ==> forall p :: p in searchResults <==> p in products && MatchesTerm(p, SearchTerm(query))
    {
      searchQuery := query;
      var term := Trim(query);
      if |term| > 0 {
        TrimIdempotent(query);
        UpdateRecentKeepsStored(recentSearches, term);
        isSearching := true;
        var results := SearchProducts(products, query);
        searchResults, isSearching := results, false;
        recentSearches := UpdateRecent(recentSearches, term);
        BlankAgreesWithStore(query);
      } else {
        searchResults, isSearching := [], false;
      }
    }

    /** `handleRecentSearchPress`: searching again for a term. The screen passes a term
        from the recent list; such a term is already trimmed and already in the list, so
        the store's search runs for it and the list stays as it is. */
    method HandleRecentSearchPress(search: string, products: seq<Product>)
      requires Valid()
      modifies this
      ensures Valid()
      ensures searchQuery == search
      ensures Trim(search) != [] ==> searchResults == SearchProducts(products, search)
      ensures search in old(recentSearches) && Trim(search) == search ==> recentSearches == old(recentSearches)
      ensures search in old(recentSearches) ==>
        && searchResults == SearchProducts(products, search)
        && recentSearches == old(recentSearches)
    {
      searchQuery := search;
      HandleSearch(search, products);
    }

    method ClearSearch()
      requires Valid()
      modifies this
      ensures Valid()
      ensures searchQuery == [] && searchResults == []
      ensures recentSearches == old(recentSearches) && isSearching == old(isSearching)
    {
      searchQuery, searchResults := [], [];
    }

    method ClearRecentSearches()
      requires Valid()
      modifies this
      ensures Valid()
      ensures recentSearches == []
      ensures searchQuery == old(searchQuery) && searchResults == old(searchResults)
      ensures isSearching == old(isSearching)
    {
      recentSearches := [];
    }
  }
}
