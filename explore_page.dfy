/** `ExplorePage`: creators filtered by category and by a search over name,
    username and bio, then sorted by the chosen option. */
module ExplorePage {
  import opened Js
  import opened Seqs
  import opened Catalog

  predicate CategoryMatches(category: string, c: Creator)
  {
    category == "All" || c.category == category
  }

  /** The search with `searchTerm.toLowerCase()` against the three lower-cased fields. */
  predicate SearchMatches(searchTerm: string, c: Creator)
  {
    var term := Lower(searchTerm);
    searchTerm == [] || Includes(Lower(c.name), term) || Includes(Lower(c.username), term) || Includes(Lower(c.bio), term)
  }

  /** The predicate of `filteredCreators`. */
  predicate CreatorKeeps(category: string, searchTerm: string, c: Creator)
  {
    CategoryMatches(category, c) && SearchMatches(searchTerm, c)
  }

  function CreatorKeepsFn(category: string, searchTerm: string): Creator -> bool
  {
    (c: Creator) => CreatorKeeps(category, searchTerm, c)
  }

  /** The key of the `switch`: 'trending' and any unknown option fall to the default. */
  function CreatorKey(sortBy: string): Creator -> real
  {
    (c: Creator) =>
      if sortBy == "followers" then c.followers as real
      else if sortBy == "price_high" || sortBy == "price_low" then c.tokenPrice
      else c.tokenChange
  }

  function CreatorDescending(sortBy: string): bool
  {
    sortBy != "price_low"
  }

  /** `filteredCreators`. */
  function FilteredCreators(creators: seq<Creator>, category: string, searchTerm: string, sortBy: string): seq<Creator>
  {
    SortBy(Filter(creators, CreatorKeepsFn(category, searchTerm)), CreatorKey(sortBy), CreatorDescending(sortBy))
  }

  /** 'All' and an empty search impose nothing; another category keeps exactly
      its own creators. */
  lemma FilterMeaning(category: string, c: Creator)
    ensures CreatorKeeps("All", "", c)
    ensures CreatorKeeps(category, "", c) <==> category == "All" || c.category == category
    ensures category != "All" ==> (CreatorKeeps(category, "", c) <==> c.category == category)
  {
  }

  /** A creator matches a search for its own name, username or bio. */
  lemma SearchFindsOwnFields(c: Creator)
    ensures SearchMatches(c.name, c) && SearchMatches(c.username, c) && SearchMatches(c.bio, c)
  {
    assert OccursAt(Lower(c.name), Lower(c.name), 0);
    IncludesAt(Lower(c.name), Lower(c.name));
    assert OccursAt(Lower(c.username), Lower(c.username), 0);
    IncludesAt(Lower(c.username), Lower(c.username));
    assert OccursAt(Lower(c.bio), Lower(c.bio), 0);
    IncludesAt(Lower(c.bio), Lower(c.bio));
  }

  /** A creator is listed exactly when it passes both filters, as often as it
      occurs in the catalogue: a permutation of a subset of the creators. */
  lemma FilteredCreatorsAreThePassingOnes(creators: seq<Creator>, category: string, searchTerm: string, sortBy: string)
    ensures forall c :: c in FilteredCreators(creators, category, searchTerm, sortBy) <==>
      c in creators && CreatorKeeps(category, searchTerm, c)
    ensures forall c :: (multiset(FilteredCreators(creators, category, searchTerm, sortBy))[c] ==
      if CreatorKeeps(category, searchTerm, c) then multiset(creators)[c] else 0)
  {
    var kept := Filter(creators, CreatorKeepsFn(category, searchTerm));
    var r := FilteredCreators(creators, category, searchTerm, sortBy);
    assert multiset(r) == multiset(kept);
    FilterMultiset(creators, CreatorKeepsFn(category, searchTerm));
    forall c ensures c in r <==> c in creators && CreatorKeeps(category, searchTerm, c) {
      assert c in r <==> c in multiset(r);
      assert c in kept <==> c in multiset(kept);
    }
  }

  /** The order of the list for each option; every option other than the three
      named ones orders by the token's change, from high to low. */
  lemma FilteredCreatorsOrder(creators: seq<Creator>, category: string, searchTerm: string, sortBy: string)
    ensures var r := FilteredCreators(creators, category, searchTerm, sortBy);
      && (sortBy == "followers" ==> forall i, j :: 0 <= i < j < |r| ==> r[i].followers >= r[j].followers)
      && (sortBy == "price_high" ==> forall i, j :: 0 <= i < j < |r| ==> r[i].tokenPrice >= r[j].tokenPrice)
      && (sortBy == "price_low" ==> forall i, j :: 0 <= i < j < |r| ==> r[i].tokenPrice <= r[j].tokenPrice)
      && (sortBy !in {"followers", "price_high", "price_low"} ==>
            forall i, j :: 0 <= i < j < |r| ==> r[i].tokenChange >= r[j].tokenChange)
  {
    var r := FilteredCreators(creators, category, searchTerm, sortBy);
    assert SortedBy(r, CreatorKey(sortBy), CreatorDescending(sortBy));
    forall i, j | 0 <= i < j < |r|
      ensures InOrder(CreatorKey(sortBy)(r[i]), CreatorKey(sortBy)(r[j]), CreatorDescending(sortBy))
    {
    }
  }

  /** 'trending' is the default branch: it lists exactly what an unknown option lists. */
  lemma TrendingIsDefault(creators: seq<Creator>, category: string, searchTerm: string, other: string)
    requires other !in {"followers", "price_high", "price_low"}
    ensures FilteredCreators(creators, category, searchTerm, other) == FilteredCreators(creators, category, searchTerm, "trending")
  {
    assert CreatorKey(other) == CreatorKey("trending");
  }
}
