/** `MarketplacePage`: content items joined with their creators, the four
    filters (category, selected types, price range, title search), the sort
    orders, and the type toggle. */
module MarketplacePage {
  import opened Js
  import opened Seqs
  import opened Catalog

  /** A content item with the name, avatar and username of its creator. */
  datatype MarketItem = MarketItem(content: Content, creatorName: string, creatorAvatar: string, creatorUsername: string)

  /** One entry of `marketItems`: the creator fields come from the first
      creator whose id is the item's `creatorId`, and are '' when there is none. */
  function JoinOne(c: Content, creators: seq<Creator>): (m: MarketItem)
    ensures m.content == c
    ensures (forall k :: 0 <= k < |creators| ==> creators[k].id != c.creatorId) ==>
      m.creatorName == "" && m.creatorAvatar == "" && m.creatorUsername == ""
    ensures forall k :: FirstCreatorAt(creators, c.creatorId, k) ==>
      m.creatorName == creators[k].name && m.creatorAvatar == creators[k].avatar && m.creatorUsername == creators[k].username
  {
    var found := FindCreator(creators, c.creatorId);
    if found.Some? then MarketItem(c, found.value.name, found.value.avatar, found.value.username)
    else MarketItem(c, "", "", "")
  }

  /** `marketItems`: one entry per content item, in catalogue order. */
  function MarketItems(contents: seq<Content>, creators: seq<Creator>): (r: seq<MarketItem>)
    ensures |r| == |contents|
    ensures forall i :: 0 <= i < |r| ==> r[i] == JoinOne(contents[i], creators)
  {
    seq(|contents|, i requires 0 <= i < |contents| => JoinOne(contents[i], creators))
  }

  // ---------------------------------------------------------------------------
  // Filters

  /** The filter state: the category tab, the checked types, the price bounds
      as `parseFloat` left them, and the search text. */
  datatype Filters = Filters(category: string, selectedTypes: seq<string>, minPrice: JsNumber, maxPrice: JsNumber, searchTerm: string)

  /** The filters the page starts with. */
  const DefaultFilters := Filters("All", [], Num(0.0), Num(1.0), "")

  predicate CategoryKeeps(category: string, kind: string)
  {
    if category != "All" then
      && (category == "NFTs" ==> kind == "nft")
      && (category == "Content Tokens" ==> kind == "token")
      && (category == "Creator Tokens" ==> kind == "creator_token")
    else true
  }

  predicate TypeKeeps(selectedTypes: seq<string>, kind: string)
  {
    |selectedTypes| == 0 || kind in selectedTypes
  }

  /** `!(price < min || price > max)`: a comparison with NaN is false, so a NaN
      bound keeps everything on its side. */
  predicate PriceKeeps(minPrice: JsNumber, maxPrice: JsNumber, price: real)
  {
    !((minPrice.Num? && price < minPrice.value) || (maxPrice.Num? && price > maxPrice.value))
  }

  predicate SearchKeeps(searchTerm: string, title: string)
  {
    searchTerm == [] || Includes(Lower(title), Lower(searchTerm))
  }

  /** The predicate of `filteredItems`. */
  predicate Keeps(f: Filters, m: MarketItem)
  {
    && CategoryKeeps(f.category, m.content.kind)
    && TypeKeeps(f.selectedTypes, m.content.kind)
    && PriceKeeps(f.minPrice, f.maxPrice, m.content.price)
    && SearchKeeps(f.searchTerm, m.content.title)
  }

  function KeepsFn(f: Filters): MarketItem -> bool
  {
    (m: MarketItem) => Keeps(f, m)
  }

  /** Each category tab keeps exactly its own type; 'All' and any other name keep every type. */
  lemma CategoryMeaning(kind: string)
    ensures CategoryKeeps("All", kind)
    ensures CategoryKeeps("NFTs", kind) <==> kind == "nft"
    ensures CategoryKeeps("Content Tokens", kind) <==> kind == "token"
    ensures CategoryKeeps("Creator Tokens", kind) <==> kind == "creator_token"
    ensures forall c :: c !in {"NFTs", "Content Tokens", "Creator Tokens"} ==> CategoryKeeps(c, kind)
  {
  }

  /** An empty type list keeps every type; a non-empty one keeps exactly its members. */
  lemma TypeMeaning(selectedTypes: seq<string>, kind: string)
    ensures TypeKeeps([], kind)
    ensures selectedTypes != [] ==> (TypeKeeps(selectedTypes, kind) <==> kind in selectedTypes)
  {
  }

  /** With both bounds numbers the price range is inclusive at both ends; a NaN
      bound imposes nothing. */
  lemma PriceMeaning(lo: real, hi: real, price: real)
    ensures PriceKeeps(Num(lo), Num(hi), price) <==> lo <= price <= hi
    ensures PriceKeeps(NaN, Num(hi), price) <==> price <= hi
    ensures PriceKeeps(Num(lo), NaN, price) <==> lo <= price
    ensures PriceKeeps(NaN, NaN, price)
  {
  }

  /** An empty search keeps every title, and any title keeps the search for itself. */
  lemma SearchMeaning(title: string)
    ensures SearchKeeps("", title)
    ensures SearchKeeps(title, title)
  {
    assert OccursAt(Lower(title), Lower(title), 0);
    IncludesAt(Lower(title), Lower(title));
  }

  /** The page's initial filters keep exactly the items priced from 0 to 1 ETH. */
  lemma DefaultFiltersKeep(m: MarketItem)
    ensures Keeps(DefaultFilters, m) <==> 0.0 <= m.content.price <= 1.0
  {
  }

  // ---------------------------------------------------------------------------
  // Sorting

  /** The key each sort option compares; an unknown option compares nothing. */
  function MarketKey(sortBy: string): MarketItem -> real
  {
    (m: MarketItem) =>
      if sortBy == "trending" then m.content.likes as real
      else if sortBy == "price_high" || sortBy == "price_low" then m.content.price
      else if sortBy == "newest" then m.content.createdAt as real
      else 0.0
  }

  /** Every option sorts from high to low except 'price_low'. */
  function Descending(sortBy: string): bool
  {
    sortBy != "price_low"
  }

  /** `filteredItems`: the items that pass every filter, in the order of the sort option. */
  function FilteredItems(items: seq<MarketItem>, f: Filters, sortBy: string): seq<MarketItem>
  {
    SortBy(Filter(items, KeepsFn(f)), MarketKey(sortBy), Descending(sortBy))
  }

  /** An item is shown exactly when it passes all four filters, and it is shown
      as often as it occurs among the items: the result is a permutation of the
      passing items. */
  lemma FilteredItemsAreThePassingOnes(items: seq<MarketItem>, f: Filters, sortBy: string)
    ensures forall m :: m in FilteredItems(items, f, sortBy) <==> m in items && Keeps(f, m)
    ensures forall m :: multiset(FilteredItems(items, f, sortBy))[m] == if Keeps(f, m) then multiset(items)[m] else 0
  {
    var kept := Filter(items, KeepsFn(f));
    var r := FilteredItems(items, f, sortBy);
    assert multiset(r) == multiset(kept);
    FilterMultiset(items, KeepsFn(f));
    forall m ensures m in r <==> m in items && Keeps(f, m) {
      assert m in r <==> m in multiset(r);
      assert m in kept <==> m in multiset(kept);
    }
  }

  /** Each sort option orders the shown items by its key. */
  lemma FilteredItemsOrder(items: seq<MarketItem>, f: Filters, sortBy: string)
    ensures var r := FilteredItems(items, f, sortBy);
      && (sortBy == "trending" ==> forall i, j :: 0 <= i < j < |r| ==> r[i].content.likes >= r[j].content.likes)
      && (sortBy == "price_high" ==> forall i, j :: 0 <= i < j < |r| ==> r[i].content.price >= r[j].content.price)
      && (sortBy == "price_low" ==> forall i, j :: 0 <= i < j < |r| ==> r[i].content.price <= r[j].content.price)
      && (sortBy == "newest" ==> forall i, j :: 0 <= i < j < |r| ==> r[i].content.createdAt >= r[j].content.createdAt)
  {
    var r := FilteredItems(items, f, sortBy);
    assert SortedBy(r, MarketKey(sortBy), Descending(sortBy));
    forall i, j | 0 <= i < j < |r|
      ensures InOrder(MarketKey(sortBy)(r[i]), MarketKey(sortBy)(r[j]), Descending(sortBy))
    {
    }
  }

  /** With an option that is none of the four, the comparator returns 0 and the
      passing items keep their catalogue order. */
  lemma UnknownSortKeepsOrder(items: seq<MarketItem>, f: Filters, sortBy: string)
    requires sortBy !in {"trending", "price_high", "price_low", "newest"}
    ensures FilteredItems(items, f, sortBy) == Filter(items, KeepsFn(f))
  {
    SortByUniformKey(Filter(items, KeepsFn(f)), MarketKey(sortBy), Descending(sortBy));
  }

  // ---------------------------------------------------------------------------
  // The type toggle

  function IsNot(t: string): string -> bool
  {
    (u: string) => u != t
  }

  /** `handleTypeToggle(type)` on the previous selection: drop it when present, append it otherwise. */
  function Toggle(selected: seq<string>, t: string): (r: seq<string>)
    ensures forall u :: u in r <==> if u == t then t !in selected else u in selected
    ensures t !in selected ==> r == selected + [t]
  {
    if t in selected then Filter(selected, IsNot(t)) else selected + [t]
  }

  /** Toggling twice restores the membership of every type; from a selection
      without the type it restores the selection itself, and from one with it
      the type moves to the end. */
  lemma ToggleTwice(selected: seq<string>, t: string)
    ensures forall u :: u in Toggle(Toggle(selected, t), t) <==> u in selected
    ensures t !in selected ==> Toggle(Toggle(selected, t), t) == selected
    ensures t in selected ==> Toggle(Toggle(selected, t), t) == Filter(selected, IsNot(t)) + [t]
  {
    if t !in selected {
      FilterConcat(selected, [t], IsNot(t));
      FilterAllPass(selected, IsNot(t));
      assert Filter([t], IsNot(t)) == [];
    }
  }

  /** The page's filter and sort state. */
  class Marketplace {
    var searchTerm: string
    var activeCategory: string
    var sortBy: string
    var minPrice: JsNumber
    var maxPrice: JsNumber
    var selectedTypes: seq<string>

    function CurrentFilters(): Filters
      reads this
    {
      Filters(activeCategory, selectedTypes, minPrice, maxPrice, searchTerm)
    }

    /** The items the page lists. */
    function Shown(items: seq<MarketItem>): seq<MarketItem>
      reads this
    {
      FilteredItems(items, CurrentFilters(), sortBy)
    }

    constructor ()
      ensures CurrentFilters() == DefaultFilters && sortBy == "trending"
    {
      searchTerm := "";
      activeCategory := "All";
      sortBy := "trending";
      minPrice := Num(0.0);
      maxPrice := Num(1.0);
      selectedTypes := [];
    }

    /** A type checkbox. */
    method HandleTypeToggle(t: string)
      modifies this
      ensures CurrentFilters() == old(CurrentFilters()).(selectedTypes := Toggle(old(selectedTypes), t))
      ensures sortBy == old(sortBy)
    {
      if t in selectedTypes {
        selectedTypes := Filter(selectedTypes, IsNot(t));
      } else {
        selectedTypes := selectedTypes + [t];
      }
    }

    /** The minimum price input, given what `parseFloat` made of its text; the maximum is kept. */
    method SetMinPrice(parsed: JsNumber)
      modifies this
      ensures CurrentFilters() == old(CurrentFilters()).(minPrice := parsed)
      ensures sortBy == old(sortBy)
    {
      minPrice := parsed;
    }

    /** The maximum price input; the minimum is kept. */
    method SetMaxPrice(parsed: JsNumber)
      modifies this
      ensures CurrentFilters() == old(CurrentFilters()).(maxPrice := parsed)
      ensures sortBy == old(sortBy)
    {
      maxPrice := parsed;
    }

    /** A category tab. */
    method SetCategory(category: string)
      modifies this
      ensures CurrentFilters() == old(CurrentFilters()).(category := category)
      ensures sortBy == old(sortBy)
    {
      activeCategory := category;
    }

    /** The search box. */
    method SetSearchTerm(term: string)
      modifies this
      ensures CurrentFilters() == old(CurrentFilters()).(searchTerm := term)
      ensures sortBy == old(sortBy)
    {
      searchTerm := term;
    }

    /** The sort select: only the order of the list changes, never its contents. */
    method SetSortBy(option: string)
      modifies this
      ensures CurrentFilters() == old(CurrentFilters()) && sortBy == option
    {
      sortBy := option;
    }
  }
}
