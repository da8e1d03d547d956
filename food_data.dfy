/**
 * The data layer: `FoodDataSourceImpl` (the asset reader with its cache and the search over the
 * cached list), `FoodRepositoryImpl` (drops blank entries) and `FoodListRepository` (forwards to
 * the repository). Each class method is specified by the pure function of the same layer.
 */
module FoodData {
  import opened Wrappers
  import opened Text
  import opened Lists
  import opened Cache

  /** The exceptions the data source reports through `Result.failure`. */
  datatype FoodError =
    | NotFetched   // IllegalStateException("Need to call getFood first")
    | ReadFailed   // IOException while reading the asset

  /** What reading the asset `food.txt` gives: its decoded text, or an I/O failure. */
  datatype Asset = Content(text: string) | Unreadable

  type FoodResult = Result<seq<string>, FoodError>

  /** The search predicate: the food name contains the query, ignoring case. */
  function Matches(query: string): string -> bool
  {
    food => ContainsIgnoreCase(food, query)
  }

  /** The repository's predicate: the entry is not blank. */
  function NotBlank(): string -> bool
  {
    food => !IsBlank(food)
  }

  /**
   * The outcome of `getFood` for a given asset, and the list it stores in the cache:
   * the text split on commas, where no piece holds a comma, there is one more piece than
   * there are commas, and joining the pieces with commas rebuilds the text.
   */
  function Fetched(asset: Asset): (r: FoodResult)
    ensures asset.Unreadable? ==> r == Failure(ReadFailed)
    ensures asset.Content? ==> r.Success?
    ensures r.Success? ==> Join(r.value, Comma) == asset.text
    ensures r.Success? ==> |r.value| == Count(asset.text, Comma) + 1
    ensures r.Success? ==> forall i :: 0 <= i < |r.value| ==> Comma !in r.value[i]
  {
    match asset
    case Unreadable => Failure(ReadFailed)
    case Content(text) =>
      JoinSplit(text, Comma);
      Success(Split(text, Comma))
  }

  /** The fetched list is the only comma-free list of pieces that joins back to the text. */
  lemma FetchedIsUnique(text: string, pieces: seq<string>)
    requires |pieces| >= 1
    requires forall i :: 0 <= i < |pieces| ==> Comma !in pieces[i]
    requires Join(pieces, Comma) == text
    ensures Fetched(Content(text)) == Success(pieces)
  {
    SplitJoin(pieces, Comma);
  }

  /**
   * The outcome of the data source's `search` for the given cache slot: a failure when
   * nothing has been fetched, otherwise the cached items containing the query (ignoring case),
   * in their cached order.
   */
  function SearchCached(data: Option<seq<string>>, query: string): (r: FoodResult)
    ensures r.Failure? <==> data.None?
    ensures r.Failure? ==> r.error == NotFetched
    ensures r.Success? ==> IsSubsequence(r.value, data.value)
    ensures r.Success? ==> forall x :: x in r.value ==> x in data.value && ContainsIgnoreCase(x, query)
    ensures r.Success? ==> forall x :: x in data.value && ContainsIgnoreCase(x, query) ==> x in r.value
  {
    match data
    case None => Failure(NotFetched)
    case Some(items) =>
      FilterIsSubsequence(items, Matches(query));
      Success(Filter(items, Matches(query)))
  }

  /** An empty query keeps every cached item. */
  lemma EmptySearchKeepsAll(items: seq<string>)
    ensures SearchCached(Some(items), "") == Success(items)
  {
    forall i | 0 <= i < |items|
      ensures Matches("")(items[i])
    {
      EmptyQueryContained(items[i]);
    }
    FilterKeepsAll(items, Matches(""));
  }

  /** `items.filter { it.isNotBlank() }`: the non-blank entries, in order. */
  function NonBlank(items: seq<string>): (r: seq<string>)
    ensures IsSubsequence(r, items)
    ensures forall x :: x in r ==> x in items && !IsBlank(x)
    ensures forall x :: x in items && !IsBlank(x) ==> x in r
  {
    FilterIsSubsequence(items, NotBlank());
    Filter(items, NotBlank())
  }

  /**
   * The repository's `map { list -> list.filter { it.isNotBlank() } }`: a failure passes
   * through unchanged; a success keeps exactly its non-blank entries, in order.
   */
  function WithoutBlanks(res: FoodResult): (r: FoodResult)
    ensures res.Failure? ==> r == res
    ensures r.Success? <==> res.Success?
    ensures r.Success? ==> IsSubsequence(r.value, res.value)
    ensures r.Success? ==> forall x :: x in r.value ==> x in res.value && !IsBlank(x)
    ensures r.Success? ==> forall x :: x in res.value && !IsBlank(x) ==> x in r.value
  {
    res.Map(NonBlank)
  }

  /**
   * Searching what was fetched from `text` and then dropping blanks is the same as
   * searching the list the view first shows, the non-blank pieces of `text`.
   */
  lemma {:induction false} SearchNarrowsFetched(text: string, query: string)
    ensures WithoutBlanks(SearchCached(Some(Split(text, Comma)), query))
         == Success(Filter(NonBlank(Split(text, Comma)), Matches(query)))
  {
    FilterCommutes(Split(text, Comma), Matches(query), NotBlank());
  }

  /** `FoodDataSourceImpl`: reads the asset into the cache and searches the cached list. */
  class FoodDataSource {
    const cache: InMemoryCache<seq<string>>

    constructor (cache: InMemoryCache<seq<string>>)
      ensures this.cache == cache
    {
      this.cache := cache;
    }

    /** `search(query)`: reads the cache and, if it holds a list, filters it; changes nothing. */
    method Search(query: string) returns (r: FoodResult)
      ensures r == SearchCached(cache.value, query)
    {
      var data := cache.Get();
      if data.None? {
        r := Failure(NotFetched);
      } else {
        r := Success(Filter(data.value, Matches(query)));
      }
    }

    /**
     * `getFood()`: on a readable asset, stores the split list in the cache and returns it;
     * on an I/O failure, returns the failure and leaves the cache as it was.
     */
    method GetFood(asset: Asset) returns (r: FoodResult)
      modifies cache
      ensures r == Fetched(asset)
      ensures cache.value == if r.Success? then Some(r.value) else old(cache.value)
    {
      match asset
      case Unreadable =>
        r := Failure(ReadFailed);
      case Content(text) =>
        var data := Split(text, Comma);
        cache.Set(Some(data));
        r := Success(data);
    }
  }

  /** `FoodRepositoryImpl`: the data source's answers with blank entries removed. */
  class FoodRepository {
    const dataSource: FoodDataSource

    constructor (dataSource: FoodDataSource)
      ensures this.dataSource == dataSource
    {
      this.dataSource := dataSource;
    }

    method Search(query: string) returns (r: FoodResult)
      ensures r == WithoutBlanks(SearchCached(dataSource.cache.value, query))
    {
      var found := dataSource.Search(query);
      r := found.Map(NonBlank);
    }

    method GetFood(asset: Asset) returns (r: FoodResult)
      modifies dataSource.cache
      ensures r == WithoutBlanks(Fetched(asset))
      ensures dataSource.cache.value == if asset.Content? then Some(Fetched(asset).value) else old(dataSource.cache.value)
    {
      var fetched := dataSource.GetFood(asset);
      r := fetched.Map(NonBlank);
    }
  }

  /** `FoodListRepository`: the view-model's repository, forwarding to `FoodRepository`. */
  class FoodListRepository {
    const foodRepository: FoodRepository

    constructor (foodRepository: FoodRepository)
      ensures this.foodRepository == foodRepository
    {
      this.foodRepository := foodRepository;
    }

    /** The cache slot at the bottom of the chain. */
    function Cached(): Option<seq<string>>
      reads foodRepository.dataSource.cache
    {
      foodRepository.dataSource.cache.value
    }

    /** The single emission of the `foodData` flow: one `getFood()` of the repository. */
    method FoodData(asset: Asset) returns (r: FoodResult)
      modifies foodRepository.dataSource.cache
      ensures r == WithoutBlanks(Fetched(asset))
      ensures Cached() == if asset.Content? then Some(Fetched(asset).value) else old(Cached())
    {
      r := foodRepository.GetFood(asset);
    }

    /** `onSearch(query)`: the repository's search. */
    method OnSearch(query: string) returns (r: FoodResult)
      ensures r == WithoutBlanks(SearchCached(Cached(), query))
    {
      r := foodRepository.Search(query);
    }
  }

  /**
   * Searching before any fetch fails and leaves the cache empty; after a fetch, a search
   * filters exactly the list that fetch stored.
   */
  method FetchThenSearch(asset: Asset, query: string) returns (before: FoodResult, after: FoodResult)
    ensures before == Failure(NotFetched)
    ensures asset.Unreadable? ==> after == Failure(NotFetched)
    ensures asset.Content? ==> after == SearchCached(Some(Split(asset.text, Comma)), query)
  {
    var cache := new InMemoryCache<seq<string>>();
    var source := new FoodDataSource(cache);
    before := source.Search(query);
    assert cache.value == None;
    var _ := source.GetFood(asset);
    after := source.Search(query);
  }
}
