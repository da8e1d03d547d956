/**
 * `FoodListViewModel`: the observable state of the food list screen and the events that
 * change it. Each event runs to completion before the next one starts.
 */
module FoodList {
  import opened Wrappers
  import opened Text
  import opened Lists
  import opened FoodData

  /** `FoodListContract.Error`: the two error tags the screen shows. */
  datatype UiError = FetchingData | Searching

  class FoodListViewModel {
    const repository: FoodListRepository

    /** The replayed value of the `foodData` shared flow (replay = 1): the original data. */
    var foodData: Option<seq<string>>
    /** The last list `distinctUntilChanged` let through to `foodItems`. */
    var delivered: Option<seq<string>>
    /** The `foodItems` live data; None while it has no value. */
    var foodItems: Option<seq<string>>
    /** The `error` live data; None while it has no value. */
    var error: Option<UiError>

    /**
     * Every emission of the shared flow reaches `distinctUntilChanged`, so the last value it
     * saw is the replayed one; once original data exists, the list has a value.
     */
    ghost predicate Valid()
      reads this
    {
      && delivered == foodData
      && (foodData.Some? ==> foodItems.Some?)
    }

    /** A new view-model: nothing fetched, nothing shown, no error. */
    constructor (repository: FoodListRepository)
      ensures Valid()
      ensures this.repository == repository
      ensures foodData == None && foodItems == None && error == None
    {
      this.repository := repository;
      foodData := None;
      delivered := None;
      foodItems := None;
      error := None;
    }

    /**
     * A result of the repository's `foodData` flow arrives. A failure sets the FetchingData
     * error and touches nothing else. A success becomes the original data, and it replaces
     * `foodItems` only when it differs from the last list delivered.
     */
    method OnFetchResult(result: FoodResult)
      requires Valid()
      modifies this
      ensures Valid()
      ensures result.Failure? ==>
        error == Some(FetchingData) && foodItems == old(foodItems) && foodData == old(foodData)
      ensures result.Success? ==>
        && foodData == Some(result.value)
        && error == old(error)
        && foodItems == (if old(delivered) == Some(result.value) then old(foodItems) else Some(result.value))
    {
      match result
      case Failure(_) =>
        error := Some(FetchingData);
      case Success(items) =>
        foodData := Some(items);
        if delivered != Some(items) {
          delivered := Some(items);
          foodItems := Some(items);
        }
    }

    /** The `init` block: collect the repository's `foodData` flow, which fetches once. */
    method Start(asset: Asset)
      requires Valid()
      modifies this, repository.foodRepository.dataSource.cache
      ensures Valid()
      ensures repository.Cached() == if asset.Content? then Some(Split(asset.text, Comma)) else old(repository.Cached())
      ensures asset.Unreadable? ==>
        error == Some(FetchingData) && foodItems == old(foodItems) && foodData == old(foodData)
      ensures asset.Content? ==>
        var items := NonBlank(Split(asset.text, Comma));
        && foodData == Some(items)
        && error == old(error)
        && foodItems == (if old(foodData) == Some(items) then old(foodItems) else Some(items))
    {
      var result := repository.FoodData(asset);
      OnFetchResult(result);
    }

    /**
     * `onSearch(query)`. A blank query shows the original data again, or sets the Searching
     * error when there is none. Any other query asks the repository: a success replaces the
     * list, a failure sets the Searching error and keeps the list.
     */
    method OnSearch(query: string)
      requires Valid()
      modifies this
      ensures Valid()
      ensures foodData == old(foodData) && delivered == old(delivered)
      ensures IsBlank(query) && old(foodData).Some? ==>
        foodItems == old(foodData) && error == old(error)
      ensures IsBlank(query) && old(foodData).None? ==>
        foodItems == old(foodItems) && error == Some(Searching)
      ensures !IsBlank(query) ==>
        var answer := WithoutBlanks(SearchCached(repository.Cached(), query));
        && (answer.Success? ==> foodItems == Some(answer.value) && error == old(error))
        && (answer.Failure? ==> foodItems == old(foodItems) && error == Some(Searching))
    {
      if IsBlank(query) {
        var originalData := foodData;
        if originalData.Some? {
          foodItems := originalData;
        } else {
          error := Some(Searching);
        }
      } else {
        var answer := repository.OnSearch(query);
        match answer
        case Success(items) =>
          foodItems := Some(items);
        case Failure(_) =>
          error := Some(Searching);
      }
    }
  }

  /** The chain the dependency-injection modules build: cache, data source, repositories, view-model. */
  method NewScreen() returns (vm: FoodListViewModel)
    ensures fresh(vm) && fresh(vm.repository.foodRepository.dataSource.cache)
    ensures vm.Valid() && vm.repository.Cached() == None
    ensures vm.foodData == None && vm.foodItems == None && vm.error == None
  {
    var cache := new Cache.InMemoryCache<seq<string>>();
    var source := new FoodDataSource(cache);
    var foodRepository := new FoodRepository(source);
    var repository := new FoodListRepository(foodRepository);
    vm := new FoodListViewModel(repository);
  }

  /**
   * The screen's life: after loading the asset the list shows its non-blank entries, a
   * non-blank query narrows that list to the matching items, and a blank query shows the
   * loaded list again.
   */
  method LoadSearchClear(text: string, query: string, blank: string)
    returns (loaded: Option<seq<string>>, searched: Option<seq<string>>, cleared: Option<seq<string>>)
    requires !IsBlank(query) && IsBlank(blank)
    ensures loaded == Some(NonBlank(Split(text, Comma)))
    ensures searched == Some(Filter(NonBlank(Split(text, Comma)), Matches(query)))
    ensures cleared == loaded
  {
    var vm := NewScreen();
    vm.Start(Content(text));
    loaded := vm.foodItems;
    vm.OnSearch(query);
    SearchNarrowsFetched(text, query);
    searched := vm.foodItems;
    vm.OnSearch(blank);
    cleared := vm.foodItems;
  }

  /**
   * When the fetch fails, the FetchingData error is set and nothing is shown; a search after
   * it reports the Searching error and still shows nothing.
   */
  method SearchAfterFailedFetch(query: string)
    returns (fetchError: Option<UiError>, items: Option<seq<string>>, searchError: Option<UiError>)
    ensures fetchError == Some(FetchingData)
    ensures items == None && searchError == Some(Searching)
  {
    var vm := NewScreen();
    vm.Start(Unreadable);
    fetchError := vm.error;
    vm.OnSearch(query);
    items := vm.foodItems;
    searchError := vm.error;
  }

  /**
   * `distinctUntilChanged` remembers only what the flow delivered, not what a search showed:
   * when the same original list arrives again after a search, the narrowed list stays.
   * The app never produces this sequence, since its `foodData` flow emits once and is
   * collected once; the scenario only exercises the operator.
   */
  method RefetchAfterSearch(text: string, query: string) returns (shown: Option<seq<string>>)
    requires !IsBlank(query)
    ensures shown == Some(Filter(NonBlank(Split(text, Comma)), Matches(query)))
  {
    var vm := NewScreen();
    vm.Start(Content(text));
    vm.OnSearch(query);
    SearchNarrowsFetched(text, query);
    vm.OnFetchResult(Success(NonBlank(Split(text, Comma))));
    shown := vm.foodItems;
  }
}
