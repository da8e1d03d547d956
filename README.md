# Food list data layer — a Dafny model

This project models the data layer of a small Android sample app. It lists food names read from
a bundled comma-separated text asset `food.txt` and lets the user search them. The layer has
four parts, all in `app/src/main/java/com/example/myapplication/FirstFragment.kt`:

- `InMemoryCache<T>`: one mutable slot with `get`, `set` and `clear`. It is the class
  `Cache.InMemoryCache`, with an `Option` field for the nullable slot.
- `FoodDataSourceImpl`: `getFood` splits the asset text on `","` and stores the list in the
  cache. `search` fails before any fetch; otherwise it keeps the cached items that contain the
  query, ignoring case. It is the class `FoodData.FoodDataSource`.
- `FoodRepositoryImpl`: drops blank entries from every successful answer of the data source.
  It is `FoodData.FoodRepository`. `FoodListRepository` only forwards to it, and is
  `FoodData.FoodListRepository`.
- `FoodListViewModel`: a small state machine. Its state is the replayed original data, the last
  value seen by `distinctUntilChanged`, the `foodItems` list and the `error` tag. It is the class
  `FoodList.FoodListViewModel`. Its events are a fetch result arriving (`OnFetchResult`, and
  `Start` for the `init` block that fetches once) and `OnSearch`.

The list logic is pure. `Text` holds `split` and `joinToString`, ignore-case `indexOf` and
`contains`, and `isBlank`. `Lists` holds a generic `Filter` and the subsequence relation.
Each class method is proved against the pure function of its layer. Each pure function is
proved against an independent statement of what it means: the split/join round trip, membership
in both directions, order as a subsequence, and element counts.

The asset is an input. `FoodData.Asset` is either the decoded text (`Content`) or an I/O
failure (`Unreadable`).

The cache holds the raw split list (FirstFragment.kt:226-227). Blanks are removed by the
repository on every answer (253, 257). `FoodData.SearchNarrowsFetched` shows that the order of
the two filters does not change what a search returns.

## Model

| member | source | states |
|---|---|---|
| `Text.Split` | app/src/main/java/com/example/myapplication/FirstFragment.kt:226 | splitting on a one-character delimiter gives one more piece than there are delimiters, and no piece contains the delimiter |
| `Text.JoinSplit` | app/src/main/java/com/example/myapplication/FirstFragment.kt:226 | joining the pieces of a split with the delimiter rebuilds the original text |
| `Text.SplitJoin` | app/src/main/java/com/example/myapplication/FirstFragment.kt:226 | splitting a join of delimiter-free pieces gives back those pieces, so split and join are inverses |
| `Text.IndexOfIgnoreCase` | app/src/main/java/com/example/myapplication/FirstFragment.kt:211 | the result is -1 exactly when no offset at or after `from` matches ignoring case; otherwise it is the first such offset |
| `Text.ContainsIgnoreCase` | app/src/main/java/com/example/myapplication/FirstFragment.kt:211 | `contains(query, ignoreCase = true)` holds exactly when some offset of the string matches the query character by character, ignoring case |
| `Text.EqualsIgnoreCase` | app/src/main/java/com/example/myapplication/FirstFragment.kt:211 | the per-character rule of an ignore-case match: the characters are equal, or equal once upper-cased, or equal once upper-cased and then lower-cased |
| `Text.RegionMatches` | app/src/main/java/com/example/myapplication/FirstFragment.kt:211 | the query fits in the string at the offset, and each of its characters equals the string's character there under `EqualsIgnoreCase` |
| `Text.IsWhitespace` | app/src/main/java/com/example/myapplication/FirstFragment.kt:253 | a character is whitespace when it is U+0009..U+000D, U+001C..U+001F, or in the Unicode categories Zs, Zl or Zp (space, U+00A0, U+1680, U+2000..U+200A, U+2028, U+2029, U+202F, U+205F, U+3000) |
| `Text.IsBlank` | app/src/main/java/com/example/myapplication/FirstFragment.kt:323 | a string is blank when every character is whitespace, so the empty string is blank |
| `Text.BlankConcat` | app/src/main/java/com/example/myapplication/FirstFragment.kt:253 | a concatenation is blank exactly when both parts are blank |
| `Text.NameCharactersNotWhitespace` | app/src/main/java/com/example/myapplication/FirstFragment.kt:253 | letters, digits and the comma are not whitespace, so a string holding one of them is not blank |
| `Text.EmptyQueryContained` | app/src/main/java/com/example/myapplication/FirstFragment.kt:211 | every string contains the empty query |
| `Text.ExactOccurrenceContained` | app/src/main/java/com/example/myapplication/FirstFragment.kt:211 | an exact, case-sensitive occurrence also counts as an ignore-case occurrence |
| `Text.QueryCaseIrrelevant` | app/src/main/java/com/example/myapplication/FirstFragment.kt:211 | a query and its upper-case form match the same strings |
| `Lists.Filter` | app/src/main/java/com/example/myapplication/FirstFragment.kt:211 | `filter` keeps a value exactly when it is in the input and satisfies the predicate, and the result is never longer than the input |
| `Lists.FilterIsSubsequence` | app/src/main/java/com/example/myapplication/FirstFragment.kt:211 | a filtered list is a subsequence of its input, so order is preserved |
| `Lists.FilterConcat` | app/src/main/java/com/example/myapplication/FirstFragment.kt:211 | filtering a concatenation is the concatenation of the filtered parts |
| `Lists.FilterCounts` | app/src/main/java/com/example/myapplication/FirstFragment.kt:211 | a kept value occurs in the result as often as in the input; a dropped value does not occur |
| `Lists.FilterKeepsAll` | app/src/main/java/com/example/myapplication/FirstFragment.kt:211 | when every element satisfies the predicate, filtering returns the input unchanged |
| `Lists.FilterCommutes` | app/src/main/java/com/example/myapplication/FirstFragment.kt:253 | two filters applied in either order give the same list |
| `Cache.InMemoryCache.constructor` | app/src/main/java/com/example/myapplication/FirstFragment.kt:184 | a new cache holds null |
| `Cache.InMemoryCache.Get` | app/src/main/java/com/example/myapplication/FirstFragment.kt:186-188 | `get` returns the slot's current content and changes nothing |
| `Cache.InMemoryCache.Set` | app/src/main/java/com/example/myapplication/FirstFragment.kt:190-192 | after `set(v)` the slot holds exactly `v` |
| `Cache.InMemoryCache.Clear` | app/src/main/java/com/example/myapplication/FirstFragment.kt:194-196 | after `clear` the slot holds null |
| `Cache.SlotScenario` | app/src/main/java/com/example/myapplication/FirstFragment.kt:182-197 | a new cache reads null; after `set(v)`, reading twice gives `v` both times; after `clear`, reading gives null |
| `Wrappers.Result.Map` | app/src/main/java/com/example/myapplication/FirstFragment.kt:253 | `Result.map`: a success value is transformed, a failure is passed through unchanged |
| `FoodData.Fetched` | app/src/main/java/com/example/myapplication/FirstFragment.kt:217-233 | an unreadable asset gives an I/O failure; readable text gives the comma-free pieces that join back to the text, one more than its commas |
| `FoodData.FetchedIsUnique` | app/src/main/java/com/example/myapplication/FirstFragment.kt:226 | any comma-free list of pieces that joins back to the text is exactly the fetched list |
| `FoodData.Matches` | app/src/main/java/com/example/myapplication/FirstFragment.kt:211 | the search lambda: a food name is kept when it contains the query, ignoring case |
| `FoodData.NotBlank` | app/src/main/java/com/example/myapplication/FirstFragment.kt:253 | the repository lambda: an entry is kept when it is not blank |
| `FoodData.SearchCached` | app/src/main/java/com/example/myapplication/FirstFragment.kt:205-214 | an empty cache gives the "call getFood first" failure; otherwise success with an order-preserving subsequence of the cached list that holds exactly the items containing the query, ignoring case |
| `FoodData.EmptySearchKeepsAll` | app/src/main/java/com/example/myapplication/FirstFragment.kt:211 | searching a filled cache for the empty query returns the whole cached list |
| `FoodData.NonBlank` | app/src/main/java/com/example/myapplication/FirstFragment.kt:253 | the result is an order-preserving subsequence that holds exactly the non-blank entries of the input |
| `FoodData.WithoutBlanks` | app/src/main/java/com/example/myapplication/FirstFragment.kt:252-258 | a failure passes through unchanged; a success keeps exactly its non-blank entries, in order |
| `FoodData.SearchNarrowsFetched` | app/src/main/java/com/example/myapplication/FirstFragment.kt:252-254 | after fetching `text`, the repository's search result is the list first shown (the non-blank pieces), filtered by the query |
| `FoodData.FoodDataSource.constructor` | app/src/main/java/com/example/myapplication/FirstFragment.kt:199-203 | the data source uses the cache it is given |
| `FoodData.FoodDataSource.Search` | app/src/main/java/com/example/myapplication/FirstFragment.kt:205-214 | `search` answers as `SearchCached` of the current cache slot, and changes no state |
| `FoodData.FoodDataSource.GetFood` | app/src/main/java/com/example/myapplication/FirstFragment.kt:217-233 | `getFood` returns the fetch outcome; on success the cache then holds exactly the returned list; on I/O failure the cache is unchanged |
| `FoodData.FetchThenSearch` | app/src/main/java/com/example/myapplication/FirstFragment.kt:205-233 | a search before any fetch fails; after a fetch, a search filters exactly the split list that fetch stored, and after a failed fetch it still fails |
| `FoodData.FoodRepository.constructor` | app/src/main/java/com/example/myapplication/FirstFragment.kt:248-250 | the repository uses the data source it is given |
| `FoodData.FoodRepository.Search` | app/src/main/java/com/example/myapplication/FirstFragment.kt:252-254 | the repository's `search` is the data source's answer with blank entries dropped |
| `FoodData.FoodRepository.GetFood` | app/src/main/java/com/example/myapplication/FirstFragment.kt:256-258 | the repository's `getFood` is the fetch outcome with blank entries dropped; the cache holds the unfiltered split list on success and is unchanged otherwise |
| `FoodData.FoodListRepository.constructor` | app/src/main/java/com/example/myapplication/FirstFragment.kt:340-342 | the list repository uses the repository it is given |
| `FoodData.FoodListRepository.FoodData` | app/src/main/java/com/example/myapplication/FirstFragment.kt:344-346 | the single emission of `foodData` is one repository `getFood` |
| `FoodData.FoodListRepository.OnSearch` | app/src/main/java/com/example/myapplication/FirstFragment.kt:348-350 | `onSearch` is the repository's search of the current cache slot |
| `FoodList.FoodListViewModel.constructor` | app/src/main/java/com/example/myapplication/FirstFragment.kt:293-298 | a new view-model has no original data, no list value and no error |
| `FoodList.FoodListViewModel.OnFetchResult` | app/src/main/java/com/example/myapplication/FirstFragment.kt:303-315 | a failed result sets FetchingData and leaves the list and original data alone; a successful one becomes the original data and replaces the list only if it differs from the last list delivered |
| `FoodList.FoodListViewModel.Start` | app/src/main/java/com/example/myapplication/FirstFragment.kt:300-316 | the `init` fetch leaves the split list in the cache on success; the non-blank pieces become the original data and, unless already delivered, the list; an unreadable asset sets FetchingData |
| `FoodList.FoodListViewModel.OnSearch` | app/src/main/java/com/example/myapplication/FirstFragment.kt:321-337 | a blank query restores the original data, or sets Searching when there is none; any other query shows the repository's successful answer, or sets Searching and keeps the list on failure |
| `FoodList.NewScreen` | app/src/main/java/com/example/myapplication/FirstFragment.kt:340-351 | a freshly wired screen has an empty cache and a view-model with no data, no list and no error |
| `FoodList.LoadSearchClear` | app/src/main/java/com/example/myapplication/FirstFragment.kt:321-337 | after loading, the list is the non-blank pieces; a non-blank query narrows it to the matching items; a blank query shows the loaded list again |
| `FoodList.SearchAfterFailedFetch` | app/src/main/java/com/example/myapplication/FirstFragment.kt:321-337 | after a failed fetch (FetchingData), a search sets Searching and the list stays without a value |
| `FoodList.RefetchAfterSearch` | app/src/main/java/com/example/myapplication/FirstFragment.kt:311-313 | exercises `distinctUntilChanged` on an event sequence the app does not produce (its `foodData` flow emits once and is collected once): when the same original list is delivered again after a search, it is suppressed and the narrowed list stays |

## Left out

- The UI is not modelled: `FirstFragment`, `FoodAdapter`, `ViewHolder`, `DiffCallback` (plain string equality) and the Toast are view and lifecycle code. `onFoodItemClick` does nothing and has no counterpart.
- Dependency injection is not modelled. The Hilt/Dagger modules and `FoodViewModelFactory` are replaced by `FoodList.NewScreen`, which builds the same chain by hand.
- Asset I/O and decoding are not modelled: `AssetManager.open`, `available()`/`read(buffer)` (which may read fewer bytes than reported) and `String(buffer)` with the platform charset. The model starts from the decoded text or an abstract I/O failure.
- Coroutines and flows are not modelled: `withContext(dispatcher)`, `viewModelScope.launch`, SharedFlow buffering, and the timing difference between `postValue` and `value`. Each event runs to completion before the next; there is no interleaving.
- FoodList.FoodListViewModel.OnSearch: with no original data, a blank query takes the explicit null branch and sets Searching. In the app, `firstOrNull()` on a replay slot that is still empty suspends until something is emitted, so that branch is never reached.
- The `.catch` handlers on the view-model's flows are not modelled (lines 308 and 314). They catch exceptions thrown inside those flows. In the modelled layers every failure is a `Result` value, never a thrown exception.
- Text.ContainsIgnoreCase: case mapping is ASCII only (`Text.ToUpper`/`Text.ToLower`). Kotlin's `ignoreCase` uses the full Unicode upper/lower-case tables.
- Text.IsWhitespace uses the current Unicode categories Zs, Zl and Zp plus the JVM's extra control characters. Older JDKs whose Unicode version still counted U+180E as a space differ on that one character.
- Kotlin strings are UTF-16 code units; the model's `char` is a Unicode scalar value, so surrogate pairs are not modelled.
- The `error` live data is modelled by its last value only. Observers are not modelled, and neither is the fact that setting the same tag again notifies them again.
