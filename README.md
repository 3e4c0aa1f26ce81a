# Storely: location lookup, store and product forms, sign-in and chat — a Dafny model

This project models the client-side logic of Storely, a React Native marketplace app for
small Philippine stores. It covers:

- **The location service** (`LocationService`). Four resolvers walk the Philippine
  administrative hierarchy: regions, then the provinces of a region, the cities and
  municipalities of a province, and the barangays of a city. Each resolver:
  - is backed by a key/value store whose `location_`-prefixed entries live for 24 hours;
  - formats each fetched body into `{value, label, code}` entries sorted by label;
  - falls back to built-in tables when the fetch fails.

  `clearCache` removes exactly the service's own keys. The outside world of one call is
  explicit: the clock readings, whether the store rejects a read or a write, and what the
  HTTP request came to are all parameters.
- **The picker component** (`Dropdown`): the text it shows, the options its search box
  leaves visible, the empty-list text, and the open/close state of its option sheet.
- **The product screen** (`Products`): the four-stage product filter, saving a product
  as an add or an update, delete, the two flag toggles, and the add/edit form.
- **The store-creation screen** (`CreateStore`):
  - the four chained location pickers, where a change blanks the levels below it and
    loads the next level's list;
  - the loaders, which empty the lists below the one they refresh;
  - the ordered validation chain.
- **The sign-up and sign-in forms** (`FormRules`, `Register`, `Login`): the field rules,
  the error map, clearing a field's error while typing, what is sent to the
  authentication call, and the message for each error code.
- **A chat thread and the conversation list** (`Conversation`, `Chat`): sending a
  message, the five-minute time-stamp grouping, and the store-name search.

The supporting modules are:

- `Common`: `Option`, a sequence `Filter`, and subsequences.
- `JsText`: `trim`, ASCII `toLowerCase`, `includes`, `startsWith`, and the pattern
  `/\S+@\S+\.\S+/`.
- `LocationOrder`: an insertion sort by an ASCII case-insensitive stand-in for `localeCompare`.
- `LocationFallback`: the fallback tables, copied row for row.

The resolver is specified by `ResolveWith`, which takes as a parameter the table to fall
back to. `Resolve` is `ResolveWith` given the level's own table for the parent code, and
the four `get…` methods are proved against it. The properties of a resolver call are
proved of `ResolveWith` for every table, so they hold for `Resolve` in particular.

Parts of the source that update state in place are classes with `modifies` clauses:
`LocationService`, `Picker`, `ProductsScreen`, `CreateStoreScreen`, `RegisterScreen`,
`LoginScreen` and `ConversationScreen`. Each of their methods is proved against a
specification function, and the properties the app relies on are proved about those
functions as lemmas.

## Model

| member | source | states |
|---|---|---|
| LocationService.LocationService.GetCachedData | src/services/locationService.js:13-26 | the read yields the stored list only for a parseable item under `location_<key>` younger than 24 hours; a rejected read is a miss |
| LocationService.LocationService.SetCachedData | src/services/locationService.js:28-38 | the store gains `location_<key>` holding the list and the write time; a rejected write leaves it unchanged |
| LocationService.LocationService.ResolveLevel | src/services/locationService.js:41-145 | given the level's fallback table, the shared resolver steps leave the result, the requested URL and the new store that `ResolveWith` describes |
| LocationService.LocationService.GetRegions | src/services/locationService.js:41-63 | `getRegions` is the resolver at the regions level |
| LocationService.LocationService.GetProvinces | src/services/locationService.js:66-90 | `getProvinces(regionCode)` is the resolver at the provinces level |
| LocationService.LocationService.GetCities | src/services/locationService.js:93-118 | `getCities(provinceCode)` is the resolver at the cities level |
| LocationService.LocationService.GetBarangays | src/services/locationService.js:121-145 | `getBarangays(cityCode)` is the resolver at the barangays level |
| LocationService.LocationService.ClearCache | src/services/locationService.js:255-263 | the store loses exactly the keys starting with `location_`; a failing store operation leaves it unchanged |
| LocationService.CacheEntryLivesExactlyOneDay | src/services/locationService.js:13-38 | an entry written at t is served by every read before t + 24h and by none from then on |
| LocationService.CacheEntryExpiresAtBoundary | src/services/locationService.js:18 | a read one millisecond before 24 hours hits; a read at exactly 24 hours misses |
| LocationService.CacheMisses | src/services/locationService.js:14-25 | a missing key, an unparseable record or a rejected read all give no cached data |
| LocationService.CacheKeysAreDistinct | src/services/locationService.js:41-145 | two calls share a cache key only at the same level and, below regions, for the same parent code |
| LocationService.StorageKeysAreDistinct | src/services/locationService.js:13-38 | prefixing `location_` keeps distinct keys distinct |
| LocationService.EmptyParentShortCircuits | src/services/locationService.js:66-145 | a child level without a parent code gives `[]` with no request and no store change |
| LocationService.CacheHitIsServedAsStored | src/services/locationService.js:43-44 | a fresh entry is returned unchanged, with no request and no store change |
| LocationService.CachedEmptyListIsAHit | src/services/locationService.js:13-44 | a cached empty list is still a hit, since any array is truthy |
| LocationService.MissRequestsEndpoint | src/services/locationService.js:41-145 | on a miss the resolver requests exactly the level's endpoint for the parent code |
| LocationService.FailedFetchFallsBack | src/services/locationService.js:41-145 | a failed fetch on a miss returns the fallback table unchanged, in table order, and caches nothing |
| LocationService.FallbackIsEmptyOffTheTable | src/services/locationService.js:170-252 | below regions, the fallback is non-empty exactly for the parent codes the tables list; every other code gets `[]` |
| LocationService.FetchedListIsFormattedAndCached | src/services/locationService.js:50-58 | a good body gives a label-sorted permutation of the formatted entries, where every entry comes from a body element field by field and every body element appears; that list is cached |
| LocationService.FormattedEntriesMatchBody | src/services/locationService.js:50-55 | the sorted list holds the formatting of every body element and nothing else |
| LocationService.NormalizedEntryHasSource | src/services/locationService.js:51-54 | every formatted entry is the formatting of some body element |
| LocationService.EveryRawEntryIsNormalized | src/services/locationService.js:51-54 | every body element appears formatted in the mapped list |
| LocationService.RepeatCallWithinDayIsServedFromCache | src/services/locationService.js:41-63 | after a fetch and a successful write, any call for the same level and parent within 24 hours returns the identical list with no request |
| LocationService.ResolveLeavesOtherEntries | src/services/locationService.js:28-63 | a resolver call changes no other level's or parent's cache entry |
| LocationService.ClearCacheIsSelective | src/services/locationService.js:257-259 | a key survives `clearCache` exactly when it does not start with `location_`, and it keeps its value |
| LocationService.ClearedCacheMissesEverywhere | src/services/locationService.js:255-259 | after `clearCache` every resolver misses, at every level and for every parent |
| LocationService.FallbackRowsAreWellFormed | src/services/locationService.js:148-252 | every fallback row has `value == code` and carries `isCity` exactly at the city level |
| LocationService.FallbackRegionsAreUnsorted | src/services/locationService.js:148-167 | the fallback regions are returned unsorted, unlike fetched lists |
| LocationService.RegionsExample | src/services/locationService.js:50-55 | the body [Region I, NCR] resolves to [NCR, Region I] |
| LocationOrder.LabelLeqReflexive | src/services/locationService.js:55 | the label order is reflexive |
| LocationOrder.LabelLeqTotal | src/services/locationService.js:55 | any two labels are comparable |
| LocationOrder.LabelLeqTransitive | src/services/locationService.js:55 | the label order is transitive |
| LocationOrder.LabelLeqIgnoresCase | src/services/locationService.js:55 | under the ASCII case-insensitive stand-in for `localeCompare` (not locale collation, which orders `a` before `A`), labels that differ only in letter case tie |
| LocationOrder.InsertByLabelSpec | src/services/locationService.js:55 | inserting into a sorted list keeps it sorted and adds exactly the new entry |
| LocationOrder.SortByLabelSpec | src/services/locationService.js:55 | the sort yields a label-sorted permutation of its input |
| Dropdown.SelectedOption | src/components/Dropdown.js:20 | nothing is selected exactly when no option carries the value; otherwise the selection is the first option carrying it |
| Dropdown.DisplayTextCases | src/components/Dropdown.js:70 | the closed picker reads "Loading..." while loading, otherwise the label of the first option with the value |
| Dropdown.DisplayTextWithoutMatch | src/components/Dropdown.js:70 | with no option carrying the value, the placeholder is shown |
| Dropdown.FilteredOptionsSpec | src/components/Dropdown.js:23-30 | the visible options keep their order; under an active search they are exactly those whose lower-cased label contains the lower-cased text, each as many times as in `options`; otherwise all options are visible |
| Dropdown.EmptyText | src/components/Dropdown.js:117-121 | "No results found" exactly when the raw search text is non-empty, else "No options available" |
| Dropdown.BlankSearchOverNoOptions | src/components/Dropdown.js:23-121 | a non-empty white-space search leaves every option visible, yet the empty-list text (shown when there are no options) is "No results found" |
| Dropdown.Picker.SetSearchText | src/components/Dropdown.js:105-109 | typing in the search box, or the clear icon (which sets ""), sets the search text to exactly the given text; whether the sheet is open stays as it was |
| Dropdown.Picker.HandlePress | src/components/Dropdown.js:38-41 | the sheet opens unless the picker is disabled or loading |
| Dropdown.Picker.HandleSelect | src/components/Dropdown.js:32-36 | reports exactly the option's value, then closes the sheet and clears the search; without `onSelect` it throws first and changes nothing |
| Dropdown.Picker.HandleClose | src/components/Dropdown.js:43-46 | closes the sheet and clears the search |
| Dropdown.ClosedPickerShowsAllOptions | src/components/Dropdown.js:23-46 | with the search cleared, every option is visible |
| Products.FilterProducts | src/screens/tabs/ProductsScreen.js:96-120 | the staged filters equal one filter by all active conditions; the result keeps the order, holds exactly the admitted products, and is the whole list with no filter active |
| Products.MapProductsAt | src/screens/tabs/ProductsScreen.js:170-216 | `map` keeps the length and changes each product by itself, in place |
| Products.EditReplacesOnlyTheEditedProduct | src/screens/tabs/ProductsScreen.js:163-172 | an edit keeps the length and every id, puts the form into exactly the products with the edited id, and leaves the others alone |
| Products.AddPrependsOneProduct | src/screens/tabs/ProductsScreen.js:163-176 | an add puts one new product, carrying the form's fields and the new id, in front of the unchanged list |
| Products.DeleteRemovesExactlyThatId | src/screens/tabs/ProductsScreen.js:194-196 | a delete keeps the order and removes exactly the products with the id; every other product keeps its number of occurrences |
| Products.ToggleChangesOnlyTheFlag | src/screens/tabs/ProductsScreen.js:202-216 | a toggle flips only its flag, only on the products with the id |
| Products.ToggleTwiceRestores | src/screens/tabs/ProductsScreen.js:202-216 | toggling twice restores the list |
| Products.NewProductIsAlwaysRejectedAsWritten | src/screens/tabs/ProductsScreen.js:413-418 | as written, no sequence of category taps fills an empty category, so a new product is always rejected |
| Products.BlankFormWithBooksIsRejectedAsWritten | src/screens/tabs/ProductsScreen.js:413-418 | the concrete input: a filled-in form whose category tap is "Books" is still rejected |
| Products.PickedCategoryCompletesTheForm | src/screens/tabs/ProductsScreen.js:413-418 | with the callback wired as `onSelect`, a tap sets exactly the category and the form passes the check |
| Products.ProductsScreen.ResetForm | src/screens/tabs/ProductsScreen.js:122-134 | the form is blank (available, not public) and nothing is being edited |
| Products.ProductsScreen.OpenEdit | src/screens/tabs/ProductsScreen.js:141-154 | the form shows the product, which becomes the one being edited |
| Products.ProductsScreen.TapFormCategoryAsWritten | src/screens/tabs/ProductsScreen.js:413-418 | as written, a tap on a category leaves the form (and everything else) unchanged, since the picker gets no `onSelect` |
| Products.ProductsScreen.SelectFormCategory | src/screens/tabs/ProductsScreen.js:413-418 | the evidently intended wiring, with the callback passed as `onSelect` (see Findings): a picked category is written into the form and nothing else changes |
| Products.ProductsScreen.SaveProduct | src/screens/tabs/ProductsScreen.js:156-183 | saved exactly when name, category, price and quantity are non-empty; a rejection changes nothing; a save upserts and then resets the form |
| Products.ProductsScreen.DeleteProduct | src/screens/tabs/ProductsScreen.js:185-200 | the list loses the products with the id; the form is untouched |
| Products.ProductsScreen.ToggleAvailability | src/screens/tabs/ProductsScreen.js:202-208 | the list is the availability toggle of the old one |
| Products.ProductsScreen.ToggleVisibility | src/screens/tabs/ProductsScreen.js:210-216 | the list is the visibility toggle of the old one |
| CreateStore.ChangeLocation | src/screens/CreateStoreScreen.js:164-191 | the field-by-field update leaves the location `NewLocation` describes and starts the loader `LoadFor` names |
| CreateStore.NewLocationFieldwise | src/screens/CreateStoreScreen.js:166-187 | the changed field takes the value, every level below it is blanked, and all other fields keep their values |
| CreateStore.LoadForSpec | src/screens/CreateStoreScreen.js:173-186 | a loader starts exactly for a non-empty region, province or city, and it loads the level right below for that code |
| CreateStore.ChangeKeepsChain | src/screens/CreateStoreScreen.js:164-191 | changes through enabled pickers keep every filled level under a filled parent |
| CreateStore.FirstFailureSpec | src/screens/CreateStoreScreen.js:193-226 | the reported error is a failing check with every earlier check passing; no error exactly when all checks pass |
| CreateStore.ValidateStore | src/screens/CreateStoreScreen.js:193-226 | the early-return chain reports the first failing check, in source order |
| CreateStore.ValidStoreIsComplete | src/screens/CreateStoreScreen.js:193-226 | a valid store has a chained location and non-blank name, street and contact |
| CreateStore.CreateStoreScreen.LoadRegions | src/screens/CreateStoreScreen.js:63-73 | the regions list becomes the resolver's result, and the other lists are kept |
| CreateStore.CreateStoreScreen.LoadProvinces | src/screens/CreateStoreScreen.js:75-85 | cities and barangays are emptied, and provinces become the resolver's result |
| CreateStore.CreateStoreScreen.LoadCities | src/screens/CreateStoreScreen.js:87-97 | barangays are emptied, and cities become the resolver's result |
| CreateStore.CreateStoreScreen.LoadBarangays | src/screens/CreateStoreScreen.js:99-109 | barangays become the resolver's result, and the upper lists are kept |
| CreateStore.CreateStoreScreen.HandleLocationChange | src/screens/CreateStoreScreen.js:164-191 | the location changes as `NewLocation` says; the started loader refreshes its list from `Resolve` and empties the lists below it, and the cache becomes the one that `Resolve` leaves; with no loader started, no list and no cache entry changes |
| CreateStore.CreateStoreScreen.HandleCreateStore | src/screens/CreateStoreScreen.js:193-226 | the verdict on the screen's store is the first failing check, or none when all pass |
| FormRules.AddEmailError | src/screens/LoginScreen.js:19-23 | the e-mail step adds "Email is required" for a blank address, else "Please enter a valid email" on a pattern failure, else nothing |
| FormRules.AddPasswordError | src/screens/LoginScreen.js:25-29 | the password step adds "Password is required" when empty, else the six-character message when its `length` in UTF-16 code units is below 6, else nothing |
| FormRules.EmailAcceptedIffPatternMatches | src/screens/RegisterScreen.js:37-41 | an address is accepted exactly when the pattern matches it |
| FormRules.SentEmailIsAcceptedToo | src/screens/RegisterScreen.js:37-64 | the trimmed address that is sent is accepted exactly when the typed one is |
| FormRules.PasswordAcceptedIffLongEnough | src/screens/RegisterScreen.js:43-47 | a password is accepted exactly when its `length` (UTF-16 code units) is at least 6 |
| FormRules.ThreeEmojiArePassword | src/screens/LoginScreen.js:25-29 | three emoji are three code points but `length` 6, and pass |
| JsText.Utf16LengthBounds | src/screens/RegisterScreen.js:45 | `length` lies between the number of code points and twice that, and equals it when all lie in the Basic Multilingual Plane |
| FormRules.SpacesArePassword | src/screens/LoginScreen.js:25-29 | a password is not trimmed: six spaces pass |
| Register.AddNameError | src/screens/RegisterScreen.js:31-35 | the name step adds "Full name is required" when blank, else the two-character message when the trimmed name's `length` in UTF-16 code units is below 2 |
| Register.OneEmojiIsAName | src/screens/RegisterScreen.js:31-35 | a single emoji has `length` 2 and draws no name message |
| Register.AddConfirmError | src/screens/RegisterScreen.js:49-53 | the confirmation step adds a message when it is empty or differs from the password |
| Register.ValidateForm | src/screens/RegisterScreen.js:28-57 | each field has a key exactly when it has a message, holding that message; valid exactly when the trimmed name's `length` >= 2, the address matches, the password's `length` >= 6 and the confirmation repeats it (lengths in UTF-16 code units) |
| Register.ErrorsHoldEachFieldsMessage | src/screens/RegisterScreen.js:29-56 | the map built by the four steps has a key exactly per failing field, holding its message |
| Register.FormAcceptedIff | src/screens/RegisterScreen.js:31-53 | no field fails exactly when all four conditions hold, lengths counted in UTF-16 code units |
| Register.SignUpMessagesTellCodesApart | src/screens/RegisterScreen.js:73-85 | the three known codes get three distinct messages; every other code gets the fallback |
| Register.SetChangesOnlyThatField | src/screens/RegisterScreen.js:21 | typing changes only the edited field |
| Register.RegisterScreen.UpdateFormData | src/screens/RegisterScreen.js:20-26 | sets the field and blanks its message only when one is shown |
| Register.RegisterScreen.HandleRegister | src/screens/RegisterScreen.js:59-91 | leaves a key exactly per failing field, holding that field's message; signs up only when valid, with the trimmed address and the raw password; a failure reports the message for its code |
| Login.ValidateForm | src/screens/LoginScreen.js:16-33 | each field has a key exactly when it fails, holding its message; valid exactly when the address matches and the password's `length` in UTF-16 code units is >= 6 |
| Login.ErrorsHoldEachFieldsMessage | src/screens/LoginScreen.js:17-32 | the map from the two steps has a key exactly per failing field, holding its message |
| Login.SignInMessagesTellCodesApart | src/screens/LoginScreen.js:43-58 | the four known codes get four distinct messages; every other code gets the fallback |
| Login.LoginScreen.HandleLogin | src/screens/LoginScreen.js:35-64 | leaves a key exactly per failing field, holding that field's message; signs in only when valid (password `length` in UTF-16 code units >= 6), with the trimmed address and the raw password; a failure reports the message for its code |
| Login.SentAddressPassesThePattern | src/screens/LoginScreen.js:16-40 | the trimmed address that is sent still matches the pattern |
| JsText.TrimStartSpec | src/screens/ConversationScreen.js:79 | dropping leading white space keeps a suffix, drops only white space, and leaves none at the front |
| JsText.TrimEndSpec | src/screens/ConversationScreen.js:79 | dropping trailing white space keeps a prefix, drops only white space, and leaves none at the end |
| JsText.BlankIffAllSpace | src/screens/RegisterScreen.js:31 | a text trims to empty exactly when it is all white space |
| JsText.EmailTestIgnoresSurroundingSpace | src/screens/LoginScreen.js:16-40 | the pattern matches a text exactly when it matches its trimmed form |
| JsText.EmailTestImpliesNotBlank | src/screens/LoginScreen.js:19-21 | a text the pattern matches is not blank |
| Conversation.ConversationScreen.SetNewMessage | src/screens/ConversationScreen.js:184-186 | typing sets the input text to exactly the typed text; the messages stay as they were |
| Conversation.ConversationScreen.SendMessage | src/screens/ConversationScreen.js:78-90 | a blank input is ignored; otherwise exactly one user message with the trimmed text is appended and the input is cleared |
| Conversation.SentTextIsTrimmedInput | src/screens/ConversationScreen.js:78-87 | the sent text is a non-empty slice of the input that starts and ends with a non-space |
| Conversation.FiveMinuteBoundary | src/screens/ConversationScreen.js:115-117 | a gap of exactly five minutes shows no stamp, one more millisecond shows one, either way round |
| Conversation.AppendKeepsEarlierStamps | src/screens/ConversationScreen.js:89-117 | appending a message never changes whether an earlier message shows its stamp |
| Chat.FilteredConversationsSpec | src/screens/tabs/ChatScreen.js:56-58 | the filtered list keeps the order and holds exactly the conversations whose store name matches, each as many times as in the input |
| Chat.EmptyQueryKeepsAll | src/screens/tabs/ChatScreen.js:56-58 | an empty search shows every conversation |
| Chat.EmptyStateIffNoMatch | src/screens/tabs/ChatScreen.js:108 | the empty state shows exactly when no store name matches |

## Left out

- Network, JSON and storage I/O are outside the model:
  - `fetch`, `response.ok` and `response.json()` become one `FetchOutcome` parameter; a
    non-OK status, a network error, a body that is not valid JSON or not an array, and an
    array with a `null` element all become `FetchFailed`. An array whose elements lack
    `code` or `name` is not modelled: the source maps such elements to entries with
    `undefined` fields and caches them as they are (or fails in the sort when it compares
    an `undefined` label).
  - `AsyncStorage` is a `map` field, and a rejected read or write is a flag.
  - `JSON.stringify`/`JSON.parse` round-tripping is assumed exact.
  - `console` logging is not modelled.
- Clocks and identifiers are parameters: `Date.now()` at the cache read and at the cache
  write, the `Date.now().toString()` ids of products and messages, and `new Date()`.
- `localeCompare` is modelled as a lexicographic order on ASCII-lower-cased characters,
  and `toLowerCase` as ASCII lower-casing. Locale collation and Unicode case mapping are
  not modelled.
- The unused `this.cache` map in the service constructor has no effect and is not modelled.
- The fallback tables are looked up by exact code. Lookups with inherited object keys
  such as `"constructor"` are not modelled.
- A `null` or `undefined` parent code is modelled as the empty string.
- Concurrency is not modelled:
  - The interleaving of overlapping async loaders is out of scope.
  - The source starts each loader from inside the `setStoreData` updater; the model runs
    the loader to completion right after the location update.
  - The loaders' `loading*` flags and their `catch` branches are not modelled; the
    service never throws.
- `parseFloat`/`parseInt` are not modelled: price and quantity stay text, and the
  `saveProduct` catch branch is unreachable in the model.
- Alerts and navigation are not modelled. Validation results are returned as
  `StoreError`/`Option` values; the alert texts are `CreateStore.Message`,
  `Register.SignUpErrorMessage` and `Login.SignInErrorMessage`.
- The delete confirmation dialog is not modelled. `DeleteProduct` is the confirmed action.
- The simulated store reply in `sendMessage` (a `setTimeout`) is not modelled, nor is the
  two-second simulated store creation.
- Other parts of the screens are not modelled:
  - rendering and styles;
  - the image picker and `coverImage`;
  - operating hours;
  - the hard-coded mock product and conversation lists;
  - scrolling;
  - the time format of stamps.
- The `label` key of locations and options is the field `labelText`, since `label` is a
  Dafny keyword.

## Findings

| source | as written | input that shows it | evidently intended | confidence | as-written member | corrected member |
|---|---|---|---|---|---|---|
| src/screens/tabs/ProductsScreen.js:413-418 | the product form's category picker is given `onValueChange`, but the picker only calls its `onSelect` prop (src/components/Dropdown.js:8,33), so a tap throws before the form changes. The filter bar's picker (ProductsScreen.js:264-270) is wired the same way. | the blank form with name "Mug", price "5", quantity "2", then a tap on "Books": the category stays "" and `saveProduct` rejects the form. As written, no new product can ever be saved. | a tapped category is written into the form, so a complete form can be saved; `Products.ProductsScreen.SelectFormCategory` is that tap, and `Products.ProductsScreen.TapFormCategoryAsWritten` the tap as written | not executed | Products.NewProductIsAlwaysRejectedAsWritten | Products.PickedCategoryCompletesTheForm |
