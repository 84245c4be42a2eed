# PokemonApp core, modelled and verified in Dafny

PokemonApp is an iOS client for the PokeAPI catalog. It shows a paged list of Pokémon, opens one Pokémon's detail screen with its sprite images, and saves those images to the Photos library. This project models the rules underneath the user interface and proves what they promise:

- the list view model's pagination state machine: a single-flight load gate, a page cursor, the end-of-data flag, a lookahead of 5 rows, and the open-detail and refresh guards;
- the detail view model's image assembly: one slot per sprite URL, filled by index, then publishing `prefix(filled)`; the toasts after saving;
- the two-tier image cache: memory, then disk, then the in-flight table, then the network; also `preheat` and `seed`;
- the detail mapper's sprite extraction: the explicit sprite fields in fixed order, then a recursive scan of the raw JSON, with de-duplication in an ordered set;
- the list mapper, the repository's URL building, `Endpoint.url`, the API client's error classification, the error humanizer, and the Photos permission gate.

Modules follow the Swift files:

- `Endpoint`, `ApiClient`, `Errors`, `ListMapper`, `DetailMapper` and `Repository` model the pure files;
- `SavePhotos` models the use case;
- `ImageCache`, `ListViewModel` and `DetailViewModel` model the stateful ones;
- `Base`, `Text` and `Entities` hold the shared datatypes, ASCII case mapping and decimal rendering.

The stateful Swift types become Dafny classes: `PokemonListViewModel`, `PokemonDetailViewModel`, `ImageCache` and `OrderedUrlSet`. Their fields are updated in place. Each method is tied by its postcondition to a pure step function on a state value: `LoadStep`, `LookupStep`, `PreheatStep` and so on. The properties are proved as lemmas about those step functions.

These things become function parameters ("oracles"):

- the network;
- disk keys;
- image decoding;
- JSON parsing and typed decoding;
- `URL(string:)` validity;
- the page and detail fetches;
- the Photos service.

Each call log that the source's tests check (page requests, service calls, downloads) is a ghost or state field.

## Model

| member | source | states |
|---|---|---|
| Errors.HumanizeTexts | PokemonApp/Core/Utilities/Errors.swift:31-84 | cancellation reads "Operation was cancelled"; an APIError reads its description; notConnectedToInternet, timedOut, and cannotFindHost/cannotConnectToHost read their fixed texts; other URL codes pass Foundation's text through; an error of another type whose bridged NSError domain is the URL domain reads "Network error (code): text" (URLSession's own errors are `URLError` and take the earlier branches) |
| Errors.MissingKeyText | PokemonApp/Core/Utilities/Errors.swift:47-48 | for any key and coding path, a missing key reads "Missing key 'k' at " then the path: nothing for an empty path, the key itself for a one-key path, and each further key adds a dot and itself |
| Errors.MissingKeyExample | PokemonApp/Core/Utilities/Errors.swift:47-48 | a key missing under the path sprites, other reads "Missing key 'k' at sprites.other" |
| Errors.HumanizeNonEmpty | PokemonApp/Core/Utilities/Errors.swift:31-89 | `humanized` is empty only for a kind whose text is Foundation's own description, and then only when that description is empty; every literal branch is non-empty |
| Errors.DescriptionDeterminesKind | PokemonApp/Core/Utilities/Errors.swift:16-27 | equal `APIError.description`s mean the same case, and for `badStatus` the same code |
| Errors.BadStatusMessageParses | PokemonApp/Core/Utilities/Errors.swift:18-19 | "Bad status code: " followed by the code, which parses back to the code |
| ApiClient.Perform | PokemonApp/Core/Networking/APIClient.swift:25-43 | succeeds exactly for an HTTP response with a status in 200..<300, returning the same data; a thrown Swift `CancellationError` becomes `cancelled`; every other thrown error, `URLError(.cancelled)` from the session included, becomes `transport` |
| ApiClient.Get | PokemonApp/Core/Networking/APIClient.swift:11-19 | `perform`'s error passes through unchanged; a body the decoder rejects becomes `APIError.decoding` |
| ApiClient.GetRaw | PokemonApp/Core/Networking/APIClient.swift:21-23 | a result that `getRaw` returns always carries a 2xx status |
| ApiClient.BadStatusSurfacesAsTransport | PokemonApp/Core/Networking/APIClient.swift:34-41 | a non-2xx status reaches the caller as `transport(badStatus(code))`, never as `badStatus(code)`, and is humanized to the generic network text |
| ApiClient.BadStatusesIndistinguishable | PokemonApp/Core/Networking/APIClient.swift:29-41 | as written, any two bad statuses are humanized to the same message |
| ApiClient.OfflineThroughClient | PokemonApp/Core/Networking/APIClient.swift:38-41 | an offline session error fetched through the client reads "Network error: …", never "No Internet connection" |
| ApiClient.PerformIntended | PokemonApp/Core/Networking/APIClient.swift:29-41 | corrected classification: a bad status stays `badStatus(code)`, a non-HTTP response stays `decoding`, and everything else agrees with `perform` |
| ApiClient.IntendedBadStatusMessage | PokemonApp/Core/Networking/APIClient.swift:34-35 | with the corrected classification, a bad status is shown with its code, and distinct codes give distinct messages |
| Endpoint.ListUrlRoundTrip | PokemonApp/Core/Networking/Endpoint.swift:15-25 | the list URL parses back to its own (limit, offset), with limit before offset |
| Endpoint.QueryRoundTrip | PokemonApp/Core/Networking/Endpoint.swift:19-22 | the query text parses back to the (limit, offset) it was built from |
| Endpoint.ListUrlInjective | PokemonApp/Core/Networking/Endpoint.swift:20-21 | distinct (limit, offset) pairs give distinct URLs |
| Endpoint.ListUrlExample | PokemonApp/Core/Networking/Endpoint.swift:17-23 | (20, 40) gives "https://pokeapi.co/api/v2/pokemon?limit=20&offset=40", which contains "limit=20" and "offset=40" |
| ListMapper.ToDomain | PokemonApp/Data/Mappers/PokemonListMapper.swift:11-16 | same length and order as the DTO's results; each summary has the id parsed from its URL, the capitalized name and the URL unchanged |
| ListMapper.IdFromNumberedUrl | PokemonApp/Data/Mappers/PokemonListMapper.swift:13 | a URL whose last path component is the decimal n, with or without a trailing slash, has id n |
| ListMapper.NonNumericIdIsZero | PokemonApp/Data/Mappers/PokemonListMapper.swift:13 | a last path component that is not an integer gives id 0 |
| ListMapper.NamedUrlIdIsZero | PokemonApp/Data/Mappers/PokemonListMapper.swift:13 | a URL whose last component is a name (no '/' or '.', at least one lower-case letter), with or without a trailing '/', gives id 0 |
| ListMapper.AfterLastSlashOf | PokemonApp/Data/Mappers/PokemonListMapper.swift:13 | the last path component is exactly the text after the final slash |
| ListMapper.CapitalizeExamples | PokemonApp/Data/Mappers/PokemonListMapper.swift:14 | "bulbasaur" capitalizes to "Bulbasaur" and "ivysaur" to "Ivysaur" |
| ListMapper.ToDomainExample | PokemonAppTests/Data/PokemonRepositoryImplTests.swift:72-88 | a two-entry page whose URLs end in /1/ and /2/ maps to (1, "Bulbasaur") and (2, "Ivysaur"), each keeping its URL |
| Text.CapitalizeLowerWord | PokemonApp/Data/Mappers/PokemonListMapper.swift:14 | a one-word lower-case name has only its first letter raised |
| Text.CapitalizeIdempotent | PokemonApp/Data/Mappers/PokemonListMapper.swift:14 | capitalizing an already capitalized name changes nothing |
| Text.ParseDecimal | PokemonApp/Core/Networking/Endpoint.swift:20-21 | a rendered Int parses back to itself |
| Text.DecimalInjective | PokemonApp/Core/Networking/Endpoint.swift:20-21 | distinct Ints render differently |
| DetailMapper.Scan | PokemonApp/Data/Mappers/PokemonDetailMapper.swift:26-35 | every collected string, once lowercased, ends in ".png" and contains "http" |
| DetailMapper.ScanIsFilteredLeaves | PokemonApp/Data/Mappers/PokemonDetailMapper.swift:26-35 | the walk collects exactly the string leaves of the tree that pass the test, in tree order |
| DetailMapper.ScanMembership | PokemonApp/Data/Mappers/PokemonDetailMapper.swift:30-32 | a string is collected if and only if it is a leaf of the tree and passes the test |
| DetailMapper.Walk | PokemonApp/Data/Mappers/PokemonDetailMapper.swift:25-36 | the accumulator ends as its old contents followed by the scan of the value |
| DetailMapper.CollectSpriteUrlStrings | PokemonApp/Data/Mappers/PokemonDetailMapper.swift:22-38 | a parse failure is thrown; otherwise the result is the scan of the root's "sprites" object |
| DetailMapper.NoSpritesNoScan | PokemonApp/Data/Mappers/PokemonDetailMapper.swift:23-24 | a root that is not an object, or with no member named "sprites", or whose first "sprites" member is not an object, yields no strings |
| DetailMapper.Lookup | PokemonApp/Data/Mappers/PokemonDetailMapper.swift:24 | a key is found if and only if some member carries it, and then it is the value of the first member carrying it |
| DetailMapper.Dedup | PokemonApp/Data/Mappers/PokemonDetailMapper.swift:42-51 | the ordered set's contents have no duplicates and hold exactly the inserted elements |
| DetailMapper.DedupOfDistinct | PokemonApp/Data/Mappers/PokemonDetailMapper.swift:46-50 | inserting distinct elements keeps them all, in insertion order |
| DetailMapper.DedupPrefix | PokemonApp/Data/Mappers/PokemonDetailMapper.swift:46-50 | later insertions only append: the contents after inserting a then b begin with the contents after inserting a |
| DetailMapper.OrderedUrlSet.Insert | PokemonApp/Data/Mappers/PokemonDetailMapper.swift:46-50 | appends the URL only when it is not already present; the contents stay the de-duplicated insertion sequence |
| DetailMapper.OrderedUrlSet.InsertAll | PokemonApp/Data/Mappers/PokemonDetailMapper.swift:17-18 | inserting each URL of a list in order keeps the contents equal to the de-duplicated insertion sequence |
| DetailMapper.ExplicitSprites | PokemonApp/Data/Mappers/PokemonDetailMapper.swift:16-17 | a string is listed exactly when one of the five explicit fields holds it, so nil fields are skipped; front_default, when present, comes first |
| DetailMapper.ExplicitSpritesOrder | PokemonApp/Data/Mappers/PokemonDetailMapper.swift:16-17 | each present field lands right after the present fields listed before it, in the order front_default, front_shiny, back_default, back_shiny, official artwork |
| DetailMapper.MapStats | PokemonApp/Data/Mappers/PokemonDetailMapper.swift:12-14 | same length and order as the DTO's stats, with capitalized names and the base stat as value |
| DetailMapper.StatExample | PokemonAppTests/Data/PokemonRepositoryImplTests.swift:146-147 | "hp" with base stat 60 becomes ("Hp", 60) |
| DetailMapper.ToDomain | PokemonApp/Data/Mappers/PokemonDetailMapper.swift:11-20 | the imperative mapper computes exactly `DetailOf`: the explicit sprite fields go into the ordered set, then the scanned strings |
| DetailMapper.DetailOfShape | PokemonApp/Data/Mappers/PokemonDetailMapper.swift:11-20 | the id is kept and the name capitalized; stats are mapped; the sprite list has no duplicates and holds exactly the valid URLs among the explicit fields and the scanned strings |
| DetailMapper.ExplicitFirst | PokemonApp/Data/Mappers/PokemonDetailMapper.swift:15-19 | the sprite list begins with the de-duplicated explicit fields, in field order |
| DetailMapper.ParseFailureThrows | PokemonApp/Data/Mappers/PokemonDetailMapper.swift:18 | a JSON parse failure is thrown unchanged |
| Repository.DetailUrl | PokemonApp/Data/Repositories/PokemonRepositoryImpl.swift:21 | the fixed base followed by the lowercased name |
| Repository.DetailUrlExample | PokemonAppTests/Data/PokemonRepositoryImplTests.swift:108-143 | "Ivysaur" is fetched from "https://pokeapi.co/api/v2/pokemon/ivysaur" |
| Repository.DetailUrlCaseInsensitive | PokemonApp/Data/Repositories/PokemonRepositoryImpl.swift:21 | names equal up to case share a URL, so the capitalized display name fetches the same detail |
| Repository.Page | PokemonApp/Data/Repositories/PokemonRepositoryImpl.swift:13-18 | the client's error propagates unchanged; on success there is one summary per result |
| Repository.PageReadsItsEndpoint | PokemonApp/Data/Repositories/PokemonRepositoryImpl.swift:13-18 | `page` depends only on the client's answer for its own endpoint URL, and on success is the list mapper applied to that answer |
| Repository.PageUrlExample | PokemonAppTests/Data/PokemonRepositoryImplTests.swift:58-65 | page (20, 40) requests "...pokemon?limit=20&offset=40" |
| Repository.Detail | PokemonApp/Data/Repositories/PokemonRepositoryImpl.swift:20-25 | the client's error propagates unchanged; a body that fails typed decoding becomes a decoding error before the mapper is reached |
| Repository.DetailReadsItsUrl | PokemonApp/Data/Repositories/PokemonRepositoryImpl.swift:20-25 | `detail` depends only on the body served at its own URL; on success it is the detail mapper applied to the decoded DTO and the same bytes |
| SavePhotos.SaveImage | PokemonApp/Domain/UseCases/SaveImageToPhotosUseCase.swift:17-20 | authorization is always requested first; the save succeeds only when authorized |
| SavePhotos.SaveImages | PokemonApp/Domain/UseCases/SaveImageToPhotosUseCase.swift:21-24 | authorization is always requested first; the batch succeeds only when authorized |
| SavePhotos.SaveImageCalls | PokemonApp/Domain/UseCases/SaveImageToPhotosUseCase.swift:17-20 | denied: throws `denied` and makes no save call; granted: exactly one single save and no batch save, whose error is thrown unchanged |
| SavePhotos.SaveImagesCalls | PokemonApp/Domain/UseCases/SaveImageToPhotosUseCase.swift:21-24 | denied: throws `denied` and makes no batch call; granted: exactly one batch save of the same images and no single save, whose error is thrown unchanged |
| SavePhotos.DeniedText | PokemonApp/Domain/UseCases/SaveImageToPhotosUseCase.swift:10-13 | `denied` is described and humanized as "Photos permission denied" |
| ImageCache.Download | PokemonApp/Core/Photos/ImageCache.swift:36-44 | succeeds exactly for a 2xx HTTP response whose bytes decode; the session's own error is thrown as is; any other delivered response throws `APIError.decoding` |
| ImageCache.LookupStep | PokemonApp/Core/Photos/ImageCache.swift:28-50 | the memory tier answers exactly when the URL is in memory; a failure never populates memory; a non-shared success is stored in memory; only the network tier downloads; only the network tier writes to disk; the in-flight table is left as it was |
| ImageCache.MemoryHit | PokemonApp/Core/Photos/ImageCache.swift:29 | a memory hit returns the stored image and changes nothing |
| ImageCache.DiskHitPromotes | PokemonApp/Core/Photos/ImageCache.swift:30-34 | decodable disk bytes are returned and promoted to memory, with no network request |
| ImageCache.InflightShared | PokemonApp/Core/Photos/ImageCache.swift:35 | a URL already in flight gets that task's outcome, with no new request and nothing stored |
| ImageCache.FullMiss | PokemonApp/Core/Photos/ImageCache.swift:36-49 | a full miss requests the URL once; success is written to disk (when writable) and to memory; failure leaves memory and disk unchanged |
| ImageCache.BadResponseFailsAsDecoding | PokemonApp/Core/Photos/ImageCache.swift:40-41 | a non-HTTP, non-2xx or undecodable response throws `APIError.decoding` and caches nothing |
| ImageCache.RepeatHitsMemory | PokemonApp/Core/Photos/ImageCache.swift:47-49 | after a lookup that stored its image, the next lookup is a memory hit |
| ImageCache.SeedStep | PokemonApp/Core/Photos/ImageCache.swift:76-78 | seeding stores the image in memory for the URL and touches nothing else |
| ImageCache.SeedThenLookup | PokemonAppTests/Data/ImageRepositoryImplTests.swift:14-28 | after seeding, the lookup returns the seeded image from memory |
| ImageCache.PreheatStep | PokemonApp/Core/Photos/ImageCache.swift:52-61 | preheat never evicts from memory, only appends to the request log, and leaves the in-flight table as it was |
| ImageCache.LookupKeepsWarm | PokemonApp/Core/Photos/ImageCache.swift:28-50 | a lookup never makes a URL that was answerable without the network need it again |
| ImageCache.PreheatWarms | PokemonApp/Core/Photos/ImageCache.swift:52-61 | after a preheat that did not throw, looking up any of its URLs makes no network request |
| ImageCache.PreheatKeepsWarm | PokemonApp/Core/Photos/ImageCache.swift:52-61 | preheating never makes a warm URL cold |
| ImageCache.PreheatThrowsFirstFailure | PokemonApp/Core/Photos/ImageCache.swift:52-61 | preheat throws exactly when some URL's lookup failed, and then throws the error of the first such URL in order; otherwise it returns normally |
| ImageCache.PreheatVisitsAll | PokemonApp/Core/Photos/ImageCache.swift:52-61 | whether or not it throws, every URL given is afterwards warm, was requested from the network, or awaited an in-flight task that had failed |
| ImageCache.FailureThenDiskHit | PokemonApp/Core/Photos/ImageCache.swift:52-61 | a failed first URL does not stop the next: a second URL found on disk is still promoted to memory, and the first URL's error is thrown |
| ImageCache.ImageCache.constructor | PokemonApp/Core/Photos/ImageCache.swift:17-22 | memory and the in-flight table start empty |
| ImageCache.ImageCache.ImageFor | PokemonApp/Core/Photos/ImageCache.swift:28-50 | result and new state are the lookup step's; the in-flight entry the call registers is gone when it returns |
| ImageCache.ImageCache.Preheat | PokemonApp/Core/Photos/ImageCache.swift:52-61 | looks up every URL in order, keeping the first error, and ends with the outcome and state of the preheat step |
| ImageCache.ImageCache.Seed | PokemonApp/Core/Photos/ImageCache.swift:76-78 | the new state is the seed step's |
| ListViewModel.LoadStep | PokemonApp/Presentation/Features/PokemonList/PokemonListViewModel.swift:40-66 | with the gate held nothing changes; otherwise exactly one page of 20 is requested, at offset 0 after a reset and at page*20 otherwise, and the gate and both progress flags end false |
| ListViewModel.LoadOutcome | PokemonApp/Presentation/Features/PokemonList/PokemonListViewModel.swift:58-65 | a fetched page is appended in order, endReached becomes "shorter than 20" and the page advances by one; a failed fetch keeps the list, the end flag and the page, and records the humanized error |
| ListViewModel.FirstIndex | PokemonApp/Presentation/Features/PokemonList/PokemonListViewModel.swift:69 | the first index of the item, absent exactly when the item is not in the list |
| ListViewModel.LoadNextStep | PokemonApp/Presentation/Features/PokemonList/PokemonListViewModel.swift:68-73 | a plain load when the row is within the last 5 and the end is not reached; otherwise nothing |
| ListViewModel.LoadNextRequestsIff | PokemonApp/Presentation/Features/PokemonList/PokemonListViewModel.swift:68-73 | a page is requested if and only if the gate is free, the end is not reached, and the row's first index is at least count - 5 |
| ListViewModel.OpenDetailStep | PokemonApp/Presentation/Features/PokemonList/PokemonListViewModel.swift:75-87 | a no-op while opening; the detail is fetched, then its sprites are preloaded only if that succeeded, and the call log says so; navigation is set only when both succeed; a failure of the fetch or of the preload records its humanized error and leaves navigation unchanged; openingId ends nil |
| ListViewModel.RefreshStep | PokemonApp/Presentation/Features/PokemonList/PokemonListViewModel.swift:89-94 | a no-op while refreshing; otherwise a reset load, and the flag ends false |
| ListViewModel.InvPreserved | PokemonApp/Presentation/Features/PokemonList/PokemonListViewModel.swift:40-94 | every operation keeps the cursor invariant: the page is never negative, and while it is 0 there are no items and the end is not reached |
| ListViewModel.IdlePreserved | PokemonApp/Presentation/Features/PokemonList/PokemonListViewModel.swift:40-94 | starting idle, every operation ends with all gates and flags cleared |
| ListViewModel.TwoLoadsRequestConsecutivePages | PokemonAppTests/ViewModels/PokemonListViewModelTests.swift:85-104 | a reset load then a plain load request offsets 0 and 20, and append the pages in that order |
| ListViewModel.ShortPageStopsPaging | PokemonApp/Presentation/Features/PokemonList/PokemonListViewModel.swift:58-73 | after a short page, no row triggers another request |
| ListViewModel.RefreshStartsOver | PokemonApp/Presentation/Features/PokemonList/PokemonListViewModel.swift:40-94 | a refresh requests offset 0; success leaves exactly that page with the cursor at 1; failure leaves the list cleared |
| ListViewModel.PokemonListViewModel.constructor | PokemonApp/Presentation/Features/PokemonList/PokemonListViewModel.swift:12-38 | the initial state: no items, page 0, all flags false |
| ListViewModel.PokemonListViewModel.Load | PokemonApp/Presentation/Features/PokemonList/PokemonListViewModel.swift:40-66 | the fields change as the load step says |
| ListViewModel.PokemonListViewModel.Complete | PokemonApp/Presentation/Features/PokemonList/PokemonListViewModel.swift:53-65 | the fetch at the current cursor and the deferred flag resets change the fields as the finishing half of the load step says |
| ListViewModel.PokemonListViewModel.LoadNextIfNeeded | PokemonApp/Presentation/Features/PokemonList/PokemonListViewModel.swift:68-73 | the fields change as the load-next step says |
| ListViewModel.PokemonListViewModel.OpenDetail | PokemonApp/Presentation/Features/PokemonList/PokemonListViewModel.swift:75-87 | the fields change as the open-detail step says |
| ListViewModel.PokemonListViewModel.UserRefresh | PokemonApp/Presentation/Features/PokemonList/PokemonListViewModel.swift:89-94 | the fields change as the refresh step says |
| DetailViewModel.Results | PokemonApp/Presentation/Features/PokemonDetail/PokemonDetailViewModel.swift:38-45 | one provider outcome per sprite URL, by index |
| DetailViewModel.Slots | PokemonApp/Presentation/Features/PokemonDetail/PokemonDetailViewModel.swift:46-53 | one slot per URL; slot i holds the image of fetch i, or the placeholder when it failed |
| DetailViewModel.Published | PokemonApp/Presentation/Features/PokemonDetail/PokemonDetailViewModel.swift:54 | as many images are published as fetches succeeded |
| DetailViewModel.SuccessCountIsOkIndices | PokemonApp/Presentation/Features/PokemonDetail/PokemonDetailViewModel.swift:47-52 | `filled` is the number of indices whose fetch succeeded |
| DetailViewModel.FillSlots | PokemonApp/Presentation/Features/PokemonDetail/PokemonDetailViewModel.swift:46-53 | whatever the completion order, the array ends as the slots and `filled` as the success count |
| DetailViewModel.AllSucceedPublishedInOrder | PokemonAppTests/ViewModels/PokemonDetailViewModelTests.swift:55-84 | when every fetch succeeds, image i is the provider's image for URL i |
| DetailViewModel.AllOkCount | PokemonApp/Presentation/Features/PokemonDetail/PokemonDetailViewModel.swift:47-52 | when every fetch succeeds, `filled` equals the URL count |
| DetailViewModel.PlaceholderPublished | PokemonApp/Presentation/Features/PokemonDetail/PokemonDetailViewModel.swift:46-54 | a failed fetch whose index is below `filled` is published as the placeholder |
| DetailViewModel.MiddleFailureExample | PokemonApp/Presentation/Features/PokemonDetail/PokemonDetailViewModel.swift:46-54 | as written, [ok a, failure, ok c] publishes [a, placeholder] |
| DetailViewModel.Compacted | PokemonApp/Presentation/Features/PokemonDetail/PokemonDetailViewModel.swift:46-54 | corrected: as many images as fetches succeeded |
| DetailViewModel.CompactedMembers | PokemonApp/Presentation/Features/PokemonDetail/PokemonDetailViewModel.swift:46-54 | corrected: every successful image is published, and every published image is one that succeeded |
| DetailViewModel.CompactedMiddleFailure | PokemonApp/Presentation/Features/PokemonDetail/PokemonDetailViewModel.swift:46-54 | corrected, [ok a, failure, ok c] publishes [a, c] |
| DetailViewModel.AllOkCompacted | PokemonApp/Presentation/Features/PokemonDetail/PokemonDetailViewModel.swift:46-54 | corrected and all fetches succeeding, the images are published in URL order |
| DetailViewModel.PublishedIsCompactedWhenFailuresTrail | PokemonApp/Presentation/Features/PokemonDetail/PokemonDetailViewModel.swift:46-54 | the as-written prefix agrees with the compacted list whenever every failure comes after every success |
| DetailViewModel.SaveAllToastCount | PokemonApp/Presentation/Features/PokemonDetail/PokemonDetailViewModel.swift:70 | the success toast reads "Saved N images", and N parses back to the image count |
| DetailViewModel.DeniedToast | PokemonAppTests/UseCases/SaveImageToPhotosUseCaseTests.swift:74-104 | without permission both saves toast "Photos permission denied" |
| DetailViewModel.FailureToastNonEmpty | PokemonApp/Presentation/Features/PokemonDetail/PokemonDetailViewModel.swift:58-74 | a failed save toasts a non-empty message |
| DetailViewModel.PokemonDetailViewModel.constructor | PokemonApp/Presentation/Features/PokemonDetail/PokemonDetailViewModel.swift:21-31 | keeps the detail, use case and provider; no images, not loading, no toast |
| DetailViewModel.PokemonDetailViewModel.LoadFromCache | PokemonApp/Presentation/Features/PokemonDetail/PokemonDetailViewModel.swift:33-56 | a no-op when images exist; otherwise images become the published prefix of the slots; isLoading ends false |
| DetailViewModel.PokemonDetailViewModel.Save | PokemonApp/Presentation/Features/PokemonDetail/PokemonDetailViewModel.swift:58-65 | the toast is "Saved to Photos" on success and the humanized error otherwise; images are unchanged |
| DetailViewModel.PokemonDetailViewModel.SaveAll | PokemonApp/Presentation/Features/PokemonDetail/PokemonDetailViewModel.swift:67-74 | the current images are passed to the batch save; the toast follows the outcome; images are unchanged |
| DetailViewModel.PokemonDetailViewModel.InjectImagesForTesting | PokemonApp/Presentation/Features/PokemonDetail/PokemonDetailViewModel.swift:79-81 | images become the given list and nothing else changes |

The classes follow the code as written: `LoadFromCache` publishes `prefix(filled)` and `Perform` re-wraps its own errors. The corrected definitions under "## Findings" are proved beside them.

## Left out

- Concurrency is not modelled: actor isolation, `@MainActor`, `Task.detached` and task groups. Each operation runs to completion in one step. So the intermediate `isLoading`, `isPaging` and `isRefreshing` values seen by the UI while a fetch is in flight are not observable. Nor is the claim that concurrent callers share one download; only the sequential rule "consult the in-flight table before fetching" is modelled.
- ImageCache.Preheat: the child tasks run concurrently in the source, and `waitForAll` rethrows the first error to arrive after all of them finish. The model looks the URLs up one after another in URL order, so "first to arrive" becomes "first in URL order". A URL listed twice shares one in-flight task in the source; in the model the second lookup sees the state the first one left.
- ImageCache.ImageCache.ImageFor: the in-flight table holds a task's settled outcome, and a lookup's own entry is removed before it returns. Awaiting a task that is still running is not modelled.
- NSCache eviction (`countLimit = 228`) is foreign code. The memory tier never evicts, and no capacity bound is claimed.
- The disk file name is derived from `String.hashValue`, which is seeded per process. It becomes an arbitrary key function, which may collide.
- These become oracles:
  - UIImage decoding and screen scale;
  - `JSONSerialization`, `JSONDecoder` and `URL(string:)`.
- A JSON object is a sequence of members in the order the parser yields them. Objects coming from `JSONSerialization` have unique keys, and the model does not state that as a requirement: with a duplicate key, `Lookup` takes its first occurrence while the scan visits every member. Swift's `Dictionary` order is unspecified, so the scan's order among sibling keys is whatever the parser oracle yields.
- `String.capitalized` and `lowercased()` are locale-aware Unicode in Swift. The model uses ASCII case mapping: words start after a space, tab or newline. Foundation also starts a word after a hyphen, so a hyphenated species such as "mr-mime" capitalizes to "Mr-Mime" in the app but to "Mr-mime" in the model.
- URLs are strings, compared as strings. `deletingPathExtension` and `lastPathComponent` are approximated on the string: trailing slashes are trimmed, the text after the last slash is taken, and the extension after the last dot is dropped.
- `localizedDescription` comes from Foundation. It is modelled as a fixed generic text for errors that Foundation does not describe itself (`GenericDescription`), and as a carried text for URL and NSError values. The `@unknown default` decoding case has no model value.
- Swift's `Int` is 64-bit, and `page * pageSize` could overflow in principle. Integers are unbounded here. The decimal round-trip lemmas require values within the 64-bit range.
- Repository.Detail requires that the detail URL parses. The source force-unwraps `URL(string:)` and would crash on a name that does not parse.
- The forwarders have no logic of their own, so they are not part of this model:
  - `FetchPokemonPageUseCase`, `FetchPokemonDetailUseCase`, `PreloadSpritesUseCase`;
  - `ImageRepositoryImpl`;
  - the repository and client protocols.
- The views, the Photos framework wrappers and the dependency container are not part of this model: `PokemonListScreen`, `PokemonDetailScreen` (with its toast timer), `PokeballSpinner`, `RefreshButton`, `ToastView`, `PhotoLibraryService`, `PhotoLibraryClient`, `PhotoAssetWriter`, `DIContainer`, `DIEnvironment` and `PokemonApp`. The Photos service appears only as the authorize/save oracle of the use case.
- The request's cache policy, `reloadIgnoringLocalCacheData`, has no observable effect in the model.

## Findings

| source | as written | input that shows it | evidently intended | confidence | as-written member | corrected member |
|---|---|---|---|---|---|---|
| PokemonApp/Presentation/Features/PokemonDetail/PokemonDetailViewModel.swift:46-54 | images are written to slot i of a preallocated array, and then `prefix(filled)` is published | three sprite URLs whose fetches give success a, failure, success c | publish the successful images compacted: [a, c] | not executed | DetailViewModel.MiddleFailureExample | DetailViewModel.CompactedMiddleFailure |
| PokemonApp/Core/Networking/APIClient.swift:29-41 | `badStatus` and `decoding`, thrown inside the `do` block, are caught by its own catch-all and re-wrapped as `transport(...)` | an HTTP 404 response | the caller receives `badStatus(404)`, shown as "Bad status code: 404" | not executed | ApiClient.BadStatusesIndistinguishable | ApiClient.IntendedBadStatusMessage |
