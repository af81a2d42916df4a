# PluginEngine in Dafny

A model of the core of swift-setup/PluginEngine. PluginEngine is a Swift package that lets a macOS application load plugins: dynamic libraries found on disk or fetched from the releases of a GitHub repository. The model covers five parts.

- **The plugin engine** (`plugin_engine.dfy`, module `Engine`). `PluginEngine` is a class. Its fields are the ordered plugin list, the plugin in use, the `isLoadingRemote` flag, and a ghost log. The log records what the engine does outside itself: confirmation dialogs, alerts, native loader calls, builder calls, the plugins' `setup`/`onUse` hooks, and remote fetches. The class has `addPlugin`, `addPluginBuilder`, both `removePlugin`s, `load(path:)`, `load(url:version:)`, `update` and the three `use`s. Their list effects are stated against functions on `seq<Plugin>`. Lemmas about those functions prove two things. First, no two listed plugins ever share a bundle identifier. Second, on such a list, "remove every match" (`removePlugin(plugin:)`) and "remove the first match" (`removePlugin(bundleId:)`) coincide.
- **The GitHub remote client** (`github_client.dfy`, modules `GitHubClient` and `GitHubLoading`).
  - `getRepoName` is a function on strings. It is proved to capture the leftmost maximal run of non-whitespace after `github.com/`, with every `.git` removed.
  - The readme search is a function of the network's successive answers. The `getReadme` loop is proved against it: the candidates are tried in order, the first 200 wins, a thrown request aborts, and nil comes only after four misses.
  - `load(from:version:)` downloads the release archive before anything else. A failed download stops it before any readme request.
  - The network is a `Network` object that replays a script of answers and logs every request. The file system is a `Disk` object holding a map.
- **`Version`** (`package.dfy`). The initializer's precondition is modelled, and so is its discarding of the identifier lists. `==` and `<` are modelled as written. `<` is proved to be a strict total order up to `==`. `toString` is proved to be injective exactly up to `==` on initialized versions.
- **The per-plugin key-value store** (`store_utils.dfy`). This is `UserDefaultStore` over a `map`. It has the key namespacing of `getKeyName`, and a typed `get` that fails on a value of another type.
- **`URL.absoluteFilePath`** (`file_url.dfy`).

Shared datatypes live in `wrappers.dfy` (`Option`, `Result`, `Outcome`) and `types.dfy` (`Plugin`, `PluginRepo`, the error enums). The string helpers live in `strings.dfy`: `replacingOccurrences(of:with: "")`, decimal rendering of integers, and the whitespace class of `\S`.

Where the code and its documentation or tests disagree, the model follows the code:

- `removePlugin(bundleId:)` (`Sources/PluginEngine/Engine/PluginEngine.swift:76-78`) is documented as clearing the plugin in use. It does not. `Engine.RemovingThePluginInUse` shows the engine still using a plugin that is no longer listed.
- `testLoadWithConfirm` (`Tests/PluginEngineTests/PluginEngineTests.swift:68`) expects two plugins after two confirmed loads. The loaded plugins share the bundle identifier `test`, so `addPlugin` keeps one. `Engine.RepeatedLoadsOfOneBundle` proves the count is one.
- In `testRender`, the second plugin is never listed. `use(id:)` on it throws; see `Engine.SharedBundleIdentifier`.
- `load(from:version:)` always reports `./file.dylib` and version 1.1.1. Some tests (`GithubRemotePluginClientTests.swift:164`) expect a path built from the version. Those tests also call APIs that this source does not have (`getArch`, `unzip`, a `zipClient`).
- `PluginEngineTests.swift:51` and `:74` build the engine as `PluginEngine(pluginUtils:nsPanelUtils:)`. The source's `init` (`Sources/PluginEngine/Engine/PluginEngine.swift:21-24`) takes `pluginUtils` and `remotePluginLoader` only; the panel can be supplied only through `setup(fileUtils:nsPanelUtils:storeUtils:)` (lines 27-31).

## Model

| member | source | states |
|---|---|---|
| Strings.RemoveAll | Sources/PluginEngine/Remote/GithubRemorePluginClient.swift:55 | removing every occurrence of a pattern never lengthens a string and only keeps characters of the input |
| Strings.RemoveAllAbsent | Sources/PluginEngine/Remote/GithubRemorePluginClient.swift:55 | a string with no occurrence of the pattern is returned unchanged |
| Strings.RemoveAllSkipsPrefix | Sources/PluginEngine/Remote/GithubRemorePluginClient.swift:55 | a prefix without the pattern's first character passes through unchanged; removal continues on the rest |
| Strings.RemoveAllLeading | Sources/PluginEngine/Extensions/URL/FileURLToPath.swift:17 | a leading occurrence of the pattern is removed |
| Strings.Decimal | Sources/PluginEngine/Types/Package.swift:87 | the decimal rendering of a natural is a non-empty string of digits without a leading zero (except for 0) |
| Strings.ParseDecimalOfDecimal | Sources/PluginEngine/Types/Package.swift:87 | reading the rendering back yields the number |
| Strings.DecimalInjective | Sources/PluginEngine/Types/Package.swift:87 | two naturals have the same rendering if and only if they are equal |
| Package.Init | Sources/PluginEngine/Types/Package.swift:38-45 | callable only with non-negative components; keeps them and drops both identifier lists whatever was passed |
| Package.LessIsLexicographic | Sources/PluginEngine/Types/Package.swift:71-82 | `Less` (the cascade of `<`) is exactly the lexicographic order on (major, minor, patch) |
| Package.EqualIsEquivalence | Sources/PluginEngine/Types/Package.swift:59-61 | `Equal` (`==`) is reflexive, symmetric and transitive |
| Package.EqualIgnoresIdentifiers | Sources/PluginEngine/Types/Package.swift:59-61 | `==` ignores the pre-release and build identifiers |
| Package.LessIsStrictTotalOrder | Sources/PluginEngine/Types/Package.swift:59-82 | `<` is irreflexive, transitive and asymmetric, and exactly one of `a < b`, `a == b`, `b < a` holds |
| Package.LessRespectsEqual | Sources/PluginEngine/Types/Package.swift:59-82 | replacing either side of `<` by an `==` version does not change the answer |
| Package.ToStringOfConstructed | Sources/PluginEngine/Types/Package.swift:86-95 | `ToString` (`toString`, with `Join` for `joined(separator:)`) renders an initialized version as `major.minor.patch` in decimal, with digits and dots only |
| Package.ToStringOneZeroZero | Sources/PluginEngine/Types/Package.swift:86-95 | `Version(1, 0, 0)` renders as `1.0.0` |
| Package.ToStringEndsInDigit | Sources/PluginEngine/Types/Package.swift:86-95 | an initialized version renders as a non-empty string ending in a digit, so appending a path component after it inserts a `/` |
| Package.TripleInjective | Sources/PluginEngine/Types/Package.swift:87 | a string is the rendering of at most one (major, minor, patch) triple |
| Package.EqualIffSameString | Sources/PluginEngine/Types/Package.swift:59-95 | two initialized versions are `==` if and only if `toString` renders them alike |
| FileUrl.AbsoluteFilePath | Sources/PluginEngine/Extensions/URL/FileURLToPath.swift:14-21 | nil exactly for URLs that are not file URLs; otherwise a string no longer than the absolute string |
| FileUrl.AbsoluteFilePathWithoutScheme | Sources/PluginEngine/Extensions/URL/FileURLToPath.swift:17 | a file URL whose absolute string has no `file://` yields that string unchanged |
| FileUrl.AbsoluteFilePathOfDirectory | Tests/PluginEngineTests/FileUtilsTests.swift:29-30 | `file:///usr/files/` yields `/usr/files/` |
| StoreUtils.PluginKeyDiffersFromGlobal | Sources/PluginEngine/Engine/Utils/StoreUtils.swift:16-21 | `KeyName` (`getKeyName`) never gives a plugin's key the same name as the global key |
| StoreUtils.NamespaceCollision | Sources/PluginEngine/Engine/Utils/StoreUtils.swift:16-21 | the key `b` of plugin `a` is the global key `a.b`: the namespaces can collide |
| StoreUtils.GetAfterSet | Sources/PluginEngine/Engine/Utils/StoreUtils.swift:23-37 | after `set`, `get` with the value's type returns the value. `Lookup` stands for `value as? T` on the map, as the specification function these lemmas are stated over |
| StoreUtils.GetOtherTypeAfterSet | Sources/PluginEngine/Engine/Utils/StoreUtils.swift:31-37 | after `set`, `get` with another type returns nil |
| StoreUtils.GetAfterRemove | Sources/PluginEngine/Engine/Utils/StoreUtils.swift:27-37 | after `removeObject`, `get` returns nil for every type |
| StoreUtils.PluginValueHiddenFromGlobal | Tests/PluginEngineTests/StoreUtilsTests.swift:37-45 | a value set for a plugin does not change what the global key reads |
| StoreUtils.UserDefaultStore.constructor | Sources/PluginEngine/Engine/Utils/StoreUtils.swift:12-14 | binds to the shared defaults database, whose current contents are the constructor's argument |
| StoreUtils.UserDefaultStore.Set | Sources/PluginEngine/Engine/Utils/StoreUtils.swift:23-37 | stores the value under the namespaced key and changes no other key. Afterwards `Get` with the value's type returns it and `Get` with any other type returns nil. Every key with another namespaced name reads as before; for a plugin, that includes the same key without a plugin |
| StoreUtils.UserDefaultStore.RemoveObject | Sources/PluginEngine/Engine/Utils/StoreUtils.swift:27-37 | the namespaced key is gone, so `Get` returns nil for every type; every key with another namespaced name reads as before |
| StoreUtils.PluginScopedValue | Tests/PluginEngineTests/StoreUtilsTests.swift:37-45 | on a fresh store, a value set for a plugin reads back for that plugin and reads nil without it |
| GitHubClient.Network.GetRequest | Sources/PluginEngine/Remote/GithubRemorePluginClient.swift:10-12 | each request is logged and consumes the next scripted answer |
| GitHubClient.Disk.Write | Sources/PluginEngine/Remote/GithubRemorePluginClient.swift:65-66 | the file at the path holds the data; other files are unchanged |
| GitHubClient.FindMarker | Sources/PluginEngine/Remote/GithubRemorePluginClient.swift:50-52 | finds the leftmost position from which `github.com/` is followed by a non-whitespace character, or reports there is none |
| GitHubClient.NonSpaceRun | Sources/PluginEngine/Remote/GithubRemorePluginClient.swift:50 | the longest prefix without whitespace (`\S+`) |
| GitHubClient.Capture | Sources/PluginEngine/Remote/GithubRemorePluginClient.swift:50-54 | the regex matches exactly when some `github.com/` is followed by a non-whitespace character; the group is non-empty and has no whitespace |
| GitHubClient.GetRepoName | Sources/PluginEngine/Remote/GithubRemorePluginClient.swift:49-58 | nil exactly when the regex does not match; a repository name never contains whitespace |
| GitHubClient.CaptureIsLeftmostMaximalRun | Sources/PluginEngine/Remote/GithubRemorePluginClient.swift:50-54 | the captured group starts right after the leftmost match of `github.com/` and is the maximal non-whitespace run there |
| GitHubClient.RepoNameIsCaptureWithoutGit | Sources/PluginEngine/Remote/GithubRemorePluginClient.swift:55 | a group without `.git` is the repository name unchanged |
| GitHubClient.CaptureAfterHost | Sources/PluginEngine/Remote/GithubRemorePluginClient.swift:50-54 | for `scheme + "github.com/" + rest` with a non-whitespace `rest`, the group is `rest` |
| GitHubClient.NoRepoNameAtBareHost | Sources/PluginEngine/Remote/GithubRemorePluginClient.swift:53-57 | a URL ending at the host has no repository name |
| GitHubClient.RepoNameOfBareHost | Tests/PluginEngineTests/GithubRemotePluginClientTests.swift:102-106 | `https://github.com` has no repository name |
| GitHubClient.RepoNameOfPlainUrl | Tests/PluginEngineTests/GithubRemotePluginClientTests.swift:90-94 | `https://github.com/owner/name` names `owner/name`, for any scheme without `g` and any name without whitespace or `.git` |
| GitHubClient.RepoNameOfGitUrl | Tests/PluginEngineTests/GithubRemotePluginClientTests.swift:96-100 | `https://github.com/owner/name.git` names `owner/name` |
| GitHubClient.RepoNameOfTestUrls | Tests/PluginEngineTests/GithubRemotePluginClientTests.swift:90-100 | `https://github.com/swift-setup/PluginEngine` with or without `.git` names `swift-setup/PluginEngine` |
| GitHubLoading.AppendPath | Sources/PluginEngine/Remote/GithubRemorePluginClient.swift:40 | for a base URL with no query or fragment, appending a path component keeps the base URL as a prefix |
| GitHubLoading.ReadmeUrls | Sources/PluginEngine/Remote/GithubRemorePluginClient.swift:79-86 | one raw-content URL (`ReadmeUrl`: host, repository, version, name) per readme name, in the order `README.md`, `README`, `readme.md`, `readme` |
| GitHubLoading.ReadmeUrlShape | Sources/PluginEngine/Remote/GithubRemorePluginClient.swift:79-86 | for a non-empty repository name that does not end in `/` and an initialized version, each candidate is exactly `https://raw.githubusercontent.com/{repo}/{version}/{name}`: one slash between parts, none doubled |
| GitHubLoading.FirstReadmeUrlExample | Tests/PluginEngineTests/GithubRemotePluginClientTests.swift:114-121 | the first URL tried for `swift-setup/PluginEngine` at 1.0.0 ends in `swift-setup/PluginEngine/1.0.0/README.md` |
| GitHubLoading.ScanReadme | Sources/PluginEngine/Remote/GithubRemorePluginClient.swift:89-97 | the search makes at least one and at most four requests |
| GitHubLoading.ScanStopsAtFirstHit | Sources/PluginEngine/Remote/GithubRemorePluginClient.swift:89-95 | the first answer that is not a non-200 response ends the search: a body on 200, the thrown error otherwise |
| GitHubLoading.ScanExhausted | Sources/PluginEngine/Remote/GithubRemorePluginClient.swift:89-97 | four non-200 answers give nil after four requests |
| GitHubLoading.ScanNilOnlyWhenExhausted | Sources/PluginEngine/Remote/GithubRemorePluginClient.swift:89-97 | nil only when all four candidates missed |
| GitHubLoading.ScanExample | Tests/PluginEngineTests/GithubRemotePluginClientTests.swift:132-138 | two misses then a hit give the body after three requests |
| GitHubLoading.GitHubRemotePluginClient.constructor | Sources/PluginEngine/Remote/GithubRemorePluginClient.swift:29-33 | keeps the injected network client; the file system and the temporary directory are given alongside it |
| GitHubLoading.GitHubRemotePluginClient.DownloadPackage | Sources/PluginEngine/Remote/GithubRemorePluginClient.swift:60-67 | one request; a non-200 answer is a download error; a thrown request is rethrown; on 200 the data is written to the target path |
| GitHubLoading.GitHubRemotePluginClient.RequestFirstFound | Sources/PluginEngine/Remote/GithubRemorePluginClient.swift:89-97 | requests the candidate URLs in order, exactly as many as the readme search consumes, and returns its result |
| GitHubLoading.GitHubRemotePluginClient.GetReadme | Sources/PluginEngine/Remote/GithubRemorePluginClient.swift:69-98 | an unrecognised URL throws an invalid-repo-name error before any request; otherwise the readme search over that repository's URLs |
| GitHubLoading.GitHubRemotePluginClient.Load | Sources/PluginEngine/Remote/GithubRemorePluginClient.swift:36-47 | first requests the release archive at `ReleasePath` (`releases/download/{version}/macos_arm64.zip`). A throw or non-200 answer fails with no further request and no write. On 200 the archive is written to the temporary directory. Next, an unrecognised URL fails with invalid-repo-name. Otherwise the readme URLs are requested as the readme search says. The search's error is passed on; its success yields `./file.dylib`, version 1.1.1 and the readme or `No readme`. Each branch states the answers left unconsumed: one answer is used by the download, and the readme search uses as many as it made requests |
| Engine.FirstIndex | Sources/PluginEngine/Engine/PluginEngine.swift:81-83 | the index of the first plugin that matches, or none exactly when none matches |
| Engine.RemoveAllWithBundleId | Sources/PluginEngine/Engine/PluginEngine.swift:70-72 | keeps exactly the plugins whose bundle identifier differs |
| Engine.FirstIndexFindsBundleId | Sources/PluginEngine/Engine/PluginEngine.swift:46 | the search by bundle identifier succeeds if and only if some plugin has it |
| Engine.FirstIndexFindsId | Sources/PluginEngine/Engine/PluginEngine.swift:170-172 | the search by identity succeeds if and only if some plugin has it |
| Engine.AppendUniqueKeepsDistinct | Sources/PluginEngine/Engine/PluginEngine.swift:45-51 | `AppendUnique` (the list after `addPlugin`) keeps bundle identifiers distinct and leaves the added identifier present |
| Engine.AppendUniqueIdempotent | Sources/PluginEngine/Engine/PluginEngine.swift:45-51 | adding the same plugin twice is adding it once |
| Engine.RemoveAllSplits | Sources/PluginEngine/Engine/PluginEngine.swift:70-72 | removal by bundle identifier distributes over concatenation, so kept plugins stay in order |
| Engine.RemoveAllAbsent | Sources/PluginEngine/Engine/PluginEngine.swift:70-72 | removing an absent bundle identifier changes nothing |
| Engine.RemoveAllIsRemoveFirst | Sources/PluginEngine/Engine/PluginEngine.swift:66-88 | with distinct bundle identifiers, removing all matches equals removing the first match |
| Engine.RemoveAt | Sources/PluginEngine/Engine/PluginEngine.swift:87 | `remove(at:)` drops exactly the element at the index: the elements before it stay where they were and those after it move down one |
| Engine.RemoveAtKeepsDistinct | Sources/PluginEngine/Engine/PluginEngine.swift:87 | removing one plugin keeps bundle identifiers distinct |
| Engine.RemoveAllKeepsDistinct | Sources/PluginEngine/Engine/PluginEngine.swift:70-72 | removing all matches keeps bundle identifiers distinct |
| Engine.PluginEngine.constructor | Sources/PluginEngine/Engine/PluginEngine.swift:21-24 | a new engine lists no plugin, uses none and is not loading |
| Engine.PluginEngine.AddPlugin | Sources/PluginEngine/Engine/PluginEngine.swift:45-51 | a known bundle identifier leaves the list as it is; otherwise the plugin is appended |
| Engine.PluginEngine.AddPluginBuilder | Sources/PluginEngine/Engine/PluginEngine.swift:57-60 | builds once and adds the built plugin as `addPlugin` does |
| Engine.PluginEngine.RemovePlugin | Sources/PluginEngine/Engine/PluginEngine.swift:66-73 | drops every plugin with the bundle identifier; clears the plugin in use exactly when it has that identifier |
| Engine.PluginEngine.RemovePluginByBundleId | Sources/PluginEngine/Engine/PluginEngine.swift:80-88 | throws not-found, changing nothing, exactly when no plugin has the identifier; otherwise the list shrinks by one and no longer has it; the plugin in use is untouched |
| Engine.PluginEngine.Load | Sources/PluginEngine/Engine/PluginEngine.swift:95-109 | without auto-confirm the user is asked; a refusal alerts and returns nil with no change; otherwise the loaded plugin is returned and, with auto-add, added |
| Engine.PluginEngine.LoadRemote | Sources/PluginEngine/Engine/PluginEngine.swift:119-133 | an invalid URL throws before any fetch; the fetch runs with the loading flag raised; its error is rethrown; the flag is down on every exit; the list never changes |
| Engine.PluginEngine.Update | Sources/PluginEngine/Engine/PluginEngine.swift:144-159 | as the remote load, but the old plugin is removed only after a successful fetch; a missing one is a not-found error; on success the bundle identifier is no longer listed |
| Engine.PluginEngine.Use | Sources/PluginEngine/Engine/PluginEngine.swift:198-202 | runs `setup` then `onUse` and makes the plugin current |
| Engine.PluginEngine.UseId | Sources/PluginEngine/Engine/PluginEngine.swift:169-177 | throws not-found exactly when no plugin has the identity; otherwise uses the first plugin with it |
| Engine.PluginEngine.UseName | Sources/PluginEngine/Engine/PluginEngine.swift:184-192 | throws not-found exactly when no plugin has the bundle identifier; otherwise uses the first plugin with it |
| Engine.RepeatedLoadsOfOneBundle | Tests/PluginEngineTests/PluginEngineTests.swift:48-69 | two confirmed loads and one refused load of one bundle: three confirmations, one alert, one plugin listed |
| Engine.SharedBundleIdentifier | Tests/PluginEngineTests/PluginEngineTests.swift:72-90 | a second plugin with a listed bundle identifier is not listed: by name the first is used, by its identity `use` throws |
| Engine.RemovingThePluginInUse | Sources/PluginEngine/Engine/PluginEngine.swift:62-88 | removing the plugin in use by plugin clears it; removing it by bundle identifier leaves it in use though unlisted |

## Left out

- `render` and `renderSettings`: SwiftUI view construction, with no state change.
- `setup(fileUtils:nsPanelUtils:storeUtils:)`: the model assumes it was called before any `load`. `fileUtils`, `nsPanelUtils` and `storeUtils` are implicitly unwrapped optionals that `init` leaves `nil` (`Sources/PluginEngine/Engine/PluginEngine.swift:12-14`, `21-24`). Without `setup`, `load(path:)` traps when it shows the confirmation dialog or calls the native loader (lines 97 and 103). The model does not show that trap.
- Native loading (`PluginUtils.load`, `dlopen`/`dlsym` and its `fatalError`s): the loaded plugin is a parameter of `Engine.PluginEngine.Load`.
- The builder's `build(fileUtils:nsPanelUtils:storeUtils:)`: `AddPluginBuilder` takes the built plugin.
- Dialogs (`NSPanelUtils.confirm`/`alert`): the user's answer is a parameter, and the calls are logged in the ghost log.
- Plugins are reduced to their `id` and bundle identifier. The `setup` and `onUse` hooks appear only as log entries.
- `URL(string:)` is a boolean parameter (`urlIsValid`). The engine's remote loader (`RemotePluginLoadingProtocol`) is a parameter holding its result, because it is injected. The GitHub client is modelled separately.
- Swift `async` and concurrency: each method runs to completion. The model does not cover interleavings, which include another call while `isLoadingRemote` is true.
- `URLSession`, HTTP and `Data`: an answer is a status code and a body string, or a thrown error. `String(data:encoding:)!` crashing on invalid UTF-8 is not modelled.
- `FileManager.default.temporaryDirectory` is a constructor parameter of the client. A failing `Data.write` is not modelled.
- GitHubLoading.AppendPath: inserts a `/` unless the base already ends with one. It does not model `appendingPathComponent`'s percent-encoding, or how the component's own slashes are normalised. It also does not model a base URL with a query or fragment. Foundation inserts the component into the path, before the `?` or `#`; the model appends it after them. So for such a remote URL, the download URL the model logs differs from the source's.
- GitHubClient.GetRepoName: `\S` is taken as the complement of the Unicode White_Space property. `NSRegularExpression`'s UTF-16 ranges are taken as character positions.
- UserDefaults persistence, `nil` values passed to `set`, and bridging between Swift types: values are a closed sum of string, integer, boolean and data.
- `Int` is unbounded here. Version components beyond 64 bits are not a concern of the source.
- Version's `Codable` conformance, `Archs`, and `LocalizedError` descriptions: no behaviour of the core depends on them.
