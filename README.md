# GameDNS core in Dafny

GameDNS is an Android app that speed-tests public DNS servers, picks the fastest, and routes the device's DNS traffic through the chosen server with a local VPN interface. This project models the app's logic and proves properties of that model:

- **Speed tests** (`DnsTestService`): one test folds its timed lookups into a `DnsTestResult`. A lookup counts only if it succeeded and finished strictly under the timeout. The result gives the truncated mean, the minimum and maximum ping, and the packet loss as an exact rational. There is a degraded result when nothing counted.
- **Testing several servers and picking the best** (`DnsTestService`): `testMultipleDns` tests every server in list order. `findBestDns` takes the first successful result with the least average ping (a stable sort followed by `first()`), then looks its server up by id.
- **The use case** (`GetBestDnsUseCase`): `findBest` delegates to `findBestDns`, and `findBestForGaming` does the same with the gaming preset.
- **The VPN session** (`GameDnsVpn`): the builder configuration, and the life cycle of `isRunning`, `currentDnsServer`, the interface and the packet thread. This is a class whose methods are proved against pure transition functions.
- **The home screen controller** (`HomeViewModels`): toggling the connection, showing per-server test results, and finding the best server. Also a class over its `HomeUiState`.
- **Catalogs and pure helpers** (`DnsServers`, `GameProfiles`, `GamesViewModels`, `DnsTestResults`, `ConnectionStatsModel`):
  - lookups in the server and game catalogs;
  - the names of the servers a game recommends;
  - the quality and stability ratings;
  - the duration and data-usage texts.

Kotlin semantics the model spells out:

- `Long` is `int`.
- `/` and `%` truncate toward zero (`KotlinLong.Quot`, `KotlinLong.Rem`).
- `repeat(n)` runs nothing when `n <= 0`.
- `average().toLong()` is the truncated quotient of the sum by the count.
- A string template of a number is its decimal text (`KotlinLong.IntToString`).

What the outside world decides is a parameter of the model:

- whether each lookup succeeded, and how many milliseconds it took (`Sample`);
- the clock reading that stamps a result;
- what `establish()` returns, or whether it throws (`EstablishOutcome`);
- how a call into the connection helper ends (`CallOutcome`);
- how a speed test launched from the home screen ends (`TestCall`);
- the simulated ping of the monitor (a value in 10..50).

Generic list functions with their lemmas live in `Lists`:

- Kotlin's `filter`, `find`, `mapNotNull`, stable `sortedBy` and `minByOrNull`;
- the "first least element" `FirstMinWhere`.

## Model

| member | source | states |
|---|---|---|
| DnsTestResults.QualityRating | app/src/main/java/com/gamedns/data/model/DnsTestResult.kt:22-31 | The rating is `Failed` exactly when the test failed.<br>Otherwise it is Excellent, Good, Fair, Poor or VeryPoor exactly on the avgPing bands <20, 20–49, 50–99, 100–199 and ≥200. |
| DnsTestResults.QualityMonotone | app/src/main/java/com/gamedns/data/model/DnsTestResult.kt:22-31 | A slower successful result never earns a better rating, and a failed one is rated worst. |
| DnsTestResults.FormattedPing | app/src/main/java/com/gamedns/data/model/DnsTestResult.kt:36-42 | The text is "Failed" for a failed test; otherwise it ends in "ms". |
| DnsTestResults.FormattedPingReadsBack | app/src/main/java/com/gamedns/data/model/DnsTestResult.kt:36-42 | On success, the text before "ms" parses back to avgPing. |
| DnsTestResults.StabilityScore | app/src/main/java/com/gamedns/data/model/DnsTestResult.kt:47-58 | The score is one of 0, 20, 40, 60, 80 and 100.<br>It is 0 exactly on failure; otherwise it is 100/80/60/40/20 on the max−min bands <10, <30, <50, <100 and above. |
| DnsTestResults.StabilityMonotone | app/src/main/java/com/gamedns/data/model/DnsTestResult.kt:47-58 | A wider ping spread never yields a higher stability score. |
| DnsTestResults.DefaultConfig | app/src/main/java/com/gamedns/data/model/DnsTestResult.kt:74-79 | The defaults are 5 tests, a 5000 ms timeout, "www.google.com" and a 100 ms pause. |
| ConnectionStatsModel.DurationShowsLeadingUnits | app/src/main/java/com/gamedns/data/model/ConnectionStats.kt:19-29 | For a non-negative duration, the text shows hours and minutes from one hour up, minutes and seconds from one minute up, and seconds otherwise.<br>Every shown part is the truncated division of the duration, and every trailing part is below 60. |
| ConnectionStatsModel.DurationTextReadsBack | app/src/main/java/com/gamedns/data/model/ConnectionStats.kt:19-29 | The formatted duration reads back to the parts `ShowDuration` picks.<br>"h "/"m", "m "/"s" or a final "s" sit where the units go, and the numbers around them parse back to the hours and minutes, the minutes and seconds, or the seconds. |
| ConnectionStatsModel.NegativeDurationShowsSeconds | app/src/main/java/com/gamedns/data/model/ConnectionStats.kt:19-29 | A negative duration is shown as seconds, truncated toward zero. |
| ConnectionStatsModel.DataUsageBands | app/src/main/java/com/gamedns/data/model/ConnectionStats.kt:34-41 | The unit is B, KB, MB or GB on the bands below 1024, 1024², 1024³ and above.<br>The number is `dataUsed` truncated-divided by the unit size, and it lies in [1, 1023] in the KB and MB bands. |
| ConnectionStatsModel.DataUsageTextReadsBack | app/src/main/java/com/gamedns/data/model/ConnectionStats.kt:34-41 | The formatted data usage ends in the unit suffix of the chosen band, and the text before it parses back to the shown number. |
| ConnectionStatsModel.ConnectionQualityOf | app/src/main/java/com/gamedns/data/model/ConnectionStats.kt:46-56 | The quality is `NotConnected` exactly when not connected.<br>Otherwise it is Excellent, Good, Fair, Poor or VeryPoor exactly on the currentPing bands <20, 20–49, 50–99, 100–199 and ≥200. |
| ConnectionStatsModel.QualityScalesAgree | app/src/main/java/com/gamedns/data/model/ConnectionStats.kt:46-56 | A connection's quality ranks the same as a test result's rating when the ping and the success agree. |
| DnsServers.Predefined | app/src/main/java/com/gamedns/data/model/DnsServer.kt:15-17 | A catalog entry is not custom, not a favourite, and has no test result. |
| DnsServers.GetById | app/src/main/java/com/gamedns/data/model/DnsServer.kt:141-143 | The result is a catalog server with that id; it is null exactly when no catalog server has the id. |
| DnsServers.CatalogIds | app/src/main/java/com/gamedns/data/model/DnsServer.kt:30-135 | The catalog has 11 servers, and server k has id k+1. |
| DnsServers.CatalogNames | app/src/main/java/com/gamedns/data/model/DnsServer.kt:30-135 | The names of the servers that games recommend. |
| DnsServers.CatalogDefaults | app/src/main/java/com/gamedns/data/model/DnsServer.kt:30-135 | No catalog server is custom, a favourite, or tested. |
| DnsServers.GetByIdDefined | app/src/main/java/com/gamedns/data/model/DnsServer.kt:141-143 | `getById(id)` is non-null exactly for ids 1..11, and it is then catalog entry id−1. |
| DnsServers.CatalogCategories | app/src/main/java/com/gamedns/data/model/DnsServer.kt:30-135 | Entries 0–4 are global, 5–8 Iranian and 9–10 gaming; none is custom. |
| DnsServers.CategoriesPartitionCatalog | app/src/main/java/com/gamedns/data/model/DnsServer.kt:137-139 | Each category list is exactly its block of the catalog, in catalog order, and the custom list is empty. |
| DnsServers.GlobalServers | app/src/main/java/com/gamedns/data/model/DnsServer.kt:137-139 | The global list is the first five servers. |
| DnsServers.IranServers | app/src/main/java/com/gamedns/data/model/DnsServer.kt:137-139 | The Iranian list is servers 5..8. |
| DnsServers.GamingServers | app/src/main/java/com/gamedns/data/model/DnsServer.kt:137-139 | The gaming list is servers 9 and 10. |
| DnsServers.CustomServers | app/src/main/java/com/gamedns/data/model/DnsServer.kt:137-139 | The custom list is empty. |
| DnsServers.CategoryBlock | app/src/main/java/com/gamedns/data/model/DnsServer.kt:137-139 | If a category holds exactly the positions lo..hi−1, its list is that slice. |
| DnsServers.ExactlyOneCategory | app/src/main/java/com/gamedns/data/model/DnsServer.kt:137-139 | A catalog server is in a category's list exactly when it has that category. |
| DnsTestService.Iterations | app/src/main/java/com/gamedns/service/DnsTestService.kt:46 | `repeat(testCount)` runs testCount times, or not at all when testCount is not positive. |
| DnsTestService.Recorded | app/src/main/java/com/gamedns/service/DnsTestService.kt:60-66 | No more pings are kept than samples, and each kept ping is below the timeout.<br>The list is empty exactly when no sample is recordable, and it has every sample exactly when all are. |
| DnsTestService.RecordedStep | app/src/main/java/com/gamedns/service/DnsTestService.kt:60-66 | One more sample adds its elapsed time to the kept pings exactly when it is recordable. |
| DnsTestService.RecordedIsFiltered | app/src/main/java/com/gamedns/service/DnsTestService.kt:46-66 | The kept pings are the elapsed times of exactly the successful, in-time samples, in order. |
| DnsTestService.Minimum | app/src/main/java/com/gamedns/service/DnsTestService.kt:81 | `minOrNull` of a non-empty list is an element and is ≤ every element. |
| DnsTestService.Maximum | app/src/main/java/com/gamedns/service/DnsTestService.kt:82 | `maxOrNull` of a non-empty list is an element and is ≥ every element. |
| DnsTestService.SumBetween | app/src/main/java/com/gamedns/service/DnsTestService.kt:80 | The sum of values in [lo, hi] lies between n·lo and n·hi. |
| DnsTestService.TruncatedMean | app/src/main/java/com/gamedns/service/DnsTestService.kt:80 | The truncated average lies between the minimum and the maximum. |
| DnsTestService.PacketLossBounds | app/src/main/java/com/gamedns/service/DnsTestService.kt:83 | The loss is in [0, 100].<br>It is 0 exactly when every test succeeded, and 100 exactly when none did. |
| DnsTestService.SpeedTestResult | app/src/main/java/com/gamedns/service/DnsTestService.kt:79-111 | The result carries the server's id and name, testCount and the stamp.<br>isSuccess holds exactly when some sample was recordable.<br>On success: min ≤ every kept ping ≤ max, min and max are kept pings, min ≤ avg ≤ max < timeout.<br>On failure: avg, min and max are 0 and the loss is 100.<br>The loss is in [0, 100], and 0 exactly when testCount > 0 and every sample was recordable. |
| DnsTestService.SpeedTestStatistics | app/src/main/java/com/gamedns/service/DnsTestService.kt:79-82 | On success, avgPing is the sum of the kept pings divided by their number, truncated toward zero.<br>minPing and maxPing are the minimum and the maximum of the kept pings. |
| DnsTestService.LossComplementsSuccess | app/src/main/java/com/gamedns/service/DnsTestService.kt:83 | The loss plus the percentage of successful iterations is exactly 100. |
| DnsTestService.SpeedTestLoss | app/src/main/java/com/gamedns/service/DnsTestService.kt:79-111 | With at least one iteration, the result's loss plus 100 times the kept pings over testCount is 100, on the success and the failure path. |
| DnsTestService.TestDnsSpeed | app/src/main/java/com/gamedns/service/DnsTestService.kt:36-113 | The loop computes `SpeedTestResult`, and pauses testCount−1 times (never after the last iteration). |
| DnsTestService.MultipleResults | app/src/main/java/com/gamedns/service/DnsTestService.kt:121-139 | There is one result per server, in order, and result i carries server i's id, name and testCount. |
| DnsTestService.TestMultipleDns | app/src/main/java/com/gamedns/service/DnsTestService.kt:121-139 | The loop returns `MultipleResults`, with one 200 ms pause per server. |
| DnsTestService.BestResult | app/src/main/java/com/gamedns/service/DnsTestService.kt:157-162 | It is null exactly when no result succeeded. |
| DnsTestService.BestOf | app/src/main/java/com/gamedns/service/DnsTestService.kt:157-174 | A chosen server is in the list, its id is the best result's server id, and its result is `BestResult`.<br>There is no choice without a best result. |
| DnsTestService.BestResultIsFirstMinimum | app/src/main/java/com/gamedns/service/DnsTestService.kt:157-162 | The sorted head is the first successful result with the least avgPing; ties go to the earliest. |
| DnsTestService.FindDistinctId | app/src/main/java/com/gamedns/service/DnsTestService.kt:163 | With distinct ids, `find` by a server's id returns that server. |
| DnsTestService.BestOfMatchingResults | app/src/main/java/com/gamedns/service/DnsTestService.kt:157-174 | When result i belongs to server i, the choice is null exactly when nothing succeeded.<br>Otherwise it is the first fastest successful result, and with distinct ids it comes with its own server. |
| DnsTestService.BestOfTestedServers | app/src/main/java/com/gamedns/service/DnsTestService.kt:147-175 | The same facts for the results of testing the servers. |
| DnsTestService.FindBestDns | app/src/main/java/com/gamedns/service/DnsTestService.kt:147-175 | The method returns `BestOf` of the tested results. |
| DnsTestService.QualityDescription | app/src/main/java/com/gamedns/service/DnsTestService.kt:255-264 | The text is the "Failed" one exactly on failure, and the "Excellent" one exactly under 20 ms. |
| DnsTestService.DescriptionNamesRating | app/src/main/java/com/gamedns/service/DnsTestService.kt:255-264 | Two results have the same description exactly when they have the same rating. |
| GetBestDnsUseCase.FindBest | app/src/main/java/com/gamedns/domain/usecase/GetBestDnsUseCase.kt:22-27 | It returns exactly what `findBestDns` returns. |
| GetBestDnsUseCase.GamingConfig | app/src/main/java/com/gamedns/domain/usecase/GetBestDnsUseCase.kt:38-42 | The preset is 3 tests, a 3000 ms timeout, a 50 ms pause and the default domain. |
| GetBestDnsUseCase.FindBestForGaming | app/src/main/java/com/gamedns/domain/usecase/GetBestDnsUseCase.kt:34-45 | The result is null exactly when no preset test succeeded.<br>A chosen result succeeded, ran 3 tests, and has min ≤ avg ≤ max < 3000. |
| GetBestDnsUseCase.ThreeAnswersResult | app/src/main/java/com/gamedns/domain/usecase/GetBestDnsUseCase.kt:38-44 | Three answers under 3000 ms give success, avg (a+b+c)/3 and no loss. |
| GetBestDnsUseCase.ThreeAnswersRecorded | app/src/main/java/com/gamedns/service/DnsTestService.kt:60-66 | All three answers are kept, in order. |
| GetBestDnsUseCase.MeanOfThree | app/src/main/java/com/gamedns/service/DnsTestService.kt:80 | The truncated mean of three non-negative pings is their sum divided by 3. |
| GetBestDnsUseCase.SecondFaster | app/src/main/java/com/gamedns/service/DnsTestService.kt:157-174 | Of two successful servers, a strictly faster second one is chosen together with its result. |
| GetBestDnsUseCase.GamingPicksCloudflare | app/src/main/java/com/gamedns/domain/usecase/GetBestDnsUseCase.kt:34-45 | Answers of 30/32/31 ms against 10/12/11 ms pick the second server, with an average of 11 ms. |
| GameProfiles.Game | app/src/main/java/com/gamedns/data/model/GameProfile.kt:15 | A catalog game is not marked installed. |
| GameProfiles.GetByCategory | app/src/main/java/com/gamedns/data/model/GameProfile.kt:174-176 | The list is never longer than the catalog. |
| GameProfiles.GetById | app/src/main/java/com/gamedns/data/model/GameProfile.kt:178-180 | The result is a catalog game with that id; it is null exactly when there is none. |
| GameProfiles.GetByPackageName | app/src/main/java/com/gamedns/data/model/GameProfile.kt:182-184 | The result is a catalog game with that package name; it is null exactly when there is none. |
| GameProfiles.GameIds | app/src/main/java/com/gamedns/data/model/GameProfile.kt:32-172 | The catalog has 14 games, and game k has id k+1. |
| GameProfiles.PackageNamesDistinct | app/src/main/java/com/gamedns/data/model/GameProfile.kt:32-172 | No two games share a package name. |
| GameProfiles.RecommendationsValid | app/src/main/java/com/gamedns/data/model/GameProfile.kt:32-172 | Every game recommends exactly 3 server ids, each in 1..11. |
| GameProfiles.PubgProfile | app/src/main/java/com/gamedns/data/model/GameProfile.kt:32-172 | The first game is PUBG Mobile, which recommends servers 2, 1 and 10. |
| GameProfiles.GetByIdDefined | app/src/main/java/com/gamedns/data/model/GameProfile.kt:178-180 | `getById(id)` is non-null exactly for ids 1..14, and it is then entry id−1. |
| GameProfiles.GetByPackageNameFindsGame | app/src/main/java/com/gamedns/data/model/GameProfile.kt:182-184 | Looking a game up by its own package name finds that game. |
| GameProfiles.CategoryMembers | app/src/main/java/com/gamedns/data/model/GameProfile.kt:174-176 | A catalog game is in a category's list exactly when it has that category. |
| GameProfiles.CategoryListSound | app/src/main/java/com/gamedns/data/model/GameProfile.kt:174-176 | Every listed game is a catalog game of that category. |
| GameProfiles.CategoryListOrdered | app/src/main/java/com/gamedns/data/model/GameProfile.kt:174-176 | A category's list keeps catalog order: ids grow strictly along it, so no game is listed twice. |
| GamesViewModels.GamesViewModel.constructor | app/src/main/java/com/gamedns/ui/screens/games/GamesViewModel.kt:16-21 | After init, the games shown are the whole catalog. |
| GamesViewModels.GamesViewModel.LoadGames | app/src/main/java/com/gamedns/ui/screens/games/GamesViewModel.kt:23-27 | The game list becomes the catalog, and nothing else changes. |
| GamesViewModels.RecommendedDnsNames | app/src/main/java/com/gamedns/ui/screens/games/GamesViewModel.kt:29-33 | There are never more names than recommended ids. |
| GamesViewModels.UnknownIdDropped | app/src/main/java/com/gamedns/ui/screens/games/GamesViewModel.kt:29-33 | An id outside the catalog's 1..11 is dropped: the names are exactly those of the remaining ids, in order. |
| GamesViewModels.RecommendedNamesMembers | app/src/main/java/com/gamedns/ui/screens/games/GamesViewModel.kt:29-33 | A name is shown exactly when it is the name of a catalog server whose id the game recommends. |
| Lists.MapNotNullConcat | app/src/main/java/com/gamedns/ui/screens/games/GamesViewModel.kt:30-32 | `mapNotNull` over a concatenation is the concatenation of the two results. |
| Lists.MapNotNullDrops | app/src/main/java/com/gamedns/ui/screens/games/GamesViewModel.kt:30-32 | An element mapped to null contributes nothing: removing it leaves the result unchanged. |
| Lists.MapNotNullMembers | app/src/main/java/com/gamedns/ui/screens/games/GamesViewModel.kt:30-32 | A value is in the result exactly when the mapping gives it for some element. |
| GamesViewModels.RecommendedNamesOfKnownIds | app/src/main/java/com/gamedns/ui/screens/games/GamesViewModel.kt:29-33 | When every id is a catalog id, nothing is dropped, and name j is the name of server `recommendedDns[j]`. |
| GamesViewModels.CatalogGamesNameAllServers | app/src/main/java/com/gamedns/ui/screens/games/GamesViewModel.kt:29-33 | Every catalog game gets exactly three names. |
| GamesViewModels.PubgRecommendations | app/src/main/java/com/gamedns/ui/screens/games/GamesViewModel.kt:29-33 | PUBG Mobile shows Cloudflare DNS, Google DNS and Cloudflare Gaming, in that order. |
| GamesViewModels.NamesForCloudflareGoogleGaming | app/src/main/java/com/gamedns/ui/screens/games/GamesViewModel.kt:29-33 | The ids 2, 1, 10 are named Cloudflare DNS, Google DNS and Cloudflare Gaming. |
| GameDnsVpn.ConfigFor | app/src/main/java/com/gamedns/service/GameDnsVpnService.kt:88-95 | The session is "GameDNS - " plus the name, the address 10.0.0.2/24, DNS primary then secondary, the route 0.0.0.0/0, MTU 1500, non-blocking. |
| GameDnsVpn.AfterDisconnect | app/src/main/java/com/gamedns/service/GameDnsVpnService.kt:130-162 | From any state: not running, no server, no interface, no thread, no notification.<br>The old interface is closed and the old thread interrupted; one stop request is added. |
| GameDnsVpn.DisconnectKeepsNoLeak | app/src/main/java/com/gamedns/service/GameDnsVpnService.kt:130-162 | Disconnecting from a leak-free state leaves every interface ever handed out closed. |
| GameDnsVpn.BoundKeepsNoLeak | app/src/main/java/com/gamedns/service/GameDnsVpnService.kt:97-108 | Binding a fresh interface while none is held keeps every earlier interface closed and the new one open. |
| GameDnsVpn.AfterStartThread | app/src/main/java/com/gamedns/service/GameDnsVpnService.kt:167-210 | A new thread is started and kept; the thread counter grows by one.<br>Every other field of the session and every log is unchanged. |
| GameDnsVpn.AfterConnect | app/src/main/java/com/gamedns/service/GameDnsVpnService.kt:80-125 | The server's configuration is requested, and the service is running exactly when an interface came back with no later exception.<br>Then it holds the server, the interface, a new thread and the "Connected to" notification.<br>On every other path, the session is that of a disconnect.<br>When the exception comes after the thread was started, that thread is interrupted and the new interface closed. |
| GameDnsVpn.AfterStartCommand | app/src/main/java/com/gamedns/service/GameDnsVpnService.kt:55-75 | CONNECT with a server connects, CONNECT without one changes nothing, DISCONNECT disconnects, and any other action or no intent changes nothing. |
| GameDnsVpn.AfterDestroy | app/src/main/java/com/gamedns/service/GameDnsVpnService.kt:273-279 | The session becomes that of a disconnect, and the scope is cancelled.<br>The held interface is closed and the held thread interrupted; handed-out interfaces and requests are kept; one stop request is added. |
| GameDnsVpn.DestroyKeepsNoLeak | app/src/main/java/com/gamedns/service/GameDnsVpnService.kt:273-279 | Destroying a leak-free service leaves every interface ever handed out closed. |
| GameDnsVpn.DisconnectIdempotent | app/src/main/java/com/gamedns/service/GameDnsVpnService.kt:130-162 | Disconnecting twice equals disconnecting once, apart from the repeated stop request. |
| GameDnsVpn.ConnectThenConnect | app/src/main/java/com/gamedns/service/GameDnsVpnService.kt:85 | Connecting to A and then B leaves one interface, bound to B.<br>A's interface is closed and its thread interrupted. |
| GameDnsVpn.RefusedLeavesDisconnected | app/src/main/java/com/gamedns/service/GameDnsVpnService.kt:98-104 | A null interface leaves the service not running, with no server, no interface and no thread.<br>The previous interface is closed. |
| GameDnsVpn.RetryAfterRefusal | app/src/main/java/com/gamedns/service/GameDnsVpnService.kt:80-125 | A later attempt that gets an interface connects to its own server. |
| GameDnsVpn.EntryPointsConsistent | app/src/main/java/com/gamedns/service/GameDnsVpnService.kt:55-162 | After every entry point, isRunning holds exactly when a server and an interface are held.<br>A thread or a notification exists only while running. |
| GameDnsVpn.ConnectKeepsNoLeak | app/src/main/java/com/gamedns/service/GameDnsVpnService.kt:80-162 | With fresh handles, every interface ever established is closed except the current one, which is open. |
| GameDnsVpn.GameDnsVpnService.constructor | app/src/main/java/com/gamedns/service/GameDnsVpnService.kt:38-46 | The service starts not running, with no server, interface or thread. |
| GameDnsVpn.GameDnsVpnService.Disconnect | app/src/main/java/com/gamedns/service/GameDnsVpnService.kt:130-162 | The fields change as `AfterDisconnect` says. |
| GameDnsVpn.GameDnsVpnService.StartVpnThread | app/src/main/java/com/gamedns/service/GameDnsVpnService.kt:167-210 | The fields change as `AfterStartThread` says. |
| GameDnsVpn.GameDnsVpnService.ConnectToDns | app/src/main/java/com/gamedns/service/GameDnsVpnService.kt:80-125 | The fields change as `AfterConnect` says. |
| GameDnsVpn.GameDnsVpnService.OnStartCommand | app/src/main/java/com/gamedns/service/GameDnsVpnService.kt:55-75 | The fields change as `AfterStartCommand` says, and it returns START_STICKY. |
| GameDnsVpn.GameDnsVpnService.OnRevoke | app/src/main/java/com/gamedns/service/GameDnsVpnService.kt:281-286 | Revoking is a disconnect. |
| GameDnsVpn.GameDnsVpnService.OnDestroy | app/src/main/java/com/gamedns/service/GameDnsVpnService.kt:273-279 | Destroying is a disconnect followed by cancelling the scope. |
| HomeViewModels.ConnectedTo | app/src/main/java/com/gamedns/ui/screens/home/HomeViewModel.kt:62-70 | The connected state carries the server, isConnected, the start time `now`, and zero ping, data and duration. |
| HomeViewModels.ConnectFinished | app/src/main/java/com/gamedns/ui/screens/home/HomeViewModel.kt:60-78 | When the call returns, the state is `Connected` to the server.<br>When it throws, the state is `Error` with the message, or "Connection failed" if there is none.<br>Nothing else changes. |
| HomeViewModels.ConnectedWhileServiceRefused | app/src/main/java/com/gamedns/ui/screens/home/HomeViewModel.kt:50-72 | When the service call returns, the screen shows `Connected` and the connect intent is sent.<br>The service given that intent with no interface from `establish()` is not running. |
| HomeViewModels.ClickToggles | app/src/main/java/com/gamedns/ui/screens/home/HomeViewModel.kt:36-44 | When connected, a click disconnects and sends the disconnect intent.<br>Otherwise it connects to the selected server, or does nothing and sends nothing when none is selected.<br>Only the connection state changes. |
| HomeViewModels.ClickTwiceReconnects | app/src/main/java/com/gamedns/ui/screens/home/HomeViewModel.kt:36-44 | Two clicks while connected disconnect and then reconnect to the selected server. |
| HomeViewModels.IntentsDriveService | app/src/main/java/com/gamedns/service/GameDnsVpnService.kt:55-75 | The connect intent the controller sends, given an interface, leaves the service running on that server.<br>The disconnect intent disconnects it. |
| HomeViewModels.WithResult | app/src/main/java/com/gamedns/ui/screens/home/HomeViewModel.kt:102-108 | Length and order are kept, only `lastTestResult` changes, and only on servers with the matching id. |
| HomeViewModels.WithResultCommutes | app/src/main/java/com/gamedns/ui/screens/home/HomeViewModel.kt:143-149 | Recording the results of two different ids gives the same list in either order. |
| HomeViewModels.WithResultOverwrites | app/src/main/java/com/gamedns/ui/screens/home/HomeViewModel.kt:102-108 | A later result for the same id replaces the earlier one. |
| HomeViewModels.AfterTest | app/src/main/java/com/gamedns/ui/screens/home/HomeViewModel.kt:92-121 | testingDnsId ends null on both paths, and the selection, the connection and the flag are untouched.<br>A failed call leaves the list alone; a finished one records the default-configuration result. |
| HomeViewModels.TestShowsResult | app/src/main/java/com/gamedns/ui/screens/home/HomeViewModel.kt:92-121 | Servers with the tested id show the new result, for that server and 5 tests; the other servers are unchanged. |
| HomeViewModels.Completed | app/src/main/java/com/gamedns/ui/screens/home/HomeViewModel.kt:134-154 | This is the number of tests before the first one that throws. |
| HomeViewModels.BestPair | app/src/main/java/com/gamedns/ui/screens/home/HomeViewModel.kt:157-159 | It is null exactly when no pair succeeded.<br>Otherwise it is a successful pair whose avgPing is ≤ that of every successful pair. |
| HomeViewModels.AfterFindBest | app/src/main/java/com/gamedns/ui/screens/home/HomeViewModel.kt:123-178 | The connection state is never touched, both flags are cleared, and the list keeps its length.<br>An aborted run keeps the selection. |
| HomeViewModels.FindBestSelectsFirstFastest | app/src/main/java/com/gamedns/ui/screens/home/HomeViewModel.kt:156-165 | When every test finished, the first server with the least successful avgPing is selected; with no success the selection is kept.<br>With distinct ids, this is the server the test service's `findBestDns` returns. |
| HomeViewModels.ApplyResultsDistinct | app/src/main/java/com/gamedns/ui/screens/home/HomeViewModel.kt:143-153 | With distinct ids, each tested server shows its own result, and untested servers are unchanged. |
| HomeViewModels.FindBestRecordsResults | app/src/main/java/com/gamedns/ui/screens/home/HomeViewModel.kt:134-154 | After a find-best run, each server tested before any failure shows its own result, and the rest are unchanged. |
| HomeViewModels.AfterTick | app/src/main/java/com/gamedns/ui/screens/home/HomeViewModel.kt:181-204 | The tick changes nothing unless the state is `Connected`.<br>Then it keeps the server and the start time, sets the duration to now − start, and the ping to a value in 10..50. |
| HomeViewModels.TickDuringConnect | app/src/main/java/com/gamedns/ui/screens/home/HomeViewModel.kt:50-58 | A tick while `Connecting` changes nothing, so the connect ends as it would have. |
| HomeViewModels.TicksMeasureFromConnect | app/src/main/java/com/gamedns/ui/screens/home/HomeViewModel.kt:186-199 | After a connect and two ticks, the duration is measured from the connect time, and the ping is the last tick's. |
| HomeViewModels.HomeViewModel.constructor | app/src/main/java/com/gamedns/ui/screens/home/HomeViewModel.kt:22-34 | At start: the full catalog, nothing selected, `Disconnected`, no test running, not finding the best, nothing sent. |
| HomeViewModels.HomeViewModel.LoadDnsServers | app/src/main/java/com/gamedns/ui/screens/home/HomeViewModel.kt:30-34 | The list becomes the catalog, and nothing else changes. |
| HomeViewModels.HomeViewModel.OnConnectClick | app/src/main/java/com/gamedns/ui/screens/home/HomeViewModel.kt:36-44 | The state and the intents change as `AfterClick` and `ClickSends` say. |
| HomeViewModels.HomeViewModel.SelectDns | app/src/main/java/com/gamedns/ui/screens/home/HomeViewModel.kt:46-48 | Only the selection changes. |
| HomeViewModels.HomeViewModel.Connect | app/src/main/java/com/gamedns/ui/screens/home/HomeViewModel.kt:50-80 | The state passes through `Connecting` and then ends as `ConnectFinished` says.<br>The connect intent is sent only if the call returned. |
| HomeViewModels.HomeViewModel.Disconnect | app/src/main/java/com/gamedns/ui/screens/home/HomeViewModel.kt:82-90 | The disconnect intent is sent, and the state is `Disconnected`. |
| HomeViewModels.HomeViewModel.TestDnsSpeed | app/src/main/java/com/gamedns/ui/screens/home/HomeViewModel.kt:92-121 | The state changes as `AfterTest` says. |
| HomeViewModels.HomeViewModel.FindBestDns | app/src/main/java/com/gamedns/ui/screens/home/HomeViewModel.kt:123-179 | The loop over the servers ends in `AfterFindBest`. |
| HomeViewModels.SearchStep | app/src/main/java/com/gamedns/ui/screens/home/HomeViewModel.kt:134-155 | Testing the next server marks it as under test and records its result on the list. |
| HomeViewModels.SearchEnd | app/src/main/java/com/gamedns/ui/screens/home/HomeViewModel.kt:157-178 | The search clears its progress fields and selects the best server only when no test threw. |
| HomeViewModels.HomeViewModel.MonitorTick | app/src/main/java/com/gamedns/ui/screens/home/HomeViewModel.kt:181-205 | One pass of the monitoring loop changes the state as `AfterTick` says. |

## Left out

- Network I/O (`performDnsLookup`, `pingDnsServer`, `isDnsReachable`) is not modelled. Each lookup is an input: whether it returned true, and how far apart the two clock readings were. `performDnsLookup` uses the system resolver whatever server it is given; the model does not depend on that.
- `System.currentTimeMillis` is an input. The monitor's `(10..50).random()` is an input in 10..50.
- Coroutines, threads and `delay` are not modelled as time:
  - every launched block runs to its end without interleaving;
  - `delay` calls are only counted (`TestDnsSpeed`, `TestMultipleDns`);
  - a cancellation swallowed by the per-iteration `catch` of `testDnsSpeed` is not modelled.
- The VPN packet thread and the service's monitoring loop (the body of `startVpnThread` and `startMonitoring`) do no modelled work. Only the start of the thread and its interruption are recorded.
- Android plumbing is represented only by logs: the `VpnService.Builder` internals, the notification channel, `startForeground`, `stopForeground` and `stopSelf`, `Parcelable`, and the `Build.VERSION` branch. The logs are the requested configurations, the closed interfaces, the interrupted threads, the notification text and a count of stop requests.
- An exception from `interrupt()` or `close()` inside `disconnect` is not modelled. In the code it skips the rest of `disconnect`: the interface, `isRunning`, `currentDnsServer` and the notification stay set, and `stopSelf` is not called. `GameDnsVpn.AfterDisconnect` and every property that builds on it (a disconnect ends the session from any state) hold only for disconnects where neither call throws.
- `isRunning` and `currentDnsServer` are companion fields shared by every instance. The model has one service object, which holds them.
- The home screen shows `Connected` as soon as `startService` returns. It does so even when the service then gets no interface from `establish()` and stops itself, although `ConnectionState.Error` exists for a connection that fails. The model follows the code, and `HomeViewModels.ConnectedWhileServiceRefused` states the gap.
- `Float` and `Double` are not modelled. `packetLoss` is an exact rational, with no IEEE rounding. `average()` is the exact truncated quotient, which agrees with the `Double` mean for sums below 2^53.
- `Int` and `Long` overflow is not modelled.
- `ConnectDnsUseCase.kt` is only modelled through the two intents it sends. `prepareVpn`, `isConnected` and `getCurrentDns` are not modelled.
- `TestDnsSpeedUseCase.kt` is not modelled separately. It only delegates, and the home controller calls the test service's `TestDnsSpeed` with the default configuration directly.
- The UI and theme files are Compose rendering and are not modelled.
- HomeViewModels.HomeViewModel.Disconnect: an exception from the connection helper's `disconnect` is not modelled. There is no `catch` around it, so it would end the coroutine.
- ConnectionStatsModel.FormattedDuration has no contract of its own. Its text is stated by `DurationTextReadsBack`, over the parts that `DurationShowsLeadingUnits` and `NegativeDurationShowsSeconds` describe.
- ConnectionStatsModel.FormattedDataUsage has no contract of its own. Its text is stated by `DataUsageTextReadsBack`, over the number and unit that `DataUsageBands` describes.
- HomeViewModels.AfterClick and HomeViewModels.ClickSends have no contract of their own. Their three branches are stated by `ClickToggles` and by the ensures of `HomeViewModel.OnConnectClick`.
- HomeViewModels.AfterConnect and HomeViewModels.ConnectSends have no contract of their own. They are stated by `ConnectFinished`, `ClickToggles` and the ensures of `HomeViewModel.Connect`.
- HomeViewModels.AfterDisconnect has no contract of its own. It is stated by `ClickToggles` and the ensures of `HomeViewModel.Disconnect`.
- DnsServers.GetByCategory has no contract of its own. Its content is stated by `CategoriesPartitionCatalog` and `ExactlyOneCategory`.
- GameProfiles.GetByCategory: its own contract states only the length bound. Membership and soundness are stated by `CategoryMembers` and `CategoryListSound`. Catalog order, and so the absence of duplicates, is stated by `CategoryListOrdered`.
