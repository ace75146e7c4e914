# FileBot metadata resolution core, modelled in Dafny

This project models the decision logic of two FileBot classes.

- **The TVRage episode catalog client** (`TVRageClient`). It covers show search, the cached fetch of a show's full episode list, and the season filter. The season filter raises `SeasonOutOfBoundsException` with the largest season it saw. It also covers the deep links to a show's episode-list page.
- **The script shell's base class** (`ScriptShellBaseClass`). It covers:
  - property lookup with a fallback to user-defined default values;
  - the total option map handed to the command-line operations;
  - decoding of the "file", "folder" and "map" parameters;
  - the `retry` loop;
  - the movie, series-name and episode-number detection fallbacks;
  - the choice of rename function;
  - the shell prefix that `execute` puts in front of a command.

Files:

- `wrappers.dfy`: `Option` (Java's `null`) and `Result` (an exception leaving a method).
- `java_int.dfy`: `Integer.parseInt` and `String.valueOf(int)` on 32-bit ints, with their round trip.
- `tvrage_client.dfy`: module `TVRage`. The class `TVRageClient` holds the shared cache as a `map` from request URL to episode list.
- `script_shell.dfy`: module `ScriptShell`. The class `ScriptShellBase` holds `defaultValues`.

Remote documents are inputs to the model. A document has already been fetched and parsed (`Fetch<D>`), or the fetch failed with a transport error. Calls into code outside these two classes are function-typed parameters. These are `asFileList`, `getChildren`, the `MediaDetection` lookups and the extended-attribute store. The closure given to `retry` is a function from the attempt number to that attempt's outcome.

Where a comment in the code and the code disagree, the model follows the code:

- The doc comment of `retry` (ScriptShellBaseClass.java line 311) says that -1 retries indefinitely. The guard on line 318 already holds at the first attempt when the limit is negative. So any negative limit rethrows the first exception (`Retry`: `retryCountLimit < 0 ==> calls == 1`).
- The comment of the closure rename wrapper (line 546) promises a fallback to the proposed destination. Line 547 always builds a file from the closure result's text, and a `null` result throws. `ClosureRename` models this and `ClosureRenameHasNoFallback` shows that no fallback happens.

## Model

| member | source | states |
|---|---|---|
| `JavaInt.ParseInt` | source/net/sourceforge/filebot/web/TVRageClient.java:127 | `Integer.parseInt` accepts only an optional sign followed by at least one digit, so a bare "+" or "-" fails, as does anything else; the value is non-negative unless the text starts with '-' |
| `JavaInt.ParseIntOfDigits` | source/net/sourceforge/filebot/web/TVRageClient.java:127 | a digit run parses to its decimal value, with '+' to the same value and with '-' to its negation, whenever the result fits in 32 bits; otherwise the parse fails |
| `JavaInt.NatToStringValue` | source/net/sourceforge/filebot/web/TVRageClient.java:156 | the decimal digits written for a number read back as that number |
| `JavaInt.ParseIntOfIntToString` | source/net/sourceforge/filebot/web/TVRageClient.java:156 | parsing the decimal form of any 32-bit int gives back that int |
| `JavaInt.IntToStringInjective` | source/net/sourceforge/filebot/web/TVRageClient.java:85 | two ints have the same decimal form exactly when they are equal |
| `JavaInt.ParseIntLeadingZero` | source/net/sourceforge/filebot/web/TVRageClient.java:127 | a leading zero does not change the parsed season number |
| `TVRage.UnescapeAmp` | source/net/sourceforge/filebot/web/TVRageClient.java:102 | replacing "&amp;" by "&" never lengthens a title |
| `TVRage.UnescapeEscapeAmp` | source/net/sourceforge/filebot/web/TVRageClient.java:102 | un-escaping undoes escaping every '&' as "&amp;", so every title text is reachable |
| `TVRage.UnescapeAmpWithoutEntity` | source/net/sourceforge/filebot/web/TVRageClient.java:102 | a title with no "&amp;" in it is left unchanged, bare '&' characters included |
| `TVRage.UnescapeAmpBareAmpersand` | source/net/sourceforge/filebot/web/TVRageClient.java:102 | "Tom & Jerry" keeps its bare '&' |
| `TVRage.CacheKeyIdentifiesShow` | source/net/sourceforge/filebot/web/TVRageClient.java:85-88 | the cache key depends only on the show id, and different ids give different keys |
| `TVRage.EpisodeListLink` | source/net/sourceforge/filebot/web/TVRageClient.java:148-151 | the all-seasons link is the show link followed by "/episode_list/all" |
| `TVRage.SeasonEpisodeListLink` | source/net/sourceforge/filebot/web/TVRageClient.java:154-164 | a season link is the show link, then "/episode_list/", then `String.valueOf(season)`, so it goes past that prefix |
| `TVRage.SeasonLinkNamesSeason` | source/net/sourceforge/filebot/web/TVRageClient.java:155-164 | the last segment of a season link parses back to the season |
| `TVRage.SeasonLinksDistinct` | source/net/sourceforge/filebot/web/TVRageClient.java:148-164 | different seasons have different links, and no season link equals the all-seasons link |
| `TVRage.ParsedEpisodesAt` | source/net/sourceforge/filebot/web/TVRageClient.java:96-107 | there is one episode per episode node, in document order; each carries the series name, its parent Season's `no`, its `seasonnum` and its un-escaped title |
| `TVRage.ParseEpisodeList` | source/net/sourceforge/filebot/web/TVRageClient.java:99-107 | the node loop builds exactly the parsed episode list |
| `TVRage.SeasonEpisodesExact` | source/net/sourceforge/filebot/web/TVRageClient.java:125-131 | each episode is in the season list as often as it is in the catalog if its season parses to the requested one, and otherwise never; non-numeric seasons are never in any list |
| `TVRage.SeasonEpisodesAppend` | source/net/sourceforge/filebot/web/TVRageClient.java:125-131 | filtering distributes over concatenation, so catalog order is kept |
| `TVRage.MaxSeasonIsMaximum` | source/net/sourceforge/filebot/web/TVRageClient.java:122-138 | the reported maximum is at least 0 and at least every parsed season, and it is 0 or some parsed season; non-numeric seasons do not count |
| `TVRage.SeasonEpisodesEmpty` | source/net/sourceforge/filebot/web/TVRageClient.java:125-141 | the season list is empty exactly when no catalog entry parses to the season |
| `TVRage.SeasonOutOfBoundsExactly` | source/net/sourceforge/filebot/web/TVRageClient.java:141-144 | `SeasonOutOfBoundsException(name, season, maxSeason)` is raised exactly when no episode has the season; otherwise the non-empty list is returned |
| `TVRage.SeasonBeyondMaximum` | source/net/sourceforge/filebot/web/TVRageClient.java:121-142 | a season above the largest parsed one always fails, and the error reports that largest season |
| `TVRage.SeasonFiveOfThree` | source/net/sourceforge/filebot/web/TVRageClient.java:117-144 | a show with seasons 1 to 3 and a special, asked for season 5, fails with (name, 5, 3) |
| `TVRage.FilterSeason` | source/net/sourceforge/filebot/web/TVRageClient.java:119-139 | the filter loop returns the season's episodes and the running maximum |
| `TVRage.TVRageClient.constructor` | source/net/sourceforge/filebot/web/TVRageClient.java:36 | the client starts with the shared cache as given |
| `TVRage.TVRageClient.Search` | source/net/sourceforge/filebot/web/TVRageClient.java:57-77 | a fetched search gives one result per `Results/show` node, in order, with the parsed show id; the first non-numeric show id aborts the search; a transport failure propagates |
| `TVRage.TVRageClient.GetEpisodeList` | source/net/sourceforge/filebot/web/TVRageClient.java:81-113 | a cache hit returns the stored list, ignores the fetcher and leaves the cache unchanged; a miss parses the document and then maps exactly that key to the returned list; a failed fetch propagates and stores nothing |
| `TVRage.TVRageClient.GetSeasonEpisodeList` | source/net/sourceforge/filebot/web/TVRageClient.java:116-145 | the season result is the season selection of the full catalog (cached or freshly parsed), with the same cache effect as the full fetch |
| `TVRage.TVRageClient.FetchTwice` | source/net/sourceforge/filebot/web/TVRageClient.java:85-92 | a second request for the same show id is a hit: it returns the first result whatever the fetcher says |
| `ScriptShell.ScriptShellBase.constructor` | source/net/filebot/cli/ScriptShellBaseClass.java:56 | the default values start empty |
| `ScriptShell.ScriptShellBase.SetDefaultValues` | source/net/filebot/cli/ScriptShellBaseClass.java:58-60 | `putAll`: new values replace old ones for their keys, and other keys keep their values; afterwards every new value is what `getProperty` returns for a property the script lacks |
| `ScriptShell.ScriptShellBase.GetProperty` | source/net/filebot/cli/ScriptShellBaseClass.java:66-79 | the script's own property wins; if it is missing, a default value is used, a stored null included; with neither, the original `MissingPropertyException` is thrown |
| `ScriptShell.OptionValueOf` | source/net/filebot/cli/ScriptShellBaseClass.java:499-505 | `Option.valueOf` finds the option named exactly so, and no other; unknown names give nothing |
| `ScriptShell.CallerOptions` | source/net/filebot/cli/ScriptShellBaseClass.java:497-505 | the caller's entries whose key names an option end up under that option, with their values; other keys are ignored |
| `ScriptShell.GetDefaultOptions` | source/net/filebot/cli/ScriptShellBaseClass.java:496-526 | every option is a key of the result; a caller value wins, null included; other caller keys are ignored; missing `forceExtractAll` is false, missing `strict` is `!nonStrict`, and any other missing option takes the same-named bean field; the call fails exactly when such a field is absent, naming the first such option in ordinal order |
| `ScriptShell.FolderContentsMembers` | source/net/filebot/cli/ScriptShellBaseClass.java:467-474 | a file is in the "folder" expansion exactly when one of the given folders contains it |
| `ScriptShell.GetInputFileList` | source/net/filebot/cli/ScriptShellBaseClass.java:461-477 | "file" takes precedence over "folder", folders expand to their files one after another, and neither gives an empty list |
| `ScriptShell.Put` | source/net/filebot/cli/ScriptShellBaseClass.java:487 | `LinkedHashMap.put`: a present key keeps its position and takes the new value, and a new key is appended |
| `ScriptShell.BuildFileMapKeepsOrder` | source/net/filebot/cli/ScriptShellBaseClass.java:479-494 | when the keys resolve to distinct files, the file map is the entries themselves, in entry order |
| `ScriptShell.BuildFileMapUniqueKeys` | source/net/filebot/cli/ScriptShellBaseClass.java:479-494 | the file map never holds a file twice as a key |
| `ScriptShell.GetInputFileMap` | source/net/filebot/cli/ScriptShellBaseClass.java:479-494 | no "map" gives an empty map and a non-map value is a cast error; the call succeeds exactly when every entry resolves to one file on each side, and then it is the map those entries build in order; otherwise the first bad entry is the `IllegalArgumentException` |
| `ScriptShell.Retry` | source/net/filebot/cli/ScriptShellBaseClass.java:310-325 | the closure is called at most limit+1 times and the first success is returned; if every call throws an exception, the last exception is rethrown; it sleeps only between calls; with a negative limit the first exception is rethrown; a negative wait time makes the sleep throw; an `Error` is not caught, so it leaves at once without a sleep |
| `ScriptShell.RetryAlwaysFailing` | source/net/filebot/cli/ScriptShellBaseClass.java:313-325 | with limit 2 and a closure that always throws an exception, that exception is rethrown after exactly three calls |
| `ScriptShell.RetryErrorEscapes` | source/net/filebot/cli/ScriptShellBaseClass.java:313-318 | a closure that throws an `Error`, such as a failed script `assert`, is called once and never retried, whatever the limit |
| `ScriptShell.DetectMovie` | source/net/filebot/cli/ScriptShellBaseClass.java:241-269 | a movie in the extended attributes is returned after one stage; else a non-null exact match (depth 4) after two stages; else the first fuzzy result, or null, after three; exceptions of stages 2 and 3 never escape |
| `ScriptShell.DetectMovieFirstStageWins` | source/net/filebot/cli/ScriptShellBaseClass.java:241-269 | the result is null exactly when no stage finds a movie; otherwise it is a stage's movie |
| `ScriptShell.MatchMovie` | source/net/filebot/cli/ScriptShellBaseClass.java:271-274 | returns the first match for the name, or null for a null or empty match list |
| `ScriptShell.DetectSeriesName` | source/net/filebot/cli/ScriptShellBaseClass.java:219-234 | (also `detectAnimeName`, with `anime` true) empty input gives null whatever the detector would say; otherwise the first detected name, or null |
| `ScriptShell.ParseEpisodeNumber` | source/net/filebot/cli/ScriptShellBaseClass.java:236-239 | returns the first parsed season/episode pair, or null |
| `ScriptShell.GetRenameFunction` | source/net/filebot/cli/ScriptShellBaseClass.java:528-564 | a rename action is used as is (the same object), text names the standard action of that name, a closure is wrapped as it is, and anything else is cast from that very object; each kind maps to exactly its own kind of action |
| `ScriptShell.ClosureRename` | source/net/filebot/cli/ScriptShellBaseClass.java:543-548 | the wrapped closure always renames to the file named by the text of its result, and a null result throws |
| `ScriptShell.ClosureRenameHasNoFallback` | source/net/filebot/cli/ScriptShellBaseClass.java:546-547 | a closure returning "true" renames to a file named "true", not to the proposed destination |
| `ScriptShell.ExecuteCommandLine` | source/net/filebot/cli/ScriptShellBaseClass.java:276-291 | the command is "cmd /c" on Windows, or "sh -c" for a single argument elsewhere, followed by the arguments in order |

## Left out

- Network and XML transport are left out: `WebRequest.getDocument`, XPath selection and the URL encoding of the search query. Documents are inputs, already parsed, or a transport failure.
- The ehcache library is left out. The cache is a map with no expiry and no eviction.
- `synchronizedMap` and the race between concurrent callers that both miss the cache are left out. The model is sequential.
- `TVRage.TVRageClient.GetEpisodeList` returns the cached list as a value. In Java the caller gets the very `List` object stored in the cache, so mutating it would change the cache. That aliasing is not modelled.
- `TVRage.ParsedEpisodesAt`: a Season node without a `no` attribute, or an episode without a title, makes the Java code throw `NullPointerException`. The document model always has these fields, so that failure is not modelled.
- `TVRage.SeasonEpisodeListLink`: `URI.create` rejects links with illegal characters. Links are modelled as plain strings.
- `TVRage.TVRageClient.GetEpisodeList`: the cast of a `SearchResult` that is not a `TVRageSearchResult` throws `ClassCastException`. Only TVRage results exist in the model.
- `JavaInt.ParseInt`: Java's `Character.digit` also accepts non-ASCII Unicode decimal digits. The model rejects them.
- `getName`, `getIcon`, `hasSingleSeasonSupport`, logging and the console are presentation, so they are left out.
- `ScriptShell.Retry`: only attempt and sleep counts are modelled. Sleep timing and `InterruptedException` are not. A closure call's outcome is a value, a caught `Exception` or an uncaught `Error`; other `Throwable` subclasses are not distinguished.
- `ScriptShell.GetInputFileMap`: `ScriptShell.File` compares raw path strings. `java.io.File` normalises its path ("a//b/" becomes "a/b") and compares paths ignoring case on Windows. So `files.put` (ScriptShellBaseClass.java line 487) merges keys that differ only in case or redundant separators, where `BuildFileMap` keeps them as separate entries.
- `ScriptShell.GetInputFileList`: the same raw-path equality applies to the files it returns.
- `ScriptShell.ClosureRename`: the file built from the closure's text (line 547) keeps that text as its path, without `java.io.File`'s normalisation.
- `ScriptShell.ClosureRename`: the closure's result is a total function of (from, to). An exception thrown by the script closure itself (line 544) would propagate out of `rename` in Java; the model does not produce that failure.
- `ScriptShell.DetectMovie`: the extended-attribute lookup of stage 1 (line 243) is outside any `try`, so an exception it throws leaves `detectMovie` in Java. The model's attribute store is a total function, so `DetectMovieFirstStageWins` says nothing about that path.
- `ScriptShell.DetectSeriesName`, `ScriptShell.MatchMovie`, `ScriptShell.ParseEpisodeNumber`: the `MediaDetection` calls are total functions in the model. An exception they throw would propagate unchanged in Java.
- `ScriptShell.ParseEpisodeNumber`: the argument is given as its `toString()` text. A `null` argument (a `NullPointerException` in Java) is not modelled.
- `ScriptShell.GetDefaultOptions`: a `null` key would make `Option.valueOf` throw `NullPointerException`. Keys are strings in the model and cannot be null.
- `ScriptShell.GetDefaultOptions`: reflection on `ArgumentBean` is modelled as a record of named fields plus the `nonStrict` flag.
- `ScriptShell.GetRenameFunction`: `StandardRenameAction.forName` and `DefaultTypeTransformation.castToType` are foreign. The model records which one is chosen and with what argument. Java tests the object's type in order; the closed sum type makes the kinds disjoint, so that order is not modelled. The closure wrapper's `canRevert` and `toString` are not modelled.
- `ScriptShell.DetectMovie`: the `Locale.ENGLISH` and `WebServices.TheMovieDB` arguments are part of the collaborator parameters.
- Groovy script machinery is left out: `include`, `runScript`, `executeScript`, `tryQuietly`, `tryLogCatch`, `printException`, `die`, `XML` and closure rehydration.
- `telnet` (a socket) and the process launch of `execute` are left out. Only `execute`'s argument vector is modelled.
- `getRenameLog`, the `_args`, `_def`, `_system` and `_environment` accessors, `getLog`, `getConsole` and `getNow` are left out. They are history, environment and clock access.
- `getMediaInfo(file, format)` is left out. It is formatting.
- The command-line delegators `rename`, `getSubtitles`, `getMissingSubtitles`, `check`, `compute`, `extract`, `fetchEpisodeList` and `getMediaInfo(parameters)` only forward to the command-line interface and log errors, so they are left out.
