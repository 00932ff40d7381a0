# seanime extension host: a Dafny model

This project models the part of seanime that hosts user extensions on the goja JavaScript
engine. It also models two clients that sit beside that host. The code proves properties of
the model.

- **Runtime pools** (`goja_runtime.dfy`). Each extension has a pool of goja runtimes with a
  fixed capacity. A `Get` hands out an idle runtime, or builds one while the capacity allows,
  or otherwise waits on its context. A `Put` clears the runtime's interrupt flag and queues it
  again. Cleanup drains and closes the pools. A registry keeps one pool per extension ID. The
  pool's counts (idle, active, created, reused, errors, timeouts) form a pure state machine,
  `Step`/`Run`, and the `Pool` class is tied to it by `View()`.
- **Plugin loading** (`goja_plugin.dfy`, `extension_repo.dfy`).
  - Script exceptions are normalised into host errors.
  - The hook-manager methods are filtered before scripts may bind them as `$app`.
  - A script callback is wrapped into the program a hook handler runs.
  - That program runs in an executor runtime with `$ctx` and `__args` set.
  - A plugin loads in order: TypeScript conversion, pool lookup, evaluation, then `init()`.
  - The three extension loaders dispatch on language. Each writes to the extension bank only
    on success and turns a panic into an error.
- **MyAnimeList client** (`mal.dfy`).
  - The list status chosen when progress is updated.
  - The form body of a list-status update, encoded as `url.Values.Encode` does: sorted keys,
    query escaping, `&`-joined.
  - The guard against an empty access token.
  - The URL and verb of each request.
- **Playlist handlers** (`playlist.dfy`). A nested loop turns requested paths into local files.
  Each path takes the first file in database order whose normalised path equals the path,
  lower-cased and with forward slashes. The create and update handlers build the playlist
  from that result. The episode lookup fails with "media entry not found".

`host.dfy` holds the shared shapes: `Option`, `Result`, Go errors, and the values a script
exports to the host.

Everything outside the modelled code becomes a parameter:
- the goja interpreter (`Evaluator`);
- the TypeScript transpiler (`Transpiler`);
- a pool's initialiser (`initFn`);
- the provider constructors (`ProviderConstructor`);
- the server's answers (`response`, `details`);
- the database results;
- the OS path separator.

The model is sequential. Each pool operation is one atomic step.

## Model

| member | source | states |
|---|---|---|
| GojaRuntime.Runtime.constructor | internal/goja/goja_runtime/goja_runtime_manager.go:116 | a runtime as `initFn` builds it: not interrupted, holding the bindings it was built with |
| GojaRuntime.Runtime.ClearInterrupt | internal/goja/goja_runtime/goja_runtime_manager.go:133 | clears the interrupt flag and leaves the runtime's bindings alone |
| GojaRuntime.Step | internal/goja/goja_runtime/goja_runtime_manager.go:87-142 | one Get or Put on the pool's counts: capacity is unchanged; a Get raises exactly one of created/reused/errors/timeouts by one; a Put leaves the metrics alone and frees one active slot; the capacity invariant (0 <= active, idle + active <= maxSize) is preserved |
| GojaRuntime.PutNeverDiscards | internal/goja/goja_runtime/goja_runtime_manager.go:136-141 | in the sequential model, a Put from a sound state always finds room in the idle channel, so sequentially the discard branch only runs under misuse |
| GojaRuntime.RunKeepsCapacity | internal/goja/goja_runtime/goja_runtime_manager.go:87-142 | over any sequence of calls that return, the checked-out count never exceeds maxSize, and neither does idle + active |
| GojaRuntime.RunCountsEveryGet | internal/goja/goja_runtime/goja_runtime_manager.go:87-125 | the four counters together equal the number of Get calls made; no counter ever decreases |
| GojaRuntime.CapacityOneReuses | internal/goja/goja_runtime/goja_runtime_manager.go:89-93 | in a pool of capacity one, Get, Put, Get creates once and reuses once |
| GojaRuntime.ExpiredContextTimesOut | internal/goja/goja_runtime/goja_runtime_manager.go:98-108 | a full pool with nothing idle and a done context counts one timeout and reserves nothing |
| GojaRuntime.Pool.ValidIsSound | internal/goja/goja_runtime/goja_runtime_manager.go:61-68 | the pool's object invariant implies the capacity invariant of its counts |
| GojaRuntime.Pool.constructor | internal/goja/goja_runtime/goja_runtime_manager.go:77-84 | NewPool: empty idle queue, nothing active, all counters zero, open |
| GojaRuntime.Pool.Get | internal/goja/goja_runtime/goja_runtime_manager.go:87-125 | an idle runtime comes first, reused +1, active +1, initFn not called; with no idle runtime and room, a slot is reserved and initFn is called: created +1 on success, or errors +1 with active restored and the init error returned; a full pool with nothing idle returns ctx.Err() with timeouts +1; a runtime handed out is uninterrupted and is not already checked out |
| GojaRuntime.Pool.Put | internal/goja/goja_runtime/goja_runtime_manager.go:128-142 | nil is ignored; otherwise the interrupt is cleared, active -1, and the runtime is queued at the back of the idle channel |
| GojaRuntime.Pool.Cleanup | internal/goja/goja_runtime/goja_runtime_manager.go:145-150 | closes the channel, drains it, and clears the interrupt of every runtime that was idle; counters and checked-out set unchanged |
| GojaRuntime.Pool.Stats | internal/goja/goja_runtime/goja_runtime_manager.go:153-160 | exactly the four keys, each holding its counter |
| GojaRuntime.Manager.constructor | internal/goja/goja_runtime/goja_runtime_manager.go:19-25 | NewManager: no pools |
| GojaRuntime.Manager.GetOrCreatePool | internal/goja/goja_runtime/goja_runtime_manager.go:28-47 | never returns an error; an existing ID returns its pool with the registry unchanged, ignoring initFn; a new ID registers a fresh empty pool of capacity maxPerExt built with initFn |
| GojaRuntime.Manager.Cleanup | internal/goja/goja_runtime/goja_runtime_manager.go:50-58 | every registered pool is cleaned up (closed, drained, idle runtimes uninterrupted) and the registry ends empty |
| GojaRuntime.CleanupPools | internal/goja/goja_runtime/goja_runtime_manager.go:53-55 | the loop over the registered pools: every pool ends closed and drained with its counters and checked-out set unchanged, and every runtime that was idle in one of them is uninterrupted |
| GojaPlugin.NormalizeException | internal/extension_repo/goja_plugin.go:209-229 | nil only for nil; a non-exception passes through; an exception yields the Go error its exported value is, or the error under a record's "value" key, and is otherwise returned as it is |
| GojaPlugin.NormalizeExceptionCases | internal/extension_repo/goja_plugin.go:209-229 | the cases one by one, on concrete shapes |
| GojaPlugin.NormalizeUnwrapsOneLevel | internal/extension_repo/goja_plugin.go:219-226 | only one level is unwrapped: an exception carrying an exception yields the inner exception |
| GojaPlugin.HookNameFilter | internal/extension_repo/goja_plugin.go:140-148 | a method is bindable exactly when its name starts with "On" and is not "OnServe"; the empty exclusion entry never matters |
| GojaPlugin.HookTable | internal/extension_repo/goja_plugin.go:142-152 | the `$app` object has a key exactly for the script names of bindable methods; each entry is the registration function of the last bindable method with that script name |
| GojaPlugin.BindHooks | internal/extension_repo/goja_plugin.go:134-203 | the loader gains `$app`, a record with one key per script name of a bindable method, each holding the registration function of the last bindable method with that script name (so never `OnServe`'s); other bindings are unchanged |
| GojaPlugin.WrapCallback | internal/extension_repo/goja_plugin.go:153 | stripping the `function(e) { $ctx = e.ctx; return (` … `).call(undefined, e); }` frame from the wrapped callback gives the script's callback back |
| GojaPlugin.HandlerProgram | internal/extension_repo/goja_plugin.go:154 | stripping the `{(` … `).apply(undefined, __args)}` frame from the program gives the wrapped callback back |
| GojaPlugin.Unframe | internal/extension_repo/goja_plugin.go:153-154 | a successful strip of a prefix and a suffix gives the text between them |
| GojaPlugin.UnframeFrame | internal/extension_repo/goja_plugin.go:153-154 | stripping the prefix and suffix that were added gives back the inner text |
| GojaPlugin.CallbackRoundTrip | internal/extension_repo/goja_plugin.go:152-154 | the script callback can be recovered from the handler program built for it |
| GojaPlugin.HandlerProgramInjective | internal/extension_repo/goja_plugin.go:152-154 | distinct callbacks give distinct handler programs |
| GojaPlugin.HandlerOutcome | internal/extension_repo/goja_plugin.go:180-190 | a Go error the script returned wins; otherwise the run's error is normalised; a panic escapes the handler |
| GojaPlugin.ReturnedErrorWins | internal/extension_repo/goja_plugin.go:183-188 | a returned Go error is the handler's error whatever the run raised |
| GojaPlugin.HandlerBindings | internal/extension_repo/goja_plugin.go:177-179 | the program starts with `$ctx` undefined and the arguments in `__args`; other bindings are kept |
| GojaPlugin.RunHandler | internal/extension_repo/goja_plugin.go:171-191 | the handler's result is HandlerOutcome of the run on those bindings; afterwards `__args` is reset to undefined unless the run panicked |
| GojaPlugin.PluginOutcome | internal/extension_repo/goja_plugin.go:85-129 | the first failing step decides, case by case: a conversion or pool-lookup failure is returned with the loader's bindings untouched; an evaluation error is returned unchanged and an evaluation panic stays a panic, with the bindings the run left; with no `init` defined the plugin (holding the extension and the looked-up pool) is loaded with those bindings; otherwise an `init()` panic stays a panic, an `init()` error comes back wrapped as "failed to run init: ", and a clean `init()` loads the plugin, each with the bindings `init()` left |
| GojaPlugin.ConversionFailureStopsFirst | internal/extension_repo/goja_plugin.go:88-96 | a failed TypeScript conversion is returned before the pool lookup and before any evaluation; the loader is untouched |
| GojaPlugin.JavascriptIsNotConverted | internal/extension_repo/goja_plugin.go:88-96 | JavaScript never reaches the transpiler |
| GojaPlugin.LoadedExactlyWhenAllStepsSucceed | internal/extension_repo/goja_plugin.go:85-129 | a plugin is produced exactly when conversion, pool lookup, evaluation and (when defined) `init()` all succeed; it holds the looked-up pool |
| GojaPlugin.InitFailureIsWrapped | internal/extension_repo/goja_plugin.go:114-119 | an `init()` error comes back wrapped as "failed to run init: %w" |
| GojaPlugin.NewGojaPlugin | internal/extension_repo/goja_plugin.go:85-129 | the result and the loader's bindings are those of the step sequence PluginOutcome |
| ExtensionRepo.Repository.constructor | internal/extension_repo/goja_plugin.go:47-49 | a repository whose extension bank, the map the loaders write to, is empty |
| ExtensionRepo.Recover | internal/extension_repo/goja_plugin.go:23 | the loader's error is nil exactly when the JS loader finished without error; an error the loader returned passes through unchanged; a panic becomes a recovered error naming the module |
| ExtensionRepo.Repository.LoadPluginExtension | internal/extension_repo/goja_plugin.go:22-39 | JS and TS go to the JS loader; any other language gives "unsupported language: <name>" and touches nothing; a panic becomes the error; the bank stays keyed by extension ID |
| ExtensionRepo.Repository.LoadPluginExtensionJS | internal/extension_repo/goja_plugin.go:41-51 | the bank gains a plugin entry under the extension's ID exactly when NewGojaPlugin succeeds, and is otherwise unchanged |
| ExtensionRepo.Repository.LoadExternalAnimeTorrentProviderExtension | internal/extension_repo/external_anime_torrent_provider.go:13-30 | the same dispatch with "unsupported language" for other languages; a provider is registered only on success |
| ExtensionRepo.Repository.LoadExternalAnimeTorrentProviderExtensionJS | internal/extension_repo/external_anime_torrent_provider.go:32-42 | the bank gains a torrent provider entry under the ID exactly when the constructor succeeds |
| ExtensionRepo.Repository.LoadExternalMangaExtension | internal/extension_repo/external_manga_provider.go:12-27 | JS and TS dispatch; any other language loads nothing and reports no error |
| ExtensionRepo.Repository.LoadExternalMangaExtensionJS | internal/extension_repo/external_manga_provider.go:29-39 | the bank gains a manga provider entry under the ID exactly when the constructor succeeds |
| Mal.FormatInt | internal/api/mal/anime.go:137-140 | `%d`: decimal digits that read back as the number, after a minus sign exactly when it is negative, in canonical form ("0" for zero, no leading zero otherwise) |
| Mal.FormatIntRoundTrip | internal/api/mal/anime.go:137 | `%d` loses nothing: the number reads back from its decimal text |
| Mal.FormatIntInjective | internal/api/mal/anime.go:60 | distinct numbers print differently |
| Mal.FormatBool | internal/api/mal/anime.go:134 | `%t`: "true" exactly for true, otherwise "false" |
| Mal.EscapeByte | internal/api/mal/anime.go:142 | query escaping of one byte keeps it exactly when it is unreserved |
| Mal.Escape | internal/api/mal/anime.go:142 | query escaping of a byte string never shortens it and leaves unreserved text as it is |
| Mal.EscapeIsIdentityExactlyOnUnreserved | internal/api/mal/anime.go:142 | query escaping leaves a string unchanged exactly when every byte is unreserved (section 2.3 of RFC 3986) |
| Mal.FormattedValuesNeedNoEscaping | internal/api/mal/anime.go:134-140 | the `%d` and `%t` values of the form go out as they are |
| Mal.SortedKeysSpec | internal/api/mal/anime.go:142 | the encoder's key order lists every key of the form once, in strictly increasing byte order |
| Mal.SortedKeysUnique | internal/api/mal/anime.go:142 | any strictly increasing listing of the keys is that order |
| Mal.EncodePairs | internal/api/mal/anime.go:142 | the `&`-joined `key=value` pairs are empty exactly when there is no key |
| Mal.Encode | internal/api/mal/anime.go:142 | the encoded body is empty exactly when the form has no key |
| Mal.StatusForm | internal/api/mal/anime.go:129-141 | one key per option that is set and no other; the watched count goes under `num_watched_episodes`; booleans as `%t` and numbers as `%d` |
| Mal.StatusFormIsByteForm | internal/api/mal/anime.go:129-141 | every key and value is a byte string, and every key and every value other than the status is made of unreserved characters, which `Escape` sends unchanged: only the status value can need escaping |
| Mal.NoOptionsEmptyBody | internal/api/mal/anime.go:129-142 | with no option set the body is empty |
| Mal.EncodeTwoKeys | internal/api/mal/anime.go:142 | a two-key form whose text needs no escaping encodes as `k1=v1&k2=v2` in key order |
| Mal.ProgressBody | internal/api/mal/anime.go:109-112 | the progress update body is `num_watched_episodes=<n>&status=<status>` when the count is set, and `status=<status>` alone when it is nil |
| Mal.AnimeDetailsUrl | internal/api/mal/anime.go:60 | `<base>/anime/<id>?fields=<fields>`: under the base and the anime path, ending in the field query, with the ID readable back from the segment between |
| Mal.AnimeListStatusUrl | internal/api/mal/anime.go:126 | `<base>/anime/<id>/my_list_status`, the URL that line 153 builds again for delete: under the base, ending in `/my_list_status`, with the ID readable back from the segment between |
| Mal.AnimeCollectionUrl | internal/api/mal/anime.go:77 | the user's list path with `fields=list_status&limit=1000`, directly after the base |
| Mal.AnimeListStatusUrlInjective | internal/api/mal/anime.go:126 | distinct anime IDs give distinct list-status URLs |
| Mal.ProgressStatus | internal/api/mal/anime.go:103-106 | "completed" exactly when the anime has finished airing and the watched count is set and equals its episode count; otherwise "watching"; the count must be set only for an anime that has finished airing, where Go dereferences it |
| Mal.Wrapper.constructor | internal/api/mal/anime.go:59 | a client with its access token and base URL that has sent nothing |
| Mal.Wrapper.GetAnimeDetails | internal/api/mal/anime.go:59-73 | an empty token fails with "access token is empty" and sends nothing; otherwise one GET of the details URL with the requested fields, whose answer is returned |
| Mal.Wrapper.GetAnimeCollection | internal/api/mal/anime.go:75-90 | one GET of the user's list URL, whose answer is returned |
| Mal.Wrapper.UpdateAnimeProgress | internal/api/mal/anime.go:96-115 | a details error is returned with no update sent; otherwise one PATCH of the list-status URL whose body is the watched count, if set, and the status ProgressStatus picks; a nil count is accepted unless the anime has finished airing |
| Mal.Wrapper.UpdateAnimeListStatus | internal/api/mal/anime.go:124-149 | one PATCH of the list-status URL whose body is the encoded StatusForm; the server's answer is returned |
| Mal.Wrapper.DeleteAnimeListItem | internal/api/mal/anime.go:151-161 | one DELETE of the same list-status URL with an empty body |
| PlaylistHandlers.ToSlash | internal/handlers/playlist.go:39 | same length; the separator becomes `/` and every other character is kept |
| PlaylistHandlers.ToLower | internal/handlers/playlist.go:39 | same length; each upper-case ASCII letter becomes its lower-case letter (code + 32), so none is left; everything else is kept |
| PlaylistHandlers.RequestKey | internal/handlers/playlist.go:39 | the comparison key of a path: same length, no capital left, each separator turned into `/` (so none left when the separator is not a letter), each capital turned into its lower-case letter (code + 32), every other character kept |
| PlaylistHandlers.RequestKeyIdempotent | internal/handlers/playlist.go:39 | the comparison key of a key is itself |
| PlaylistHandlers.FirstMatch | internal/handlers/playlist.go:38-42 | nothing exactly when no file's normalised path is the key; otherwise the first file in database order that has it |
| PlaylistHandlers.Pick | internal/handlers/playlist.go:38-42 | one requested path gives at most one file: none exactly when no database file has its key, otherwise a database file with that key |
| PlaylistHandlers.Selected | internal/handlers/playlist.go:36-44 | the picks of the paths in request order; unmatched paths add nothing, so there are at most as many files as paths |
| PlaylistHandlers.FilterLocalFiles | internal/handlers/playlist.go:36-44 | the loop's result is Selected: each path's first match, in request order |
| PlaylistHandlers.SelectedFollowsRequestOrder | internal/handlers/playlist.go:37-44 | the result for a concatenation of requests is the concatenation of the results, so output order follows request order |
| PlaylistHandlers.SelectedOnePath | internal/handlers/playlist.go:38-42 | a single path yields nothing when unmatched, and otherwise exactly the first matching file |
| PlaylistHandlers.SelectedComesFromDatabase | internal/handlers/playlist.go:37-44 | every file is a database file whose normalised path is the key of some requested path |
| PlaylistHandlers.RepeatedPathRepeatsFile | internal/handlers/playlist.go:37-44 | a path requested twice puts its file in twice |
| PlaylistHandlers.Playlist.constructor | internal/handlers/playlist.go:47 | a new playlist with the name, no ID and no files |
| PlaylistHandlers.Playlist.SetLocalFiles | internal/handlers/playlist.go:48 | replaces the files and nothing else |
| PlaylistHandlers.HandleCreatePlaylist | internal/handlers/playlist.go:17-56 | a database error is returned; otherwise a new playlist with the name and the selected files, unless saving fails |
| PlaylistHandlers.HandleUpdatePlaylist | internal/handlers/playlist.go:81-123 | the same filter, with the playlist's ID and name taken from the request |
| PlaylistHandlers.PlaylistEpisodes | internal/handlers/playlist.go:155-181 | errors in order: database, `id`, `progress`; once all three succeed, an unknown media entry gives "media entry not found" and a known one gives its unwatched files after the progress; success exactly when every step succeeds |

## Left out

- Concurrency in the pool is not modelled. The compare-and-swap retry loop, the blocking
  receive, and Go's random choice among ready `select` cases are all missing. Each `Get`/`Put`
  is one sequential step.
- GojaRuntime.Pool.Get: requires a done context when the pool is full and nothing is idle.
  Sequentially that wait never ends any other way.
- GojaRuntime.Pool.Get and GojaRuntime.Pool.Put require an open pool. `Put` also requires a
  runtime that is checked out. In Go, a receive from a closed channel yields nil, and a send
  on one panics.
- GojaRuntime.Pool.Cleanup: requires an open pool. In Go a second `Cleanup` closes an already
  closed channel and panics; that panic is not modelled. `Manager.Cleanup` never cleans a pool
  twice, because it empties the registry after cleaning every registered pool.
- In Go, `Put` decrements `active` before its send, so a concurrent `Get` can reserve the freed
  slot in between. With maxSize 1, `Put(R1)` brings `active` to 0, a `Get` creates R2, and the
  send then queues R1: idle 1 + active 1 exceeds maxSize, and the next `Put` discards. The
  sequential model has no such interleaving, so `Sound` and `PutNeverDiscards` hold only
  there. This interleaving is read from the Go text of `Put` and `Get`.
- GojaRuntime.Pool.Get: `initFn` is taken to return a runtime or an error, never neither. In
  Go an `initFn` returning `(nil, nil)` counts a creation, keeps the reserved slot and hands
  out a nil runtime, which `Put(nil)` ignores, so that slot is never given back; the model's
  `InitResult` cannot express this case.
- GojaRuntime.Pool.constructor: the capacity is a `nat`. In Go a negative `maxSize` makes
  `make(chan …, maxSize)` panic; that panic is not modelled.
- GojaRuntime.Manager.constructor: `maxPerExt` is a `nat`, for the same reason.
- Integer widths are not modelled. The 32-bit `active`/`maxSize` and the 64-bit counters are
  unbounded here. The counts involved stay far below those limits.
- `initFn` is a function of the number of calls made before. Its side effects on the runtime
  are not modelled.
- `Manager.PrintMetrics` and all logging are left out. They affect nothing the model tracks.
- The goja interpreter (`RunString`, `RunProgram`, `MustCompile`, `Export`) is an abstract
  `Evaluator`. `JSVMTypescriptToJS` is an abstract `Transpiler`.
- `runtimeManager.Run` and `GetOrCreatePluginPool` belong to the plugin runtime outside
  `goja_runtime_manager.go` and are left abstract, so nothing is claimed about releasing
  executor runtimes:
  - `runtimeManager.Run` is left out; `RunHandler` models only the body it runs.
  - `GetOrCreatePluginPool` is a given result.
- `NewGojaPluginLoader`, `ShareBinds` and `PluginBinds` are left out. They install bindings
  whose content is outside the modelled code.
- The reflection in `BindHooks` (`MethodByName`, `MakeFunc`, `BindFunc`) and `FieldMapper` are
  replaced by a name list and a naming function. The tags argument is not modelled.
- `util.HandlePanicInModuleWithError` is not part of this model. A recovered panic is recorded
  as the module name plus the panic message.
- The provider constructors `NewGojaAnimeTorrentProvider` and `NewGojaMangaProvider` are
  abstract.
- The MAL HTTP transport `doQuery`/`doMutation`, its headers and JSON decoding are left out. The
  requests are recorded and the answers are parameters.
- Mal.Wrapper.UpdateAnimeProgress: requires the watched count to be set for an anime that has
  finished airing. Only there does the Go code read it, without a nil check, so a nil count
  panics; for any other anime a nil count is sent on and the body holds only the status.
- Mal.Wrapper.UpdateAnimeListStatus: requires a byte string as status. Go strings are bytes;
  the model's characters stand for bytes where escaping is involved.
- Mal.Wrapper.GetAnimeCollection: the answer is a list of `BasicAnime`, where Go returns
  `[]*AnimeListEntry`. The entry's list-status fields are not modelled.
- `url.Values` holding several values under one key is left out; the client sets one value
  per key.
- `BasicAnime` keeps only the fields the client reads. The `float32 Mean` and the nested
  picture and title records are dropped.
- The MAL status constants and `ApiBaseURL` are declared outside the modelled files. Their
  values are MyAnimeList's API names and a constructor parameter.
- Fiber body parsing and route parsing are left out, and so is the playlist database. Their
  results are parameters.
- `HandleGetPlaylists` and `HandleDeletePlaylist` are left out. They only pass a database
  result through.
- `GetNormalizedPath`, `GetLocalEntryById`, `GetUnwatchedLocalFiles` and `NewPlaylist` are not
  part of this model.
  - Each file carries its normalised path.
  - The entry lookup and the unwatched filter are parameters.
  - A new playlist is taken to have ID 0 and no files.
- `Language` names other than "javascript" and "typescript" are `OtherLanguage`; the type of
  its name excludes the two supported names.
- PlaylistHandlers.ToLower: ASCII letters only. Go's `strings.ToLower` is Unicode-aware.
- PlaylistHandlers.ToSlash: the separator is a parameter. `filepath.ToSlash` depends on the
  operating system.
