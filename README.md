# Ring intercom unlock server — connection lifecycle model

`docker/ring/server.ts` runs a small HTTP server with one route, `GET /unlock`, which opens a
Ring intercom. It reads its credentials from a `.env` file, connects to the Ring API, and
finds the configured intercom by location name and intercom name. If it cannot connect, it
watches `.env` and tries again after an edit. When the Ring API rotates the refresh token,
the server writes the new token back into `.env`. It marks that write as its own, so the
watcher does not react to it.

This project models the decision logic of `RingServer` in Dafny:

- `Text`: the JavaScript string operations the server uses. These are `includes` and
  `replace` with a string pattern. Both search for the first occurrence, which `IndexOf`
  finds. `replace` changes only that occurrence and expands `$` patterns in the replacement.
- `EnvConfig`: dotenv's override merge into the environment, the filter that finds missing
  variables, and configuration validation.
- `RingLookup`: choosing the location and the intercom by exact name, where the first match
  wins, and the errors the connection step throws.
- `TokenRotation`: how the `.env` text is rewritten when the refresh token is rotated.
- `UnlockRoute`: the `authenticate` middleware and the `/unlock` handler, as a pure
  mapping to a status and a body.
- `Lifecycle`: the server's fields as a record, with one function per event. Its lemmas
  cover sequences of events: a burst of file changes, a self-triggered write, recovery
  after a failed lookup, and a clean start-up.
- `Server`: the `RingServer` class. Its methods change the fields in place. Each event
  method is proved to match its `Lifecycle` function. `LoadAndValidateConfig` is proved
  against `EnvConfig.ApplyDotenv` and `EnvConfig.LoadConfig`, and `HandleUnlock` against
  `UnlockRoute.Respond`. `MismatchThenRecovery` is a worked example. It runs the class
  methods through a failed lookup, an edit of `.env` and a successful retry. It shows
  that the methods' contracts compose. `Lifecycle.RecoversAfterFailedLookup` states the
  same for all inputs.

Events and inputs. `initialize` pauses while it waits for `getLocations`. The model
therefore splits it into two events: `Initialize` runs up to the wait, and
`CompleteInitialize` runs the rest. This is where the re-entrancy guard
`isInitializing` matters: a debounce timer can fire during the wait. Other inputs enter as
parameters of the event they cause:

- the entries dotenv parsed from `.env`;
- what the Ring API returned (locations, or a failure message);
- the text `readFile` returned, or its failure;
- whether `writeFile` succeeded;
- the `Authorization` header;
- how `intercom.unlock()` settled.

Timers are explicit. The 500 ms debounce timer has an id, so replacing it is visible in
the state. The 1000 ms flag-clearing timers are counted.

Behaviour of the code that the model keeps as it is:

- The "Refresh token is not valid" test is a case-sensitive substring test. It only adds a
  log line.
- Stopping the watcher after a successful connection does not cancel a debounce timer that
  is already pending.
- The intercom from an earlier connection stays in place while a new attempt waits for the
  Ring API.
- A re-initialization can start while the server is connected. This happens when a
  debounce timer was still pending when the watcher was stopped, and fires later. If
  validation then fails, the intercom is not cleared and no watcher is armed.
- The in-memory refresh token is updated only after `writeFile` succeeds. A failed read or
  write leaves it unchanged.
- There is no connection-state enum. The state is the fields `intercom`, `watcher` and
  `isInitializing`.

The invariant `Lifecycle.Valid` holds in every state of the model. One of its parts says
there is never both a watcher and an intercom. That part is a property of the model, not of
the program: the program awaits `watcher.close()` (line 108), and while it waits both are
set. The model treats that close as immediate and successful; "## Left out" says what this
drops. Another part of `Valid` says the internal-write flag is only up while a timer that
clears it is pending.

## Model

| member | source | states |
|---|---|---|
| `Text.IndexOf` | docker/ring/server.ts:156 | gives the first position where the pattern occurs; there is a result exactly when the text `includes` the pattern |
| `Text.ExpandLiteral` | docker/ring/server.ts:157-160 | a replacement string without `$` is inserted literally by `replace` |
| `Text.ReplaceFirst` | docker/ring/server.ts:157-160 | `replace` with a pattern that does not occur returns the text unchanged |
| `Text.ReplaceFirstLiteral` | docker/ring/server.ts:157-160 | with a `$`-free replacement, only the first occurrence is replaced and the text before and after it is kept |
| `EnvConfig.ApplyDotenv` | docker/ring/server.ts:64 | with `override: true`, file entries overwrite the environment; keys that are no longer in the file keep their old values; no other keys appear |
| `EnvConfig.MissingFromExact` | docker/ring/server.ts:65-66 | the filter keeps exactly the required keys that are absent or empty |
| `EnvConfig.MissingFromAppend` | docker/ring/server.ts:66 | filtering distributes over concatenation, so the missing keys keep the order of the list |
| `EnvConfig.MissingKeysInOrder` | docker/ring/server.ts:65-66 | the missing keys come in the order RING_REFRESH_TOKEN, UNLOCK_PASSWORD, LOCATION_NAME, INTERCOM_NAME |
| `EnvConfig.LoadConfig` | docker/ring/server.ts:63-76 | validation succeeds exactly when all four variables are present and non-empty, and then the configuration takes their values; otherwise the error lists the missing keys, and that list is non-empty |
| `EnvConfig.JoinMentionsEachPart` | docker/ring/server.ts:68 | every part appears in the `join(", ")` text |
| `EnvConfig.MessageNamesMissingKey` | docker/ring/server.ts:66-68 | if any required key is missing, validation fails and the error message names that key |
| `RingLookup.FirstIndex` | docker/ring/server.ts:95-99 | `find` by exact name gives the first index with that name, and gives nothing exactly when no element has that name |
| `RingLookup.Connect` | docker/ring/server.ts:94-104 | an upstream failure is passed on unchanged; a missing location gives the "Location ... not found" error; a success is an intercom with the configured name; a missing intercom names both the intercom and the location |
| `RingLookup.ConnectChoosesFirstMatches` | docker/ring/server.ts:95-104 | the chosen intercom is the first match by name within the first location that matches by name |
| `RingLookup.ConnectSearchesOnlyFirstLocation` | docker/ring/server.ts:95-104 | if the first matching location lacks the intercom, the connection fails, even when a later location with the same name has it |
| `TokenRotation.RewriteEnvText` | docker/ring/server.ts:155-164 | for a new token without `$`: the new entry `RING_REFRESH_TOKEN=<new>` is in the written text, and a replacement changes the length by exactly the difference between the two tokens. For any token, if the old entry is absent, the new one is appended on a new line |
| `TokenRotation.RewriteReplacesFirstEntry` | docker/ring/server.ts:156-160 | for a new token without `$`: the first `RING_REFRESH_TOKEN=<old>` becomes `RING_REFRESH_TOKEN=<new>` and the rest of the file is kept |
| `UnlockRoute.AuthorizedHeaderShape` | docker/ring/server.ts:182 | a request is authorized exactly when the header is the exact `Bearer ` prefix followed by the password and nothing else |
| `UnlockRoute.Respond` | docker/ring/server.ts:181-211 | 403 with "Forbidden: Incorrect or missing password" exactly when the request is not authorized, whether or not the server is connected; 503 with "Service Unavailable: Ring Intercom is not ready" exactly when it is authorized but no intercom is present; 200 with "Intercom unlocked successfully" on a successful unlock; on a failed unlock, 500 with the device message exactly when the status code is 422, and the generic message otherwise |
| `UnlockRoute.OutcomeMattersOnlyWhenReady` | docker/ring/server.ts:189-197 | the unlock result affects the response only for an authorized request while an intercom is present |
| `Lifecycle.InitialIsValid` | docker/ring/server.ts:19-25 | the initial fields satisfy the invariant (`Valid`: a pending connection has a configuration; never both a watcher and an intercom; a pending timer has an id already handed out; the internal-write flag is up only while a clear timer is pending) |
| `Lifecycle.ArmWatcher` | docker/ring/server.ts:121-127 | used only when there is no intercom, as at lines 54 and 112; after arming, a watcher exists; arming while one exists changes nothing |
| `Lifecycle.BeginInitialize` | docker/ring/server.ts:41-79 | while `isInitializing` is set, nothing changes; otherwise the environment is merged. A validation failure leaves the configuration unchanged and arms the watcher only when there is no intercom. Only a fully validated configuration reaches the connection step, and the guard stays up exactly then |
| `Lifecycle.FinishConnection` | docker/ring/server.ts:81-119 | the result is the lookup's result; success sets the intercom and stops the watcher; failure clears the intercom and arms the watcher; the guard is lowered; the pending debounce timer and every other field are unchanged |
| `Lifecycle.FileChanged` | docker/ring/server.ts:129-140 | while the internal-write flag is set, nothing changes; otherwise exactly one new timer is pending and it differs from the previous one |
| `Lifecycle.DebounceFired` | docker/ring/server.ts:136-139 | the fired timer is no longer pending, and `initialize` runs |
| `Lifecycle.TokenRotated` | docker/ring/server.ts:142-179 | with no old token, an empty one, or an unchanged one, nothing happens. Otherwise the token is saved exactly when the read and the write succeed. A saved write holds the rewritten text, sets the flag, schedules one clear, and sets the token of an existing configuration. A failed read gives ReadFailed and a failed write gives WriteFailed with the text it tried to write. Either failure only lowers the flag and leaves the configuration's token unchanged |
| `Lifecycle.FlagCleared` | docker/ring/server.ts:172-174 | a clear timer lowers the flag even when another write's clear timer is still pending |
| `Lifecycle.BurstLeavesOneTimer` | docker/ring/server.ts:129-140 | after n change events, only the timer of the last event is pending |
| `Lifecycle.BurstFiresOnce` | docker/ring/server.ts:132-139 | after a burst, one firing leaves no timer that could fire again |
| `Lifecycle.SelfWriteIsIgnored` | docker/ring/server.ts:130 | the change event caused by the server's own successful token write does not schedule a re-initialization |
| `Lifecycle.EditAfterGraceWindowIsSeen` | docker/ring/server.ts:172-174 | after the flag is cleared, an external edit schedules a new timer |
| `Lifecycle.StartupConnects` | docker/ring/server.ts:41-110 | a start with a valid configuration and matching names connects, and the watcher is never armed |
| `Lifecycle.RecoversAfterFailedLookup` | docker/ring/server.ts:52-57 | after a failed lookup the watcher is armed; an edit and its debounce timer start a new attempt, which can connect and stop the watcher |
| `Server.RingServer.constructor` | docker/ring/server.ts:19-32 | the fields start as declared: no config, no intercom, no watcher, both flags false, no timers |
| `Server.RingServer.Initialize` | docker/ring/server.ts:41-61 | changes the fields and returns the step exactly as `Lifecycle.BeginInitialize` does |
| `Server.RingServer.LoadAndValidateConfig` | docker/ring/server.ts:63-79 | merges the file into the environment; replaces the configuration only when validation succeeds; reports the missing keys otherwise |
| `Server.RingServer.CompleteInitialize` | docker/ring/server.ts:81-119 | matches `Lifecycle.FinishConnection`; the invalid-token hint is logged exactly when the error message contains "Refresh token is not valid" (case-sensitive) |
| `Server.RingServer.WatchEnvFile` | docker/ring/server.ts:121-127 | requires that there is no intercom, as at its call sites (lines 54-56); matches `Lifecycle.ArmWatcher` |
| `Server.RingServer.OnEnvFileChange` | docker/ring/server.ts:129-140 | matches `Lifecycle.FileChanged` |
| `Server.RingServer.FireDebounce` | docker/ring/server.ts:136-139 | matches `Lifecycle.DebounceFired` |
| `Server.RingServer.OnRefreshTokenUpdated` | docker/ring/server.ts:142-179 | matches `Lifecycle.TokenRotated` |
| `Server.RingServer.ClearInternalFlag` | docker/ring/server.ts:172-174 | matches `Lifecycle.FlagCleared` |
| `Server.RingServer.HandleUnlock` | docker/ring/server.ts:181-211 | gives the response `UnlockRoute.Respond` gives for the current configuration and intercom; the response is 503 exactly when the request is authorized and no intercom is present |

## Left out

- The Express app, `listen`, the port and the request and response objects (lines 18, 27-39, 188-189). Only the status and body of `/unlock` are modelled.
- chokidar. A watcher is reduced to a flag. An `add` or `change` event is the `OnEnvFileChange` event, and it is only delivered while a watcher exists.
- The awaited `watcher.close()` (line 108). The model treats it as immediate and successful, which drops two behaviours:
  - While the program waits for it, a watcher and an intercom both exist, and change events can still schedule a debounce timer.
  - If `close()` rejects, the `catch` at lines 111-117 clears the intercom, but `this.watcher` stays set. From then on `watchEnvFile` (line 122) does nothing, so the server no longer watches `.env`.
- `fs.readFile` and `fs.writeFile`. The file's contents and the success of the write are parameters.
- dotenv's parser and the real `process.env`. The environment is a string map, and the parsed file is a map that is merged in.
- Real time. The 500 ms and 1000 ms timers are events that the environment may fire at any time after they are scheduled, with no durations.
- The Ring API client. This covers constructing `RingApi`, the token-update subscription, and every network call. The result of `getLocations` is a parameter, and so is the result of `unlock()`. Every client also subscribes the rotation handler, and that subscription is not modelled. A failure while constructing the client is treated as an upstream failure.
- The throw at lines 82-84 ("Cannot connect to Ring without a valid configuration."). Validation always sets `config` before the connection step, so this line cannot be reached. The model proves that a pending connection always has a configuration (`Lifecycle.Valid`).
- Interleavings inside `handleRefreshTokenUpdate`, between its read and its write, and during the `unlock()` call. Each of these runs as one event.
- Console output, except the invalid-token hint, which `CompleteInitialize` reports.
- `Server.RingServer.HandleUnlock`: the unlock outcome is passed in as a parameter. A change to `intercom` while `unlock()` is awaited is not modelled.
- TokenRotation.RewriteEnvText: the two replacement properties, that the new entry is present and that the length changes by the difference of the tokens, are proved only for a new token without `$`. With a `$` in the token, `replace` expands patterns (lines 157-160). For example, the new token `` $` `` turns `RING_REFRESH_TOKEN=a` into `RING_REFRESH_TOKEN=`, and the new entry is then missing. `Text.Expand` models this expansion, and the rewrite follows it, but no property is claimed for that case.
- TokenRotation.RewriteReplacesFirstEntry: stated only for a new token without `$`, for the same reason.
