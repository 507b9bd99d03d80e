# aur-builder, modelled in Dafny

aur-builder keeps a set of Arch User Repository (AUR) and git-hosted packages
built. It runs as several processes around a message broker and a database.

- **Server.** In a loop it fetches the upstream metadata of every configured
  package. It records that metadata in the `package_metadata` table and
  publishes a build task to the `pkg_build` queue for every package whose
  upstream timestamp moved forward. It then sleeps for five minutes.
- **Worker.** It consumes `pkg_build` one delivery at a time and builds each
  task in a fresh Docker container. It classifies the container's first wait
  event into a build result. On success it acknowledges the delivery and
  publishes the result to `build_results`; otherwise it rejects (nacks) it.
- **Result reporter.** This is a consumer task spawned by the server. It saves
  every result as a row of the `build_results` table, forwards the same value
  to `notifications`, and then acknowledges it.

The model covers these decision procedures. Each one is specified by a pure
function, and the loops and state changes are proved against those functions:

| module | file | source |
|---|---|---|
| `Types` | types.dfy | common/src/types.rs |
| `Common` | common.dfy | common/src/lib.rs |
| `Errors` | errors.dfy | common/src/errors.rs |
| `Database` | database.dfy | database/src/lib.rs |
| `Broker` | broker.dfy | the queue names and broker interactions shared by the processes |
| `Docker` | docker.dfy | worker/src/build/docker.rs |
| `Build` | build.dfy | worker/src/build/mod.rs |
| `Worker` | worker.dfy | worker/src/main.rs |
| `Server` | server.dfy | server/src/main.rs |
| `Reporter` | reporter.dfy | server/src/setup_rabbit_mq.rs |

Every call into the outside world becomes an input of the model:

- **Docker.** Each call's success, the wait and log streams, the two clock
  readings and the random draw for the container name form one `DockerWorld`
  value per build.
- **Database writes.** Whether the database accepts the k-th write is
  `writeOk(k)`.
- **Connection attempts.** The outcome of the k-th attempt is `connect(k)`.
- **Broker deliveries.** They form a sequence of tagged payloads. A payload is
  either the decoded value or `Undecodable`.
- **Upstream fetches.** Each one is a `FetchResult`.

What the processes do to the broker is an ordered list of `BrokerEvent`s.

The store's two tables are the fields of the class `Database.Store`. Its
methods are specified by the functions `Upsert`, `ResetLastModified` and
`SaveResult` on a `StoreState` value. The server's update loop is specified
by the fold `Server.Dispatched`, the worker's consumer by `Worker.Consumed`,
and the reporter's consumer by `Reporter.Reported`. Each fold goes over those
functions. The store invariant `WellFormed` is kept by every method:

- package ids increase and names are unique;
- ids lie below the next id to be assigned;
- every build record belongs to a stored package.

Two behaviours of the code are easy to misread, and the model follows the
code in both:

- **Fetch failures.** The code unwraps every fetch, so one failed fetch ends
  the process before any store update (server/src/main.rs:53, 59). It does
  not skip only that package for the current pass. `Server.PollPass` returns
  `FetchPanicked` with the store and the outbox untouched.
- **Ack before publish.** The worker acknowledges a successful task first
  and publishes its result second (worker/src/main.rs:74-81). A crash
  between the two loses the result, because the task is already removed
  from the queue. `Worker.PublishFollowsAck` states the order the code has.

## Model

| member | source | states |
|---|---|---|
| `Common.BrokerAddress` | common/src/lib.rs:20 | The broker address is AMQP_ADDR when it is set and `amqp://127.0.0.1:5672/%2f` otherwise. |
| `Common.ConnectWithRetry` | common/src/lib.rs:21-44 | It connects with the first successful attempt, after at most 10 failures, and every earlier attempt failed. It exits with the given code only when all 11 attempts (counter 0 to 10) failed. Each failure is followed by one constant 10-second pause. |
| `Common.ConnectToRabbitmq` | common/src/lib.rs:18-45 | It exits with code 5 if and only if all 11 attempts fail; otherwise it returns the first successful connection. |
| `Common.Decimal` | common/src/lib.rs:48 | A u32's `to_string` is a non-empty string of digits with no leading zero except for 0 itself. |
| `Common.DecimalRoundTrip` | common/src/lib.rs:48 | Reading the decimal text back gives the number. |
| `Common.DecimalLength` | common/src/lib.rs:48 | A number below 10^k has at most k decimal digits. |
| `Common.RandString` | common/src/lib.rs:47-49 | `get_rand_string` is 1 to 10 digits and reads back as the drawn u32. |
| `Common.RandStringInjective` | common/src/lib.rs:47-49 | Different draws give different strings. |
| `Errors.ParseI64` | common/src/errors.rs:15 | A parsed key is within the i64 range and starts with a digit or a sign. |
| `Errors.ParseI64RoundTrip` | common/src/errors.rs:15 | Every i64's decimal text parses back to it. |
| `Errors.CodeOf` | common/src/errors.rs:15 | A key that does not parse as an i64 gets code -1; otherwise it gets the parsed value. |
| `Errors.DescriptionOf` | common/src/errors.rs:16 | A string value is kept and any other value becomes "". |
| `Errors.CreateErrorMap` | common/src/errors.rs:10-21 | The loop inserts every member in order. A non-object document gives the empty map. |
| `Errors.ErrorMapKeys` | common/src/errors.rs:13-18 | The map's codes are exactly the codes of the members' keys. |
| `Errors.ErrorMapLastWins` | common/src/errors.rs:17 | The description under a code is the one of the last member with that code. |
| `Errors.ErrorDescription` | common/src/errors.rs:27-29 | Lookup returns the stored description, or "Unknown error" when the code is absent. |
| `Errors.DescriptionFromDocument` | common/src/errors.rs:10-29 | Looking a code up in the map built from a document gives "Unknown error" when no member has that code. Otherwise it gives the description of the last member that has it. |
| `Errors.UnparseableKeysCollide` | common/src/errors.rs:15-17 | Two non-numeric keys both land on -1, and the later one wins. |
| `Errors.MissingFieldMessage` | common/src/errors.rs:46-50 | The text is `Field '`, the field name, then `' is missing`, and the name can be read back from it. |
| `Database.IndexOfName` | database/src/lib.rs:119-124 | It finds the first row with the name, or reports that no row has it. |
| `Database.IndexOfId` | database/src/lib.rs:154-158 | It finds a row with the id, or reports that no row has it. |
| `Database.PackageByName` | database/src/lib.rs:119-124 | `get_package_by_name` returns a stored row with that name, or None exactly when no row has it. |
| `Database.Decide` | database/src/lib.rs:97-106 | It inserts exactly when no row has the name. It overwrites the named row when its stored timestamp is strictly older, and otherwise keeps it. |
| `Database.UpsertWellFormed` | database/src/lib.rs:80-109 | `update_metadata` keeps the store well formed. |
| `Database.UpsertKeepsRecords` | database/src/lib.rs:80-109 | `update_metadata` never touches build records. |
| `Database.UpsertInsertsNew` | database/src/lib.rs:103-106 | An unknown name is appended as a new row under the next id with the fetched fields, and the call returns true. |
| `Database.UpsertOverwritesOlder` | database/src/lib.rs:97-102 | A stored row with an older timestamp is overwritten in place with the fetched fields and keeps its id; the call returns true. |
| `Database.UpsertKeepsCurrent` | database/src/lib.rs:97-108 | When the fetched timestamp is not newer, nothing changes and the call returns false, whatever the write would do. |
| `Database.UpsertFlagIgnoresWrite` | database/src/lib.rs:100-104 | The return value is the decision, not the write outcome. A refused write leaves the store as it was. |
| `Database.UpsertKeepsOtherNames` | database/src/lib.rs:83-106 | A lookup by any other name finds the same row before and after. |
| `Database.UpsertFindsOwnRow` | database/src/lib.rs:83-106 | After an accepted insert or overwrite, a lookup by the name finds the fetched fields under the new or the kept id. |
| `Database.ResetWellFormed` | database/src/lib.rs:126-131 | A reset keeps the store well formed. |
| `Database.ResetForcesChange` | database/src/lib.rs:126-131 | After a reset, any fetch of that package with a positive timestamp makes `update_metadata` report a change. |
| `Database.ToI32` | database/src/lib.rs:162 | `as i32` keeps the value modulo 2^32 within the i32 range, and keeps any value already in range. |
| `Database.JoinAppend` | database/src/lib.rs:163 | `join("")` of two line lists is the concatenation of their joins. |
| `Database.SaveWellFormed` | database/src/lib.rs:150-172 | Saving a result keeps the store well formed. |
| `Database.SaveOnlyAppends` | database/src/lib.rs:154-169 | Package rows never change. A record is written exactly when a package has the task's id and the insert is accepted; otherwise nothing changes. |
| `Database.RecordsOf` | database/src/lib.rs:137-138 | It keeps exactly the records of the package, each as often as it is stored. |
| `Database.InsertNewestFirst` | database/src/lib.rs:139 | Inserting into a newest-first list keeps it newest first and adds exactly that record. |
| `Database.SortNewestFirst` | database/src/lib.rs:139 | The result is newest first and a permutation of the input. |
| `Database.BuildResultsFor` | database/src/lib.rs:133-144 | `get_build_results` returns exactly the package's records (as a multiset), ordered by start time, newest first. |
| `Database.Store.UpdateMetadata` | database/src/lib.rs:80-109 | The new tables and the returned flag are those of `Upsert`, and the store stays well formed. |
| `Database.Store.ResetPackageLastModified` | database/src/lib.rs:126-131 | The new tables and the outcome are those of `ResetLastModified`: only that row's timestamp becomes 0, and a missing id is reported as the panic. |
| `Database.Store.SaveBuildResults` | database/src/lib.rs:150-172 | The new tables and the outcome are those of `SaveResult`. |
| `Database.ConnectToDb` | database/src/lib.rs:175-201 | It exits with code 4 exactly when all 11 attempts fail; otherwise it returns the first successful connection. |
| `Docker.ImageName` | worker/src/build/docker.rs:19-28 | The image is the configured builder, or the default image, then `:` and the crate version. |
| `Docker.LogMessageToString` | worker/src/build/docker.rs:50-52 | A line is the stream name, `: `, then the text. |
| `Docker.ContainerName` | worker/src/build/docker.rs:100 | The name is `build-`, the task name, `-`, then the 1 to 10 digits of the random draw. |
| `Docker.ContainerNamesDiffer` | worker/src/build/docker.rs:100 | Different draws give different container names for the same task. |
| `Docker.CollectLogs` | worker/src/build/docker.rs:165-181 | The loop's lines are `LogLinesOf` the stream: one prefixed line per stdout or stderr chunk, other kinds skipped, stopping at the first read error. |
| `Docker.LogLinesStopAtError` | worker/src/build/docker.rs:175-178 | Nothing after a read error reaches the lines. |
| `Docker.LogLinesConcat` | worker/src/build/docker.rs:167-181 | Without read errors, the lines keep stream order: the lines of a concatenation are the concatenated lines. |
| `Docker.ContainerEnvOf` | worker/src/build/docker.rs:106-125 | The environment is the six fixed variables in order, with "" for a missing subfolder or options, then each task variable as NAME=VALUE in task order. |
| `Docker.ContainerEnv` | worker/src/build/docker.rs:106-125 | The push loop builds exactly `ContainerEnvOf`. |
| `Docker.Build` | worker/src/build/docker.rs:86-224 | The returned value is `ExpectedBuild`. Once the runtime is reachable, the requested container has the name, image, user `builder`, environment and CPU limits above. |
| `Docker.BuildClassification` | worker/src/build/docker.rs:189-220 | There is a result exactly when every runtime call succeeded and the first wait event carries a code. The result copies the task, logs and clock readings. A normal exit gives that status code with success; a container wait error gives that code without success. |
| `Docker.OnlyFirstWaitEvent` | worker/src/build/docker.rs:155-221 | Only the first wait event matters. |
| `Docker.RemovalFailureWins` | worker/src/build/docker.rs:183-185 | A failed removal makes the build an error even after a clean exit. |
| `Docker.ImagePullIgnored` | worker/src/build/docker.rs:91-94 | A failed image pull changes nothing. The source only logs the pull's outcome, so no definition reads `imagePullOk` and the lemma holds by construction. |
| `Docker.CleanExitSucceeds` | worker/src/build/docker.rs:201-206 | Exit code 0 gives a successful result with status 0. |
| `Build.AurGitUrl` | worker/src/build/mod.rs:7 | The URL is `https://aur.archlinux.org/`, the name, then `.git`, and the name can be read back from it. |
| `Build.AurGitUrlInjective` | worker/src/build/mod.rs:7 | Different names give different URLs. |
| `Build.SourceUrl` | worker/src/build/mod.rs:6-9 | A task's own source is used unchanged; without one, its AUR git URL is used. |
| `Build.BuildPackage` | worker/src/build/mod.rs:5-12 | The result is the container build's, untranslated. The container is given the chosen URL and the task's own subfolder. |
| `Build.ContainerSource` | worker/src/build/mod.rs:6-11 | The container's first two variables are the chosen source and the task's subfolder (or ""). |
| `Worker.SettleCount` | worker/src/main.rs:72-90 | Handling one decoded delivery acks or nacks its own tag exactly once and no other tag. |
| `Worker.CrashIsFinal` | worker/src/main.rs:66-70 | After a panic nothing further happens. |
| `Worker.Consume` | worker/src/main.rs:29-91 | The events are the set-up (prefetch 1, declare and consume `pkg_build`, declare `build_results`) followed by `Consumed`: per delivery, ack then publish the result, or nack. |
| `Worker.SettlesOnlyOwnTags` | worker/src/main.rs:64-91 | A tag no delivery carries is never acked or nacked. |
| `Worker.NoCrashWhileDecoded` | worker/src/main.rs:66-70 | Decoded deliveries never panic the worker. |
| `Worker.SettledExactlyOnce` | worker/src/main.rs:64-91 | With distinct tags, every delivery that reaches the build is acked or nacked exactly once. |
| `Worker.CrashAt` | worker/src/main.rs:66-70 | An undecodable delivery ends the run with the events it had. |
| `Worker.NothingSettledAfterCrash` | worker/src/main.rs:66-70 | After an undecodable delivery, no tag that only later deliveries carry is ever settled. |
| `Worker.NothingSettledFromCrash` | worker/src/main.rs:66-70 | With distinct tags, the undecodable delivery and every later one are neither acked nor nacked. |
| `Worker.PublishFollowsAck` | worker/src/main.rs:73-81 | Every publish goes to `build_results` and comes directly after an ack. |
| `Worker.CleanBuildScenario` | worker/src/main.rs:72-81 | A task whose container exits 0 is acked, then a successful result with status 0 for that task is published. |
| `Server.LoadConfig` | server/src/main.rs:30-36 | A configuration that fails to load ends the process with code 4. |
| `Server.Gathered` | server/src/main.rs:49-61 | The fetched data is in configuration order, one entry per package. None means some fetch failed. |
| `Server.PassData` | server/src/main.rs:49-61 | A pass's data is every AUR package's, then every git package's, and it is absent exactly when a fetch failed. |
| `Server.Gather` | server/src/main.rs:51-61 | The fetch loop computes `Gathered`. |
| `Server.DispatchEntry` | server/src/main.rs:64-90 | One entry takes exactly the step `Step`. |
| `Server.Dispatch` | server/src/main.rs:63-91 | The new store, the published tasks and the panic flag are those of `Dispatched`. |
| `Server.PollPass` | server/src/main.rs:47-93 | A fetch failure panics before any store change or publish. Otherwise the pass is `Dispatched` over the AUR and then git data, and it ends in the 300-second sleep unless the re-read panicked. |
| `Server.PanicIsFinal` | server/src/main.rs:68 | After the re-read panics, the store and outbox stay as they were. |
| `Server.Selected` | server/src/main.rs:63-66 | The selected entries are exactly those newer than the store. |
| `Server.DispatchKeepsOtherNames` | server/src/main.rs:63-91 | Entries with other names leave a lookup by this name unchanged. |
| `Server.StepFits` | server/src/main.rs:64-77 | One accepted step adds a task exactly when the entry is newer. The task has id, name, source and subfolder from the stored row, and version, options and env from the fetched data. The entry is current afterwards. |
| `Server.PublishIffNewer` | server/src/main.rs:63-77 | With distinct names and accepted writes, a pass never panics. It publishes one fitting task per entry newer than the store, in fetched order, and leaves every entry current. The half saying that a current entry gets no task holds without either condition; that is `Server.NoTaskForCurrent`. |
| `Server.QuietWhenCurrent` | server/src/main.rs:63-66 | Entries none of which is newer change nothing and publish nothing. |
| `Server.StepKeepsCurrent` | server/src/main.rs:63-77 | After one accepted update the pass has not panicked and the entry is current. Every entry that was current stays current, including one with the same name, because an overwrite only moves the stored timestamp forward. |
| `Server.AllCurrentAfterPass` | server/src/main.rs:63-77 | If every write of a pass is accepted, the pass never panics and no entry is left newer than the store, even when a name appears more than once. |
| `Server.StepSparesCurrentName` | server/src/main.rs:63-77 | One entry, whatever its write does, publishes no task under a name whose stored row is current for it, and leaves that name's row unchanged. |
| `Server.NoTaskForCurrent` | server/src/main.rs:63-77 | For any configuration, duplicates included, and any write outcomes: a name all of whose entries are not newer than the starting store gets no task in the pass, and its stored row is unchanged. |
| `Server.RepeatedPassIsQuiet` | server/src/main.rs:47-92 | If every write of the first pass is accepted, a second pass over the same upstream data publishes nothing and changes nothing, for any configuration, including one that lists a package twice. It needs the accepted writes: `Server.FailedOverwritePublishesStaleRow` shows that after a refused overwrite the next pass publishes that entry again. |
| `Server.FailedInsertPanics` | server/src/main.rs:64-68 | A refused insert leaves nothing to re-read, so the pass panics. |
| `Server.FailedOverwritePublishesStaleRow` | server/src/main.rs:64-77 | A refused overwrite still publishes a task built from the stale row and the fetched version. |
| `Reporter.CrashIsFinal` | server/src/setup_rabbit_mq.rs:57-76 | After a panic the consumer handles nothing more. |
| `Reporter.ReportEntry` | server/src/setup_rabbit_mq.rs:58-74 | One delivery takes exactly the step `Report`: decode, save, forward, ack. |
| `Reporter.Consume` | server/src/setup_rabbit_mq.rs:13-76 | The events are the three queue declarations and the consume on `build_results`, followed by `Reported`. The store is `Reported`'s store. |
| `Reporter.PackagesUntouched` | server/src/setup_rabbit_mq.rs:64-65 | The reporter never changes a package row. |
| `Reporter.ReportedShape` | server/src/setup_rabbit_mq.rs:57-76 | A prefix of the deliveries is handled completely and in order: saved as the next record, forwarded as the same value, then acked. If the consumer stops early, the delivery it stopped at was undecodable or failed to save. |
| `Reporter.AckedIffHandled` | server/src/setup_rabbit_mq.rs:65-74 | With distinct tags, a delivery is acked once if it was handled and never otherwise. |
| `Reporter.MissingPackageCrashes` | server/src/setup_rabbit_mq.rs:65 | A result for an unknown package id panics the consumer: nothing is saved, forwarded or acked. |
| `Reporter.ReportSaved` | server/src/setup_rabbit_mq.rs:64-74 | A decoded result for a known package with an accepted insert is appended as the next record, forwarded to `notifications`, then acked. |
| `Reporter.ReplayDuplicates` | server/src/setup_rabbit_mq.rs:57-76 | The same result delivered twice is saved twice and forwarded twice: there is no deduplication. |

## Left out

- JSON encoding and decoding (serde) and UTF-8 validation are left out because they are derived by a library. A delivery is either its decoded value or `Undecodable`, and every consumer panics on the latter.
- Database read errors are left out. The `?` and `unwrap` on the reads in `update_metadata`, `get_package_by_name` and `save_build_results` are assumed to succeed; only whether a write is accepted is an input.
- Broker transport failures are left out: failed publishes, acks and nacks, channel creation and queue declaration are assumed to succeed. Their `unwrap`/`expect` panics are not modelled.
- `attach_logs` (worker/src/build/docker.rs:54-84) is left out: it is a detached task that only writes debug logs.
- Calls into Docker (bollard), the broker (lapin) and the database (sea-orm) become inputs. So do the clock readings and the random draws.
- The worker configuration file is an input (`WorkerConfig`), and so is its loading. A failure to load it (an `unwrap` in `get_image_name` and `build`) is not modelled.
- The server's configuration loading is reduced to its outcome (`Server.LoadConfig`). config_handler.rs is not part of this model.
- Server.PollPass: the endless `loop` is one pass. Repeated passes are related by `Server.RepeatedPassIsQuiet`.
- Server.PollPass: the outbox is the sequence of tasks published to `pkg_build`. The JSON text and the awaited publish confirmation are not modelled.
- The panic of the reporter's spawned task ends only that task, not the server process. The model stops the reporter's run and does not model the server continuing.
- The fetchers (server/src/package_checkers/aur.rs and git.rs) are left out because they are HTTP and git I/O. Their results are the `FetchResult` inputs.
- The web UI (web/src/main.rs), the notifier (notifier/src/main.rs), the migrations, common/src/config.rs and build.rs are not part of this model.
- The historical `src/` tree is left out because it is superseded by the workspace crates.
- `Database::new` is the connection attempt that `connect_to_db` repeats (database/src/lib.rs:186). Its outcome is the input `connect(k)` of `Database.ConnectToDb`.
- `migrate`, which the server runs once at start-up before the poll loop (server/src/main.rs:40), is left out: it applies the schema migrations, which are not part of this model.
- The environment reads through `get_environment_variable` are assumed to succeed. These are `DATABASE_URL` on every connection attempt (database/src/lib.rs:184) and `AB_CONFIG_PATH` before the server loads its configuration (server/src/main.rs:29). That helper panics when the variable is unset (src/environment.rs:6), so the process would then panic instead of retrying or exiting with code 4.
- `get_packages`, `get_package` and `get_build_result` are left out: they are plain lookups that no core operation calls.
- The result reporter runs as a spawned task alongside the poll loop, on a clone of the same database (server/src/setup_rabbit_mq.rs:56-57). The model runs `Reporter.Consume` and `Server.PollPass` separately. Interleaving them changes nothing the model states: the reporter writes only build records, the pass writes only package rows, and no package row is ever removed, so the reporter's lookup by id and the pass's lookup by name see the same answers in any order.
- Docker.LogMessageToString: the chunk bytes are decoded with `String::from_utf8_lossy` (worker/src/build/docker.rs:51), which replaces invalid UTF-8 sequences. A `LogChunk` already holds decoded text, so that replacement is not modelled.
- Integer widths are left out: ids, timestamps and status codes are unbounded. The one narrowing the code performs, the `as i32` cast of a status code, is modelled by `Database.ToI32`.
- Timestamps are integers, because only their order is used.
- Errors.CreateErrorMap: the members are taken in the document's iteration order, which is an input.
- Docker.Build: the log stream is read once, after the first wait event, as in the source. Its interleaving with the running container is not modelled.
