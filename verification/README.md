# Verification of cert-proxy

cert-proxy distributes certificates: a server hands out the files of a certificate
directory to clients that authenticate with a client certificate, and a client
fetches the files of its domains, stores them below a base directory and runs
hooks. This project models both programs in Dafny and proves what they promise.

* `Disk`, `Names`, `Paths`: a directory tree with one atomic step per system call,
  the published, timestamped and temporary names, and path strings.
* `Execution`, `Execute`: one domain's transaction (fetch all, write each artifact
  under a name carrying the current second, publish, run the hook) as a step
  relation in which any call may fail and the process may stop anywhere, and as the
  imperative program, proved to be a run of that relation.
* `Invariant`, `Publication`, `Success`, `Exactness`, `Store`: what readers of the
  published names see at every crash point, when exactly a run succeeds and runs its
  hook, when exactly publishing is atomic, and what holds over any history of runs.
* `Pool`, `PoolInvariant`, `Locality`, `Serial`: the worker pool with its producer,
  bounded queue, error channel, wait group and hook mutex as a labelled transition
  system whose worker steps are the disk steps above; its invariants, progress,
  termination and serializability.
* `ClientRuns`: crash atomicity of the interleaved pool, and what holds over any
  sequence of whole client runs, each stopped anywhere.
* `Cache`, `Coherence`, `Staleness`: the client's copy as a cache under
  If-Modified-Since with whole seconds (section 13.1.3 of RFC 9110): one refresh;
  histories on a common clock in which the server's file is replaced between any two
  steps of a run; and what an update at the wrong moment does.
* `Validate`, `DomainList`, `Query`, `Redact`, `Requests`, `Driver`: the text
  languages in between (domain names, domain files, list bodies, queries, logged
  URLs) and the building of requests and of the pool's configuration.
* `Server`, `Access`, `Replies`, `EndToEnd`, `WholeRun`: the server's routes, handler
  chain and file selection; who is shown what; the reply to every request; client and
  server together; and when a whole client run reports success and what it has put on
  disk.

`dafny verify dfyconfig.toml` checks everything.

## Findings

* The timestamp must be fresh. A write that fails because the timestamped file
  exists already deletes that file, so two runs in one second can leave a published
  link pointing nowhere. At cmd/cert-proxy-client/cert/cert.go:246-248; exact
  condition `Exactness.AtomicIffUnlinked`, reached by `Exactness.SameSecondIsUnsafe`.
  The comment there speaks of an orphaned file; the code also removes a file it did
  not create. The model follows the code.
* `-jobs 0` makes the program succeed, shared hook included, without having fetched
  anything. At cmd/cert-proxy-client/main.go:121; `PoolInvariant.WaitResult`,
  `Driver.EveryDomainExecuted`.
* A file replaced on the server between its fetch and its local write, by the
  seconds, is never picked up by plain runs. At
  cmd/cert-proxy-client/cert/cert.go:192-196; exact condition
  `Coherence.CoherentIffNotStale`, reached by `Staleness.WindowIsNeeded`, permanent by
  `Staleness.StaleForever`, ended by one forced run by `Staleness.StaleEnded`.
* After a changed `-passout` or `-pkcs12-compat` a plain run is told 304 and keeps the
  bundle under the old password, unless the certificate is younger than the copy. At
  cmd/cert-proxy-server/pkcs12.go:49-54; exact condition
  `EndToEnd.NewPasswordIffLater`, reached by `EndToEnd.NewPasswordIgnored`.
* The server does not validate the entries of a client file, so one invalid entry
  makes the client reject the whole list. At cmd/cert-proxy-server/cnlist.go:26-28 and
  cmd/cert-proxy-client/main.go:182; exact condition `DomainList.ListRoundTrip`, reached
  by `DomainList.InvalidEntries`.

## Premises

The store is a local, case-sensitive file system with atomic rename and no foreign
writers; the clock second of a run is later than that of every earlier run on the
same directory; there is a worker or nothing to do; a request carries no data from an
earlier `Execute`. Every iteration order of a Go map is possible. Responses, times,
injected failures and iteration orders are parameters of a run. Coherence of the copy
further needs server and client to read one clock, an update to carry its moment as
its modification time, and no update of a file to fall between a fetch of it and the
second of the local write of that copy, inclusive, if the copy gets published
(`Coherence.Undisturbed`).

## Model

| member | source | states |
|---|---|---|
| `Publication.CrashAtomicity` | cmd/cert-proxy-client/cert/cert.go:229-269 | after every prefix of a run's steps, under every failure, order and mode, each published name shows its complete old file (or old absence) or its complete new one |
| `Publication.CrashConfinement` | cmd/cert-proxy-client/cert/cert.go:360-399 | no path but the request's own names is ever changed, and private data never lies in a file others may read, not even half written |
| `Publication.FetchFailureIsSilent` | cmd/cert-proxy-client/cert/cert.go:189-220 | if any item's fetch fails, the tree is unchanged at every step |
| `Publication.PublishedIffFresh` | cmd/cert-proxy-client/cert/cert.go:229-269 | once publishing is over, exactly the items answered 200 with a non-empty body have been published |
| `Publication.SuccessIsOverlay` | cmd/cert-proxy-client/cert/cert.go:189-269 | a successful run shows the old view overlaid with the fetched non-empty bodies, at mode 0600 for keys and bundles and 0644 otherwise |
| `Publication.OrderIndependence` | cmd/cert-proxy-client/cert/cert.go:255-269 | two successful runs that differ in the map order and in tolerated failures leave the same view |
| `Publication.PublishedForm` | cmd/cert-proxy-client/cert/cert.go:255-269 | an item is published as a link to its timestamped file in the same directory, or as the file itself with the timestamped name gone |
| `Publication.PublishStops` | cmd/cert-proxy-client/cert/cert.go:255-269 | the first link or rename that fails ends the run with an error: nothing more is published or removed and no hook is run |
| `Success.SucceedsIff` | cmd/cert-proxy-client/cert/cert.go:186-323 | a run in which no call fails from outside succeeds, within the bound, if and only if every item is answered 304 or 200 in full, the directory is there or can be made, no timestamped file and no occupied directory is in the way of an item with a body, and the hook is absent or succeeds |
| `Success.SuccessNeeds` | cmd/cert-proxy-client/cert/cert.go:186-323 | no run succeeds otherwise, whatever calls fail |
| `Success.HookRunsOnce` | cmd/cert-proxy-client/cert/cert.go:319-322 | in a finished run, whatever calls failed, the hook has been run once if there is one and everything fetched is published, and not at all otherwise; a successful run has been through it |
| `Success.HookRunsIff` | cmd/cert-proxy-client/cert/cert.go:319-322 | without failures from outside: if and only if there is one, every item is answered and nothing is in the way |
| `Success.NoPartialLeft` | cmd/cert-proxy-client/cert/cert.go:246-250 | a finished run leaves under a new timestamped name the complete file or nothing, unless the clean-up itself failed |
| `Invariant.InvInit` | cmd/cert-proxy-client/cert/cert.go:186-189 | the transaction invariant holds before the first step |
| `Invariant.InvStep` | cmd/cert-proxy-client/cert/cert.go:186-323 | every atomic step keeps it, whichever call fails |
| `Invariant.InvAt` | cmd/cert-proxy-client/cert/cert.go:186-323 | so it holds after any number of steps |
| `Invariant.InvWrite` | cmd/cert-proxy-client/cert/cert.go:360-386 | the steps of writeFile and of the clean-up change only the item's own timestamped file, created exclusively, at its final mode before any content |
| `Invariant.InvPublish` | cmd/cert-proxy-client/cert/cert.go:255-269 | publishing steps replace one name at a time by a complete file or a link to one |
| `Invariant.LayoutAt` | cmd/cert-proxy-client/cert/cert.go:235-243 | the published, timestamped and temporary path of an item differ and share the domain's directory |
| `Invariant.LayoutPair` | cmd/cert-proxy-client/cert/cert.go:235-243 | nor do those of two items meet |
| `Execute.Execute` | cmd/cert-proxy-client/cert/cert.go:186-323 | the program ends in the state the step relation reaches, every disk state on its way is one of that run, and under the premises it is atomic, overlaid on success, and silent on a failed fetch; with no failure from outside it returns nil exactly if every item is answered, nothing is in the way and the hook succeeds; a nil return with a hook has run it once |
| `Execute.FetchItems` | cmd/cert-proxy-client/cert/cert.go:189-220 | the fetch loop succeeds exactly if every item is answered 304 or 200 in full, returns exactly the bodies received, and touches no file |
| `Execute.WriteItems` | cmd/cert-proxy-client/cert/cert.go:224-251 | the write loop records exactly the items with data, under their timestamped names, and cleans up after a failure |
| `Execute.PublishItems` | cmd/cert-proxy-client/cert/cert.go:255-269 | the publishing loop, in the map's order |
| `Execute.WriteFile` | cmd/cert-proxy-client/cert/cert.go:360-386 | writeFile takes the model's steps and returns their error; in terms of the disk, without failures it succeeds exactly if the directory can be had and nothing is at the path, and then the file is there with content and mode |
| `Execute.EnsureDir` | internal/shared/mkdir.go:9-24 | Mkdir accepts an existing directory, and only a directory |
| `Execute.ReplaceSymlink` | cmd/cert-proxy-client/cert/cert.go:389-399 | the name ends as a link to the target, whatever was at the temporary name, exactly if no call fails and no occupied directory is there; the first removal's failure is ignored |
| `Execute.PromiseKept` | cmd/cert-proxy-client/cert/cert.go:186-323 | the guarantees of the step relation hold for the program's recorded disk states |
| `Execution.Terminates` | cmd/cert-proxy-client/cert/cert.go:186-323 | every run ends within a bound given by its number of items |
| `Execution.Settled` | cmd/cert-proxy-client/cert/cert.go:186-323 | a finished run changes nothing any more |
| `Execution.StepDecreases` | cmd/cert-proxy-client/cert/cert.go:186-323 | each step strictly lowers a rank |
| `Disk.FileSystem.Invoke` | cmd/cert-proxy-client/cert/cert.go:246-265 | one system call: the new tree and error are those of the call, or the injected failure with the tree unchanged |
| `Disk.CallFrame` | cmd/cert-proxy-client/cert/cert.go:360-399 | a call changes no path but those it names |
| `Exactness.AtomicIffUnlinked` | cmd/cert-proxy-client/cert/cert.go:246-250 | all runs of a second are atomic at all steps if and only if no published name links to a file of that second |
| `Exactness.DirMadeAt` | internal/shared/mkdir.go:9-24 | a run that has created a file has its domain's directory, made by it or found |
| `Exactness.SameSecondIsUnsafe` | cmd/cert-proxy-client/cert/cert.go:225-250 | after a successful run in symlink mode that published something, some second run in the same second loses a published name |
| `Exactness.LinkedIsLost` | cmd/cert-proxy-client/cert/cert.go:246-248 | the run in question, with its step |
| `Exactness.CollisionDeletes` | cmd/cert-proxy-client/cert/cert.go:246-250 | a timestamped file that exists already makes the exclusive open fail and is deleted |
| `Store.StoreAcrossRuns` | cmd/cert-proxy-client/cert/cert.go:225-269 | over any history of runs on a directory and its siblings, each failing or stopping anywhere, those on the directory in increasing seconds, every published link targets an existing file in its directory and all later seconds stay free |
| `Store.StoreKept` | cmd/cert-proxy-client/cert/cert.go:225-269 | one run keeps that invariant for every plain name, requested or not |
| `Store.StoreReady` | cmd/cert-proxy-client/cert/cert.go:225-243 | the invariant and a later second give the premises of crash atomicity again |
| `Store.NeverPartial` | cmd/cert-proxy-client/cert/cert.go:229-269 | after any history a published name shows its first content or one some run fetched in full |
| `PoolInvariant.PoolInvAlways` | cmd/cert-proxy-client/worker/worker.go:35-122 | in every reachable state each request is in exactly one of unsent, queued, in flight, finished; collected and pending error reports add up to the failures; the mutex is held exactly by the running hook |
| `PoolInvariant.WaitResult` | cmd/cert-proxy-client/worker/worker.go:100-122 | Wait returns the number of failed requests; each request was finished exactly once, if and only if there was a worker or no request |
| `PoolInvariant.RefusedRunsNothing` | cmd/cert-proxy-client/worker/worker.go:78-86 | a failed EnqueueTasks executes no request |
| `PoolInvariant.SharedHookLast` | cmd/cert-proxy-client/main.go:124-146 | the shared hook runs at most once, after all workers have gone and without any failure |
| `PoolInvariant.SharedHookIff` | cmd/cert-proxy-client/main.go:124-146 | under every schedule a program that has ended has run the shared hook if and only if there is one, all requests could be built and none failed; and it reports success if and only if they could, none failed and the hook, if any, succeeded |
| `PoolInvariant.ChannelSafety` | cmd/cert-proxy-client/worker/worker.go:75-115 | no send on and no second close of a closed channel; the error channel closes after all workers are done |
| `PoolInvariant.Progress` | cmd/cert-proxy-client/worker/worker.go:35-122 | every reachable unfinished state has an enabled step |
| `PoolInvariant.ActDecreases` | cmd/cert-proxy-client/worker/worker.go:35-122 | every step of every part lowers one measure |
| `PoolInvariant.AlwaysFinishes` | cmd/cert-proxy-client/worker/worker.go:35-122 | no schedule is longer than the initial measure, and one that cannot go on has let the driver finish |
| `PoolInvariant.AllAtOnce` | cmd/cert-proxy-client/worker/worker.go:43-62 | as many requests as there are workers can be under way at once, each able to go on |
| `Locality.StepLocal` | cmd/cert-proxy-client/cert/cert.go:186-323 | on trees agreeing in the domain's directory and its parent entry a step does the same and they still agree |
| `Locality.StepConfined` | cmd/cert-proxy-client/cert/cert.go:186-323 | a step changes nothing outside the domain's directory |
| `Serial.Serializable` | cmd/cert-proxy-client/worker/worker.go:43-97 | for every pool size and interleaving, the final tree and each domain's outcome are those of executing the requests one after another in any order |
| `Serial.StepDisk` | cmd/cert-proxy-client/worker/worker.go:52-60 | every worker step keeps each domain's directory equal to that of the domain executed alone |
| `Serial.HookIsolation` | cmd/cert-proxy-client/cert/cert.go:319-322 | at most one hook runs; during it all its domain fetched is published and no other worker's step changes a path in its directory |
| `ClientRuns.PoolAtomicity` | cmd/cert-proxy-client/worker/worker.go:43-62 | wherever the interleaved workers are stopped, every published name of every domain shows its complete old file or its complete new one |
| `ClientRuns.ServedStore` | cmd/cert-proxy-client/worker/worker.go:43-62 | and every domain's directory keeps the store invariant |
| `ClientRuns.StoreAcrossClientRuns` | cmd/cert-proxy-client/main.go:121-131 | over any sequence of whole client runs, each a schedule of its pool stopped anywhere, every domain's directory keeps the store invariant |
| `ClientRuns.NeverPartialAcrossClientRuns` | cmd/cert-proxy-client/main.go:121-131 | and a published name shows its first content or one some run fetched in full |
| `Coherence.TracedAlways` | cmd/cert-proxy-client/cert/cert.go:189-269 | in every history of updates between any steps of any runs, without a premise on their times, the visible copy is what the server had at its fetch, with the time of its write |
| `Coherence.CoherentIffNotStale` | cmd/cert-proxy-client/cert/cert.go:192-196 | after every history: a differing copy is older, in seconds, than the server's file, if and only if the latest update did not fall between the copy's fetch and write seconds with another content |
| `Coherence.CoherentAlways` | cmd/cert-proxy-client/cert/cert.go:189-220 | so in every history without an update between the fetch and write seconds of a published copy a differing copy is older, in seconds, than the server's file |
| `Coherence.FetchNotModified` | cmd/cert-proxy-server/serve.go:165 | in such a history a 304 is given only for an identical copy |
| `Coherence.SuccessShowsFetched` | cmd/cert-proxy-client/cert/cert.go:189-269 | in such a history a successful run shows what the server had at its fetch, whether sent or answered 304 |
| `Coherence.CopyNotOlder` | cmd/cert-proxy-client/cert/cert.go:189-251 | after any history the visible copy is never older, in seconds, than the version it was made from |
| `Coherence.PlainEqualsForced` | cmd/cert-proxy-client/cert/cert.go:192-196 | a plain run of an undisturbed history and a forced run of any history that fetched the same content end in the same content |
| `Coherence.ForcedShowsFetched` | cmd/cert-proxy-client/cert/cert.go:192-196 | after any history, disturbed or not, a forced run that succeeds shows the non-empty content the server had at its fetch |
| `Staleness.WindowIsNeeded` | cmd/cert-proxy-client/cert/cert.go:189-251 | after any history, any run that would refresh the copy leaves a stale one if the server's file is replaced at any moment between its fetch and its write, inclusive |
| `Staleness.UpdateStaleIffInWindow` | cmd/cert-proxy-client/cert/cert.go:192-196 | once a copy is visible, an update makes it stale if and only if it falls into the copy's window, the rest of the write's second included, and makes a difference |
| `Staleness.StaleForever` | cmd/cert-proxy-server/serve.go:165 | whatever plain runs follow, a stale copy stays visible and different from the server's content |
| `Staleness.StaleEnded` | cmd/cert-proxy-client/cert/cert.go:192-196 | one successful forced run that fetched the server's latest version ends it |
| `Cache.NotModifiedIsIdentical` | cmd/cert-proxy-server/serve.go:165 | from a coherent copy, a 304 is given only for an identical one |
| `Cache.RefreshIsCurrent` | cmd/cert-proxy-client/cert/cert.go:189-269 | from a coherent copy, a successful run shows the server's content if and only if that is not empty or was shown before |
| `Cache.ForcedIsCurrent` | cmd/cert-proxy-client/cert/cert.go:192-196 | from any good store, coherent or stale, a forced run that succeeds is sent the server's content in full, whatever the copy, and ends showing it |
| `Cache.ForcedRunCures` | cmd/cert-proxy-client/cert/cert.go:189-269 | a forced run in which nothing goes wrong ends any stale copy |
| `Cache.StaleIffNotLater` | cmd/cert-proxy-client/cert/cert.go:192-196 | a plain run picks up a changed file if and only if its second is later than the local copy's |
| `Names.DecRoundTrip` | cmd/cert-proxy-client/cert/cert.go:225 | the decimal infix determines its second |
| `Names.DecCanonical` | cmd/cert-proxy-client/cert/cert.go:225 | and has no leading zero |
| `Names.InfixRoundTrip` | cmd/cert-proxy-client/cert/cert.go:235-243 | name and second can be read back from a timestamped name |
| `Names.InfixWritten` | cmd/cert-proxy-client/cert/cert.go:235-243 | the second is put between stem and extension, behind a hyphen |
| `Names.NamesApart` | cmd/cert-proxy-client/cert/cert.go:235-243 | timestamped names are equal only for equal names and seconds, and never equal a published or a temporary name |
| `Names.TmpInjective` | cmd/cert-proxy-client/cert/cert.go:389-390 | temporary names are equal only for equal names |
| `Paths.CleanKeepsLocation` | cmd/cert-proxy-client/cert/cert.go:144 | cleaning a path changes neither the location it names nor an already clean path |
| `Paths.CleanResolves` | cmd/cert-proxy-client/cert/cert.go:144 | in every working directory the cleaned path names what the path named, leading and inner ".." included |
| `Paths.JoinedResolves` | cmd/cert-proxy-client/cert/cert.go:144 | in every working directory domain and file lie below what the base directory names |
| `Paths.LocateNormal` | cmd/cert-proxy-client/cert/cert.go:144 | a located path has no empty or "." component, and ".." only in front of a relative one |
| `Paths.JoinedLocation` | cmd/cert-proxy-client/cert/cert.go:144 | domain and file stay the last two components below any base directory |
| `Paths.SiblingStrings` | cmd/cert-proxy-client/cert/cert.go:235-243 | infix, temporary name, directory and base name computed on the whole path string are those of the file name in its directory |
| `Requests.NewReq` | cmd/cert-proxy-client/cert/cert.go:123-181 | fails exactly for an invalid domain or a URL that cannot be parsed; otherwise the items of the format's roles with their paths, URLs and privacy, and no data |
| `Requests.NewItem` | cmd/cert-proxy-client/cert/cert.go:135-178 | one item: its location is base, domain, file, and it is private exactly for a key or a bundle |
| `Requests.FilesMatchURLs` | cmd/cert-proxy-client/cert/cert.go:71-97 | for every item: what /v1/stem/domain answers goes to base/domain/stem.pem, a bundle to bundle.pfx, with the bundle's query on a bundle only; it is private exactly for the stems privkey and bundle |
| `Requests.FilesOfFormat` | cmd/cert-proxy-client/cert/cert.go:59-62 | a request has exactly the files cert.pem, privkey.pem, chain.pem and fullchain.pem, or bundle.pfx alone, or none, once each |
| `Requests.SetBundleQuery` | cmd/cert-proxy-client/cert/cert.go:159-172 | the bundle's format, password and compatibility parameters on top of the proxy's query |
| `Requests.BuiltIsWellFormed` | cmd/cert-proxy-client/cert/cert.go:59-97 | every request built meets the premises of Execute's guarantees |
| `Requests.BuiltStrings` | cmd/cert-proxy-client/cert/cert.go:235-243 | "should not happen" is unreachable for a built request, and the strings Execute computes name the model's paths |
| `Requests.LocalPrinted` | cmd/cert-proxy-client/cert/cert.go:144 | the local path is base, domain, file, unchanged by cleaning |
| `Requests.RemotePathSplits` | cmd/cert-proxy-server/serve.go:76-87 | splitting the URL path of a role and a valid domain gives both back, and cleaning keeps the path |
| `Requests.BundleQueryReadBack` | cmd/cert-proxy-server/serve.go:129 | the server reads back the password byte for byte, and the format and compatibility asked for |
| `Requests.BuildRequests` | cmd/cert-proxy-client/worker/worker.go:75-86 | one request per domain in some order, complete with every role's path, URL and privacy and the hook, or none at all exactly if one cannot be built |
| `Requests.BuiltIsValid` | cmd/cert-proxy-client/worker/worker.go:75-97 | the requests work in distinct sibling directories |
| `Driver.Prepare` | cmd/cert-proxy-client/main.go:51-125 | gives up exactly for an unreadable or invalid domain file or a refused list; otherwise the pool has min(jobs, domains) workers and exactly the complete requests for all static and pushed domains |
| `Driver.CollectNames` | cmd/cert-proxy-client/main.go:62-117 | the set of domains to fetch, all valid |
| `Driver.AskedIff` | cmd/cert-proxy-client/main.go:62-117 | a domain is asked for if and only if a line of the domain file names it or, with -auto, a line of the server's list does |
| `Driver.GivesUpIff` | cmd/cert-proxy-client/main.go:62-117 | main gives up if and only if the domain file cannot be read, has a line too long or names no domain, or, with -auto, there is no list or a line of it is too long or neither blank nor one domain |
| `Driver.EveryDomainExecuted` | cmd/cert-proxy-client/main.go:121-131 | when Wait returns every domain was executed exactly once, if and only if jobs is not 0 or there is no domain |
| `Validate.LabelsNonEmpty` | internal/list/validate.go:51-55 | no label is empty exactly when no dot leads, trails or meets another |
| `Validate.ValidDomainIff` | internal/list/validate.go:42-58 | the valid domains are the labels of letters, digits, "*", "_" and "-" joined by single dots |
| `Validate.ValidClientNameIff` | internal/list/validate.go:64-84 | the client names are those without "*" whose first label is not a device name in any spelling: CON, PRN, AUX, NUL, COM or LPT with a digit |
| `Validate.ValidIsOneComponent` | internal/list/validate.go:42-58 | a valid domain is one path component, neither "." nor "..", and has no blank, comment sign or line end |
| `DomainList.UniqStrings.Add` | internal/list/list.go:80-84 | the union with the items |
| `DomainList.UniqStrings.Items` | internal/list/list.go:87-94 | every key once, in some order |
| `DomainList.UniqStrings.Copy` | internal/list/list.go:97-102 | a fresh set with the same keys |
| `DomainList.AddItemsFromReader` | internal/list/list.go:43-55 | adds exactly the entries of the lines scanned, and succeeds exactly if every line fits the scanner |
| `DomainList.ParsedIsEntriesOf` | internal/list/list.go:43-55 | within the limit a file means the stripped entries of all its lines |
| `DomainList.ParsedIff` | internal/list/list.go:43-55 | a name is read from a file if and only if some line consists of blanks, the name, blanks and possibly a comment, the name with no "#" and no blank at its ends |
| `DomainList.ParsedBeforeTooLong` | internal/list/list.go:43-55 | of a file with a line too long, what the lines before it hold in that sense |
| `DomainList.CommentNamesNothing` | internal/list/list.go:46 | a line that begins with "#" names nothing |
| `DomainList.CommentChangesNothing` | internal/list/list.go:46 | "#" and anything behind a line change nothing of what it names |
| `DomainList.CommentedOut` | internal/list/list.go:46 | so a file is none the richer for a commented-out line |
| `DomainList.ParseHomomorphism` | internal/list/list.go:43-55 | two files joined by a newline mean the union |
| `DomainList.EntriesShape` | internal/list/list.go:46-50 | no entry is empty, holds "#" or a newline, or begins or ends with a blank |
| `DomainList.PrintParse` | internal/list/list.go:43-55 | a file with valid domains one per line means those domains |
| `DomainList.FetchCNs` | cmd/cert-proxy-client/main.go:179-190 | the scan loop returns the body's domains, or nothing at the first invalid one or a line too long |
| `DomainList.FetchedIff` | cmd/cert-proxy-client/main.go:179-190 | a body is accepted if and only if each line fits and is blank or one valid domain among white space, and then means those domains |
| `DomainList.FetchOwnBody` | cmd/cert-proxy-server/serve.go:106 | fetchCNs undoes the printing of any list of valid domains, the empty one included |
| `DomainList.ListRoundTrip` | cmd/cert-proxy-client/main.go:179-190 | the client gets exactly the authorised set, for every map order, if and only if all entries of the file are valid |
| `DomainList.OneEntry` | cmd/cert-proxy-client/main.go:179-190 | what becomes of one authorised entry: the client asks for it stripped of all blanks, or refuses the list |
| `DomainList.InvalidEntries` | cmd/cert-proxy-server/cnlist.go:26-28 | an entry that is no domain makes the client refuse the list; one with a blank only the client strips makes it ask for a name it is not authorised for |
| `Query.EscapeRoundTrip` | cmd/cert-proxy-client/cert/cert.go:156-172 | percent-encoding (section 2.1 of RFC 3986) of any byte string is undone by decoding |
| `Query.EscapeIsInert` | cmd/cert-proxy-client/cert/cert.go:156-158 | an escaped value holds no query syntax |
| `Query.UnescapeIff` | cmd/cert-proxy-client/cert/cert.go:159 | decodable are exactly the strings of plain bytes, plus signs and percent signs with two digits of either case, and to what those stand for |
| `Query.PairIff` | internal/shared/redact.go:21 | a piece of a query is a pair if and only if it has no ";" and is a key, or a key, the first "=" and a value, both decodable |
| `Query.ParseGlued` | internal/shared/redact.go:21 | pieces between ampersands are read one by one in order, an error in one taking away that one only |
| `Query.QueryRoundTrip` | cmd/cert-proxy-client/cert/cert.go:172 | parsing an encoded list of pairs gives it back without an error |
| `Query.ValuesRoundTrip` | internal/shared/redact.go:45 | parsing what Encode prints gives back every key with all its values |
| `Query.GetIsFirst` | cmd/cert-proxy-server/serve.go:56 | Get answers with the first value of a key, and with nothing for an absent one |
| `Query.Sorted` | internal/shared/redact.go:45 | Encode's keys, strictly increasing |
| `Redact.RedactedURL` | internal/shared/redact.go:12-48 | the loop over the secret names masks exactly the present ones, and the unchanged URL is printed only if there is none |
| `Redact.RedactionIndependence` | internal/shared/redact.go:30-47 | two parseable URLs carrying a secret are logged alike if and only if they agree in everything but the values of secrets |
| `Redact.RedactionKeeps` | internal/shared/redact.go:32-47 | the logged query parses back to all parameters with all values, secrets replaced |
| `Redact.HarmlessKept` | internal/shared/redact.go:41-43 | a URL without a secret is logged as it is |
| `Redact.MalformedHidden` | internal/shared/redact.go:21-28 | a malformed query is logged as REDACTED and nothing else of it |
| `Server.CnList` | cmd/cert-proxy-server/cnlist.go:14-33 | the parsed set of a valid client name, or why there is none |
| `Server.Authn` | cmd/cert-proxy-server/auth.go:18-30 | passes exactly with a peer certificate, recording its name; otherwise 401 |
| `Server.Authz` | cmd/cert-proxy-server/auth.go:31-71 | passes exactly if the fourth segment is in the peer's own list; otherwise the error reply, with nothing else written |
| `Server.Serve` | cmd/cert-proxy-server/serve.go:35-168 | the reply by format, number of segments, role and file state, with every error status |
| `Server.Use` | cmd/cert-proxy-server/main.go:51-61 | handlers run in order on a fresh context and none after a failing one |
| `Server.NewMux` | cmd/cert-proxy-server/main.go:64-75 | the six routes with their handler chains |
| `Server.ServeMux.ServeHTTP` | cmd/cert-proxy-server/main.go:64-75 | a request is answered by the chain of its pattern |
| `Access.PatternsApart` | cmd/cert-proxy-server/main.go:67-72 | no path falls under two routes |
| `Access.PrivateMaterialGuarded` | cmd/cert-proxy-server/auth.go:31-71 | a response with a key or bundle, stored or new, over any route: the peer has a certificate with a valid client name, and the segment actually served is in that client's list |
| `Access.PublicRoutesSeePublic` | cmd/cert-proxy-server/serve.go:141-144 | replies on public routes depend on cert, chain and fullchain files only, whatever the domain string |
| `Access.GuardedRoutesConfined` | cmd/cert-proxy-server/auth.go:59-68 | on guarded routes an unauthorised peer learns nothing of the certificates, an authorised one only the role's own files of the segment and its bundle: sites that differ in anything else answer alike |
| `Access.GuardedRoutesOwnDirectory` | cmd/cert-proxy-server/serve.go:109-144 | for a valid domain that is its own directory |
| `Access.OtherFilesHidden` | cmd/cert-proxy-server/serve.go:109-144 | no answer for a valid domain changes with a file outside its directory, such as another domain's key |
| `Access.ServedOrigin` | cmd/cert-proxy-server/serve.go:109-144 | a file served carries the route's role in its last component and comes from the segment authz checked |
| `Access.OpenPathEnds` | cmd/cert-proxy-server/serve.go:142-144 | the file name survives joining and cleaning for every domain string, and a proper name is the directory |
| `Access.OpenPathBelow` | cmd/cert-proxy-server/serve.go:142-144 | whatever the domain string, ".." included, the file is opened in what that string names below the certificate directory, never above it |
| `Access.AuthzAccepts` | cmd/cert-proxy-server/auth.go:31-71 | the error reply is absent exactly for an authorised segment |
| `Access.ItemAnswer` | cmd/cert-proxy-server/serve.go:54-165 | the server's answer to any item of a built request, in full |
| `Access.ServerIsCacheSource` | cmd/cert-proxy-server/serve.go:109-165 | a stored file, and a generated bundle where none is stored, answers as the cache argument assumes |
| `Access.ListAgreement` | cmd/cert-proxy-server/serve.go:90-108 | a name is in the list the client gets if and only if authz accepts the key's path for it |
| `Access.ListAlwaysAnswered` | cmd/cert-proxy-server/serve.go:90-108 | a list is answered exactly to a peer whose client file can be used |
| `Replies.FileRoutesAnswer` | cmd/cert-proxy-server/serve.go:54-165 | the one reply to any request for a role and a last segment, as a table: 401 without a certificate, a valid client name, a client file or the entry; 500 for a client file that cannot be read or does not fit; 400 for an unknown format, in letters of either case, or compatibility level; 404 for a missing file and 500 for an unreadable one; otherwise the file or the new bundle, or 304 |
| `Replies.DeepPathsRefused` | cmd/cert-proxy-server/serve.go:76-87 | a path with more segments is refused, on a guarded route after the check of its fourth segment |
| `Replies.ListRouteAnswers` | cmd/cert-proxy-server/serve.go:90-108 | the replies on /v1/list: the domains of the peer's file, or 401, 400 or 500 and for which reason |
| `Replies.OtherPathsUnknown` | cmd/cert-proxy-server/main.go:64-75 | every other path is answered 404 |
| `EndToEnd.SuccessfulRunMirrorsServer` | cmd/cert-proxy-client/cert/cert.go:186-323 | a successful run of a built request against this server leaves in base/domain, by literal names, cert.pem, privkey.pem, chain.pem and fullchain.pem with the content of the server's files of that name, or bundle.pfx with that of bundle.p12 or of the bundle made for this password and level |
| `EndToEnd.NewPasswordIffLater` | cmd/cert-proxy-server/pkcs12.go:36-92 | a plain run gets the bundle under a changed password or level if and only if the certificate is younger, in seconds, than the copy; otherwise it is answered 304 and keeps the old one |
| `EndToEnd.NewPasswordIgnored` | cmd/cert-proxy-server/pkcs12.go:36-92 | after any history that delivered the bundle under the old password, every plain run before the next update is answered 304 and keeps it |
| `WholeRun.RunMirrorsServer` | cmd/cert-proxy-client/main.go:121-131 | when Wait returns without an error, every domain's directory mirrors the server's in that sense, for every number of workers and every interleaving |
| `WholeRun.NoErrorsAllSucceeded` | cmd/cert-proxy-client/worker/worker.go:100-122 | a pool with workers that reports no error has executed every request to its successful end |
| `WholeRun.FailedIff` | cmd/cert-proxy-client/worker/worker.go:100-122 | a program that has ended has no failed request if and only if it had no worker or each request succeeds when executed alone |
| `WholeRun.EndsAsRequestsDo` | cmd/cert-proxy-client/main.go:121-146 | under every schedule the shared hook has run and success is reported if and only if all requests can be built and each succeeds alone (and the shared hook does) |
| `WholeRun.ReportsSuccessIff` | cmd/cert-proxy-client/main.go:121-146 | with workers and no failure from outside: success is reported if and only if for every domain every item is answered 304 or 200 in full, nothing on the disk is in the way, and its hook and the shared hook succeed |
| `EndToEnd.BuiltAsksFormat` | cmd/cert-proxy-client/cert/cert.go:159-172 | the query built for an item selects the item's format on the server |

## Left out

- TLS, sockets, HTTP methods, ranges and entity tags, and the router's own redirections: a handler under /v1/X/ is taken to see paths with that prefix, and ServeContent to compare whole seconds.
- PEM, X.509 and PKCS12 encoding: a generated bundle is an opaque answer to domain, password and compatibility level. A bundle takes its time from the certificate alone, so a change of key or chain without one of the certificate is an update without a new time, outside the premises; and making a bundle twice from the same input is taken to give the same bytes.
- Error texts and log lines of the server: a reply carries its status, not its message.
- Flag parsing, usage, version header, secret sources and startup checks: plumbing.
- The arguments and environment of hooks, and their body: a hook is an opaque step that ends and does not write into the store.
- Driver.Prepare: takes -jobs as a non-negative number; a negative one panics when the queue's channel is made.
- Disk.FileSystem.Invoke: an open file is named by its path, write appears as a partial and a full write of the content, rename of directories and chains of symbolic links are not modelled, and the file mode mask is the hardened 0077.
- Execution.Terminates: counts the client's own steps; that each HTTP request and each hook ends is assumed.
- Coherence.CoherentAlways: follows one file of one domain and that domain's own runs; that other workers leave its directory alone is `Serial.Serializable` and `Locality.StepConfined`. The server's file goes from one version to the next at one moment.
- Atomicity across the certificate, key and chain of one domain: the code gives it per name only.
- Execute.Execute: runs on its own file system object, so locking the hook mutex is a step of its run; contention for the mutex is in the pool.
- Server.ServeMux.ServeHTTP: takes any matching pattern, not the most specific one; for the six routes there is only one.
- Server.Serve: the format parameter is upper-cased as ASCII; Go also maps the long s to S.
- DomainList.AddItemsFromReader: the scanner's limit counts characters of the model, which stand for bytes; Go trims Unicode blanks in fetchCNs after decoding UTF-8.
- NFS, Windows path rules and case-insensitive file systems: outside the premises.
- The manual-page registry, certificate-authority scripts, packaging and service files: no core logic.
