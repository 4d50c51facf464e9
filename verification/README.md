# Ignite CLI: serve loop, relayer configuration, scaffolding and their helpers

A Dafny model of the logic of the Ignite CLI that is kept under `cli/`, and proofs of what it promises. Each
component is modelled in the form of its source: what works by changing fields or in loops is a class or a method,
proved against a specification function, and the properties over whole runs are lemmas about that function.

| files | component |
|---|---|
| `Serve`, `ServeRuns` | the hot-reload loop: which binary is started, and on which state, over every run |
| `RelayerConfig`, `Relayer`, `RelayerRuns`, `RelayerStart` | chain setup, path naming, linking and the concurrent relaying loops over one file |
| `Placeholder`, `Markers`, `Scaffold*`, `Generators`, `GeneratorRuns`, `ModuleRuns`, `PacketRuns`, `ImportRuns`, `InsertRuns`, `ProtoTexts` | placeholder rewriting: markers that survive, texts that stay, field and packet numbers read off the text, import lines, dry runs |
| `Faucet`, `FaucetRuns` | the faucet's quota over a sliding window of the chain's history |
| `Writers` | the line prefixer and the truncated buffer on any split of a stream |
| `Numbers`, `NumberLists`, `SharePercent`, `SharePercentExact` | number lists and decimal percentages in machine integers |
| `Protoc`, `ProtocGraph` | the search for proto dependencies on an import graph |
| `EventBus`, `EventRuns`, `SpinnerRuns` | the event bus, the print loop, the prints and the cleanup, in every interleaving of their acts |
| `Cache`, `Dirchange` | the namespaced cache over sorted buckets, and directory checksums |
| `Common`, `Text`, `Decimal` | shared types, Go's string functions, decimal notation |

How the outside world enters. A command that fails, a clock, a reply of a node or a remote relayer, an edit between
two rounds, a full sink: each is an input of the step it happens in, and the theorems hold for all of them. File
contents are strings or bytes, versions and app states are opaque numbers, and a checksum is identified with what it
was computed from.

Results that are not what the source's comments say, with the exact condition in the lemma named:

- A state exported on cancel is lost when a restore is interrupted in a round with no new source, unless the current
  genesis already holds it (`ServeRuns.InterruptedRestoreLosesState`); a state that is not exported, because the app
  ended otherwise or the export failed, is lost with the next new source (`ServeRuns.UnexportedStopSurvives`); the
  three checksums must be saved as a whole (`ServeRuns.SplitSaveCanStartStaleBinary`); a reset asked for once is
  forgotten after a failed build (`ServeRuns.FailedBuildIsRetried`).
- The faucet's check lets through a request whose sum wraps around 64 bits (`FaucetRuns.LimitIsExceeded`), and one that
  holds two positive coins of a denomination (`FaucetRuns.RepeatedDenomExceeds`); the maximum is then exceeded if the
  send command, which is an input of the request, takes such a list.
- A percentage with 18 or more places can be accepted as another number (`SharePercentExact.AcceptedIsExact`), and a
  percentage with a single digit and no point is refused (`SharePercentExact.WholeAccepted`).
- The cleanup of a session can leave the spinner turning (`SpinnerRuns.SpinnerAfterCleanup`), also when it falls in the
  pause of a neutral event (`SpinnerRuns.PauseKeepsTurning`).
- With several senders Go's `sync.WaitGroup` can panic because it is used again too early
  (`EventRuns.ImpatientSendPanics`, `EventRuns.TwoSendersCanReuse`).
- The modification returned by a run of several generators covers only the last (`ScaffoldRunner.DryRunGatesWetRun`).

`dafny verify dfyconfig.toml` checks the whole project.

## Model

| member | source | states |
|---|---|---|
| `Serve.Chain.Decide` | cli/ignite/services/chain/serve.go:268-312 | whether the home counts as initialised and the app as modified, from the three saved checksums, the reset flag and a missing config or binary |
| `Serve.Chain.PrepareHome` | cli/ignite/services/chain/serve.go:338-358 | initialise, restore the exported genesis or restart, and what each leaves behind when it fails half way |
| `Serve.Chain.SaveChecksums` | cli/ignite/services/chain/serve.go:361-375 | the three checksums are saved in order, the config one only if there is a config file, and a failure leaves the earlier ones saved |
| `Serve.Chain.Start` | cli/ignite/services/chain/serve.go:381-430 | a start is logged with the source, config, binary and state it finds, and leaves the state the app reached |
| `Serve.Chain.ServeOnce` | cli/ignite/services/chain/serve.go:250-379 | one call of serve against its specification: world, error, served flag and launches |
| `Serve.Chain.Conclude` | cli/ignite/services/chain/serve.go:145-194 | the error cases of the loop: export on a cancelled and served app, wait, or give up |
| `Serve.Chain.HandleToken` | cli/ignite/services/chain/serve.go:119-194 | one refresh token is the edit, the call of serve and the conclusion |
| `Serve.Chain.Serve` | cli/ignite/services/chain/serve.go:113-197 | the loop over refresh tokens; a reset that was asked for once holds for the first token only |
| `ServeRuns.SourceCoherenceOfOneRound` | cli/ignite/services/chain/serve.go:283-375 | a round, wherever it fails, breaks the agreement of the saved source and binary exactly when the binary save fails after a new source was saved |
| `ServeRuns.CoherenceOfOneRound` | cli/ignite/services/chain/serve.go:276-375 | the same for config, source and binary: exactly when a save fails between two new checksums |
| `ServeRuns.LaunchIsCurrent` | cli/ignite/services/chain/serve.go:272-378 | start is never reached with a binary that was not built from the current source (and config), also after a third party replaced the binary |
| `ServeRuns.EveryLaunchIsCurrent` | cli/ignite/services/chain/serve.go:113-378 | over every run of sessions, edits, resets, failures and stops with whole checksum saves, each started app was built from the source of its round |
| `ServeRuns.SplitSaveCanStartStaleBinary` | cli/ignite/services/chain/serve.go:361-378 | four runs of the tool, two of which give up because the binary save and the import fail, and the last starts a stale binary: whole saves are needed |
| `ServeRuns.FailedBuildIsRetried` | cli/ignite/services/chain/serve.go:138-144 | after a failed build the next round builds again exactly when the checksums say so: a reset asked for once is forgotten |
| `ServeRuns.UndisturbedRound` | cli/ignite/services/chain/serve.go:268-378 | a round in which no step fails starts the app on the fresh genesis if there is a reset, no home, another config, or a new source or binary with nothing exported; else on the exported state if source or binary is new; else on the database, or the genesis if there is none - with the binary built anew in just these cases |
| `ServeRuns.ResetStartsAfresh` | cli/ignite/services/chain/serve.go:283-287 | --force-reset or --reset-once starts the app on the fresh genesis, whatever was saved or exported |
| `ServeRuns.UndisturbedWorld` | cli/ignite/services/chain/serve.go:338-375 | what such a round leaves on the disk: binary, checksums, home, database, genesis, exported state |
| `ServeRuns.FaultOfRound` | cli/ignite/services/chain/serve.go:250-379 | the failure of a step that the round takes is its error and nothing is started; one of a step it does not take goes unnoticed |
| `ServeRuns.DiskAfterFault` | cli/ignite/services/chain/serve.go:338-375 | what is on the disk when a step fails, for each step |
| `ServeRuns.LoopGoesOn` | cli/ignite/services/chain/serve.go:145-194 | the loop ends on an error that is neither a cancellation nor a failed build, and on a failed export; else it goes on, with the state of a cancelled and served app exported |
| `ServeRuns.RecoverableRound` | cli/ignite/services/chain/serve.go:328-375 | a round without a launch keeps the last state recoverable, and a launch comes up with it |
| `ServeRuns.StateSurvives` | cli/ignite/services/chain/serve.go:137-165 | over every careful run of sessions, each start resumes from the state of the stop before it, whether restarted in place or re-imported |
| `ServeRuns.InterruptedRestoreLosesState` | cli/ignite/services/chain/serve.go:349-358 | after a restore that failed half way the next start recovers the state if and only if the source had changed or the genesis already held it |
| `ServeRuns.UnexportedStopSurvives` | cli/ignite/services/chain/serve.go:145-187 | however an app ends that is not exported (by itself, with an error, cancelled unserved, or with a failed export), the next undisturbed start resumes from it if and only if the source is the same or the state before was the same |
| `ServeRuns.FaucetFailureLosesState` | cli/ignite/services/chain/serve.go:145-175 | so an app that ends without being cancelled loses its state with the next change of the source, which brings back the older one |
| `RelayerConfig.ChainByID` | cli/ignite/pkg/relayer/config/config.go:26-33 | the first chain with the ID |
| `RelayerConfig.PathByID` | cli/ignite/pkg/relayer/config/config.go:35-42 | the first path with the ID |
| `RelayerConfig.UpdatePath` | cli/ignite/pkg/relayer/config/config.go:44-52 | replaces the first path of that ID in the shared slice, so the caller sees it, and says whether there was one |
| `RelayerConfig.File.Get` | cli/ignite/pkg/relayer/config/config.go:81-90 | fails for a non-empty configuration of another version, else loads it into a slice of its own |
| `RelayerConfig.File.Save` | cli/ignite/pkg/relayer/config/config.go:92-95 | writes the configuration with the supported version |
| `Relayer.ReadableFiles` | cli/ignite/pkg/relayer/config/config.go:81-90 | a missing file and whatever is saved can be read, a file of another version cannot |
| `RelayerConfig.FindUpdated` | cli/ignite/pkg/relayer/config/config.go:44-52 | after an update a lookup of that ID gives the new path, and of any other ID what it gave before |
| `Relayer.EnsureChainSetup` | cli/ignite/pkg/relayer/chain.go:256-304 | merges into the chain of that ID, appends a new one, or refuses another RPC address and leaves the file alone |
| `Relayer.GuessInjective` | cli/ignite/pkg/relayer/chain.go:215-229 | the names id, id-2, id-3, ... are pairwise different |
| `Relayer.GuessNames` | cli/ignite/pkg/relayer/chain.go:215-229 | the names tried are a-b, a-b-2, a-b-3, and so on |
| `Relayer.TakenBound` | cli/ignite/pkg/relayer/chain.go:218-229 | pigeonhole: a configuration cannot have used up more of these names than it has paths |
| `Relayer.Connect` | cli/ignite/pkg/relayer/chain.go:203-253 | the naming loop ends for every configuration, takes the first free name, and appends exactly that path |
| `Relayer.Link` | cli/ignite/pkg/relayer/relayer.go:42-71 | linking against its specification: result, calls made and file, saved after each reply |
| `RelayerRuns.LinksOnce` | cli/ignite/pkg/relayer/relayer.go:48-68 | a run of Link keeps every link, calls no linked path and no path twice, and links what it called unless that call failed |
| `Relayer.LinkPath` | cli/ignite/pkg/relayer/relayer.go:48-68 | one path: skipped, refused or called, its reply put into the loaded configuration and saved |
| `RelayerRuns.QuietLink` | cli/ignite/pkg/relayer/relayer.go:54-56 | Link succeeds without a call if and only if every given path is linked, and then changes nothing |
| `RelayerRuns.LinkTwice` | cli/ignite/pkg/relayer/relayer.go:39-71 | linking the same paths again makes no call and leaves the configuration as it is |
| `RelayerRuns.LinkResumes` | cli/ignite/pkg/relayer/relayer.go:58-67 | after a Link that stopped midway no answered call is repeated |
| `RelayerRuns.LinkStores` | cli/ignite/pkg/relayer/relayer.go:48-68 | Link stores the reply to each answered call under its path and changes nothing else; it succeeds if and only if every given path is linked or has both its chains, and every call is answered |
| `RelayerRuns.LinkCalls` | cli/ignite/pkg/relayer/relayer.go:48-68 | the calls are for the given paths that are not linked, each once, in the order given - all of them when it succeeds |
| `RelayerRuns.MissingChainStops` | cli/ignite/pkg/relayer/relayer.go:119-189 | a path with a chain that is not in the configuration ends Link before any call |
| `RelayerRuns.ConnectThenLink` | cli/ignite/pkg/relayer/chain.go:203-253 | a connected path has the ports, versions and ordering it was asked for and no link; linking it calls the remote with just that path and stores the reply |
| `RelayerRuns.SetupMeans` | cli/ignite/pkg/relayer/chain.go:275-304 | setup is refused if and only if the ID is there with another RPC address; a new chain is appended, and one that is there takes over every setting that is given |
| `RelayerRuns.SetupKeeps` | cli/ignite/pkg/relayer/chain.go:275-304 | chain setup keeps the configuration well formed and every recorded RPC address |
| `RelayerRuns.ConnectKeeps` | cli/ignite/pkg/relayer/chain.go:203-253 | a new path keeps IDs distinct and both its ends resolve |
| `RelayerRuns.LinkKeeps` | cli/ignite/pkg/relayer/relayer.go:42-71 | linking keeps the configuration well formed and extends it |
| `RelayerRuns.RunKeeps` | cli/ignite/pkg/relayer/relayer.go:42-117 | over every run of setup, Connect, Link and ticks: distinct path and chain IDs, both ends of every path resolve, RPC addresses and path ends never change |
| `RelayerStart.CommitReply` | cli/ignite/pkg/relayer/relayer.go:93-105 | what a tick does under the mutex: load, update its path, save |
| `RelayerStart.ActKeepsInvariant` | cli/ignite/pkg/relayer/relayer.go:83-106 | each atomic action of any goroutine keeps: mutex holder, local copies equal to the file, file equal to the committed replies |
| `RelayerStart.NoLostUpdate` | cli/ignite/pkg/relayer/relayer.go:74-117 | in every interleaving the file holds for each path the last reply committed for it or its initial value, and the same chains |
| `RelayerStart.ActSaves` | cli/ignite/pkg/relayer/relayer.go:81-105 | the one step of a tick that writes the file writes the reply of its loop, on the file as it is then, and records it |
| `RelayerStart.AnsweredTickIsSaved` | cli/ignite/pkg/relayer/relayer.go:81-114 | in every schedule: a loop whose call is answered and that does not fail never stops, and when it is through, its reply is among what was committed since the call |
| `RelayerStart.UndisturbedTickCommits` | cli/ignite/pkg/relayer/relayer.go:81-105 | with the mutex free, five steps of a loop commit its reply and give the mutex back |
| `RelayerStart.MutexIsExclusive` | cli/ignite/pkg/relayer/relayer.go:94-97 | never two loops between load and save |
| `RelayerStart.FailStops` | cli/ignite/pkg/relayer/relayer.go:81-114 | a loop that fails stops, writes nothing and gives the mutex back |
| `RelayerStart.StartKeeps` | cli/ignite/pkg/relayer/relayer.go:74-117 | every interleaving ends in a configuration that one sequence of ticks reaches, and it is well formed |
| `Placeholder.Tracer.Replace` | cli/ignite/pkg/placeholder/tracer.go:66-74 | replaces the first occurrence, or reports the placeholder as missing |
| `Placeholder.Tracer.ReplaceAll` | cli/ignite/pkg/placeholder/tracer.go:57-63 | replaces every occurrence, or reports the placeholder as missing |
| `Placeholder.Tracer.ReplaceOnce` | cli/ignite/pkg/placeholder/tracer.go:77-82 | leaves a content that has the replacement alone, else replaces |
| `Placeholder.Tracer.Err` | cli/ignite/pkg/placeholder/tracer.go:90-113 | nothing is reported if and only if no placeholder was missing and no other error recorded |
| `Placeholder.OnceThenPresent` | cli/ignite/pkg/placeholder/tracer.go:76-82 | ReplaceOnce is idempotent: after it the replacement is present |
| `Generators.ApplyEdit` | cli/ignite/pkg/placeholder/tracer.go:57-82 | one edit of a generator is the tracer calls the source makes for it |
| `Generators.ModifyImports` | cli/ignite/templates/ibc/packet.go:218-225 | the import loop: drop the line everywhere, put it below the marker |
| `Generators.ProtoModify` | cli/ignite/templates/ibc/packet.go:175-247 | the packet edits of packet.proto, with the field number counted before the replacement |
| `Generators.ProtoTxSendModify` | cli/ignite/templates/ibc/packet.go:272-337 | the packet edits of tx.proto: RPC, imports, message with fields numbered from 5 |
| `Generators.ProtoTxModify` | cli/ignite/templates/message/stargate.go:71-143 | the message edits of tx.proto: RPC, message with fields numbered from 2 and 1, imports |
| `Generators.Generate` | cli/ignite/templates/message/stargate.go:45-69 | a generator with a fixed list of edits, as for handler.go and codec.go |
| `Generators.CollectImports` | cli/ignite/templates/message/stargate.go:123-130 | the imports of the fields, then one for each custom type |
| `ScaffoldText.EditRefines` | cli/ignite/pkg/placeholder/tracer.go:66-82 | an edit of the text is the edit of its lines and misses nothing, when the file holds what it needs |
| `ScaffoldText.InsertWrites` | cli/ignite/templates/message/stargate.go:60-66 | an insertion comes above the first occurrence of its marker |
| `ScaffoldText.OnceWrites` | cli/ignite/templates/ibc/packet.go:347-391 | a one-time text comes in the place of its marker |
| `ScaffoldText.ImportWrites` | cli/ignite/templates/ibc/packet.go:218-225 | an import that is not there yet comes on the line below its marker |
| `ScaffoldText.FieldWrites` | cli/ignite/templates/ibc/packet.go:183-197 | a packet entry comes below its marker, with its own number marker and a number two above the count of those |
| `ScaffoldText.MissesJust` | cli/ignite/pkg/placeholder/tracer.go:57-82 | the tracer reports the marker of an edit if and only if it is not in the text |
| `ScaffoldRuns.EditKeeps` | cli/ignite/templates/ibc/packet.go:175-415 | an edit leaves in place what every compatible edit needs |
| `ScaffoldRuns.NothingMissing` | cli/ignite/pkg/placeholder/tracer.go:57-82 | any sequence of compatible edits reports nothing missing, and text and lines stay in step |
| `ScaffoldRuns.MarkersSurvive` | cli/ignite/pkg/placeholder/tracer.go:66-74 | a marker that no edit uses up keeps its number of occurrences |
| `ModuleRuns.AllEditsFine` | cli/ignite/templates/message/stargate.go:45-179 | whatever is scaffolded, each file only gets edits of the kinds it supports |
| `ModuleRuns.MarkersAreNeverMissing` | cli/ignite/templates/message/stargate.go:45-179 | for every sequence of message and packet scaffolds on a file with its initial markers the tracer reports nothing and every reusable marker keeps its count |
| `ModuleRuns.OneTimeMarkers` | cli/ignite/templates/ibc/packet.go:347-391 | a one-time marker is used up at most once however often it is asked for, and then its text is in the file |
| `ScaffoldNumbers.FieldStep` | cli/ignite/templates/ibc/packet.go:185-197 | one more entry goes below the plain marker, with the next number |
| `ScaffoldNumbers.EntriesAreNumbered` | cli/ignite/templates/ibc/placeholders.go:9-10 | the number markers count the entries, and the plain marker still comes first although every number marker starts with it |
| `ScaffoldNumbers.ListRuns` | cli/ignite/templates/ibc/packet.go:185-197 | over any sequence of edits the list holds its entries with the numbers 2, 3, ... |
| `ScaffoldNumbers.NumbersDiffer` | cli/ignite/templates/ibc/packet.go:194-194 | no two entries share a number and none has the number 1 |
| `PacketRuns.PacketsAreNumbered` | cli/ignite/templates/ibc/packet.go:183-197 | from a file with one field marker and no number marker, the packets scaffolded are the oneof entries 2, 3, ..., in order |
| `ProtoTexts.FieldLines` | cli/ignite/templates/ibc/packet.go:200-207 | in the text, the i-th field is declared with the number start + i |
| `ProtoTexts.MessageLines` | cli/ignite/templates/message/stargate.go:97-120 | the lines of a message: its signer with 1, its fields from 2, and a response with fields from 1 |
| `ProtoTexts.SendLines` | cli/ignite/templates/ibc/packet.go:290-335 | the lines of the message that sends a packet: fixed fields 1 to 4, its own from 5 |
| `ProtoTexts.PacketLines` | cli/ignite/templates/ibc/packet.go:200-247 | the lines of a packet and its acknowledgment, each numbered from 1 |
| `ProtoTexts.FieldNumbersDiffer` | cli/ignite/templates/ibc/packet.go:200-207 | the numbers of a block are pairwise different, and different from the fixed ones below |
| `InsertRuns.InsertedTextsStay` | cli/ignite/templates/message/stargate.go:45-179 | whatever is scaffolded and in whatever order, each text that is inserted is in the file at the end, whole |
| `InsertRuns.MessagesAreThere` | cli/ignite/templates/message/stargate.go:71-143 | the RPC and the declaration of each scaffolded message are in tx.proto |
| `InsertRuns.MessagesAreHandled` | cli/ignite/templates/message/stargate.go:45-69 | each message has its case in the handler and its two registrations in the codec |
| `InsertRuns.PacketsAreThere` | cli/ignite/templates/ibc/packet.go:175-415 | the messages of each packet are in packet.proto, and what sends it in tx.proto, handler and codec |
| `InsertRuns.OnceTextsAreThere` | cli/ignite/templates/ibc/packet.go:347-391 | once a message was scaffolded, the handler creates the message server and the codec imports the SDK |
| `ScaffoldImports.ImportsForm` | cli/ignite/templates/ibc/packet.go:218-225 | the lines after the import loop: the other lines in order, and below the marker the required imports, the last required first |
| `ScaffoldImports.ImportsOnce` | cli/ignite/templates/ibc/packet.go:218-225 | after the loop each required import appears exactly once, repeats included, and all other lines keep their order |
| `ScaffoldImports.ImportsStable` | cli/ignite/templates/message/stargate.go:131-138 | running the loop again leaves the lines exactly as they are, the order of the imports included |
| `ScaffoldImports.LoopOfEdits` | cli/ignite/templates/ibc/packet.go:218-225 | the loop on the lines is the sequence of import edits on the text |
| `ImportRuns.ImportsInText` | cli/ignite/templates/ibc/packet.go:218-225 | in the text, after the import edits of a generator each required import is there exactly once and all other lines are there in order |
| `ImportRuns.ImportsAppearOnce` | cli/ignite/templates/message/stargate.go:123-138 | after any run of message and packet scaffolds every import that one of them requires is in the file exactly once |
| `InsertRuns.ImportsAreAsked` | cli/ignite/templates/message/stargate.go:123-130 | each import of the fields and one for each custom type is required |
| `ScaffoldRunner.Classify` | cli/ignite/pkg/xgenny/run.go:62-77 | files that exist are modified, the others created |
| `ScaffoldRunner.RunWithValidation` | cli/ignite/pkg/xgenny/run.go:36-85 | the run against its specification: disk, tracer, returned modification and error |
| `ScaffoldRunner.DryRunGatesWetRun` | cli/ignite/pkg/xgenny/run.go:48-84 | where the run stops, everything before was clean and is on the disk in full, a generator that fails its dry run or leaves something with the tracer wrote nothing, and the returned modification covers the last generator only |
| `ScaffoldRunner.WrittenMeans` | cli/ignite/pkg/xgenny/run.go:62-84 | a file holds what the run wrote to it last, or what it held before |
| `ScaffoldRunner.ClassifiedMeans` | cli/ignite/pkg/xgenny/run.go:62-77 | a written file is reported as modified if it was there and as created if not, and no other file is |
| `ScaffoldRunner.OneGeneratorIsAtomic` | cli/ignite/pkg/xgenny/run.go:50-58 | a single generator that fails before its wet run leaves the disk as it was |
| `Faucet.QueryTxEvents` | cli/ignite/pkg/chaincmd/runner/chain.go:289-361 | the events of the selected transactions, flattened in order, each with its block time |
| `Faucet.WaitTx` | cli/ignite/pkg/chaincmd/runner/chain.go:206-236 | succeeds exactly when a query finds the transaction with code 0 and all before did not find it, within maxRetry queries if that is positive and before the context ends |
| `Faucet.ThirtyQueries` | cli/ignite/pkg/chaincmd/runner/chain.go:206-236 | while nothing is found the wait goes on for thirty queries and not one more |
| `Faucet.FirstReplyDecides` | cli/ignite/pkg/chaincmd/runner/chain.go:206-236 | a transaction found with another code, or an error, ends the wait at once |
| `Faucet.UnlimitedQueries` | cli/ignite/pkg/chaincmd/runner/chain.go:206-236 | without a limit only the context ends the wait |
| `Faucet.TotalTransferredAmount` | cli/ignite/pkg/cosmosfaucet/transfer.go:19-52 | the amounts of the transfer events within the window, added in 64 bits, or an error |
| `Faucet.Chain.Transfer` | cli/ignite/pkg/cosmosfaucet/transfer.go:55-101 | sends if and only if every coin passes its check and the commands work; the books change by exactly that transaction |
| `FaucetRuns.CountsRecent` | cli/ignite/pkg/cosmosfaucet/transfer.go:43-45 | a total counts every transfer within the window that ends after its clock readings |
| `FaucetRuns.CountsOnlyRecent` | cli/ignite/pkg/cosmosfaucet/transfer.go:43-45 | and none from before the window that ends before them |
| `FaucetRuns.SendPaid` | cli/ignite/pkg/cosmosfaucet/transfer.go:94-94 | the transaction of a send is selected by the query and counts with exactly its amounts |
| `FaucetRuns.GrantsAreVisible` | cli/ignite/pkg/cosmosfaucet/transfer.go:25-27 | whatever was let through is in the history the next request reads |
| `FaucetRuns.QuotaHolds` | cli/ignite/pkg/cosmosfaucet/transfer.go:55-101 | over every run of requests and other transactions, what was let through to an account within any window is at most the maximum of the denomination |
| `FaucetRuns.GrantedJust` | cli/ignite/pkg/cosmosfaucet/transfer.go:55-101 | for any history whose amounts can be added up: a request is granted if and only if it can be sent and, for each coin with a maximum, what the recipient got within the window is below it, and at most it together with the coin |
| `FaucetRuns.TotalExists` | cli/ignite/pkg/cosmosfaucet/transfer.go:19-52 | a total is refused if and only if a query fails or the amount of a transfer does not parse or fit |
| `FaucetRuns.HistoryHolds` | cli/ignite/pkg/chaincmd/runner/chain.go:289-361 | the history holds exactly the events of the transactions the sender signed and that pay the recipient |
| `FaucetRuns.LimitIsExceeded` | cli/ignite/pkg/cosmosfaucet/transfer.go:69-77 | a coin that passes its check exceeds the maximum exactly when the 64-bit sum wraps around |
| `FaucetRuns.CutSumExceeds` | cli/ignite/pkg/cosmosfaucet/transfer.go:77-77 | a concrete total and amount that pass by wrapping around |
| `FaucetRuns.RepeatedDenomExceeds` | cli/ignite/pkg/cosmosfaucet/transfer.go:62-87 | over all limits, a request that is let through stays within the maximum of a denomination if and only if at most one of its coins of that denomination is positive |
| `FaucetRuns.TwoHalvesExceed` | cli/ignite/pkg/cosmosfaucet/transfer.go:62-87 | two equal coins, each within the maximum and together beyond it, are let through |
| `Writers.ReplacedIsPrefixed` | cli/ignite/pkg/lineprefixer/lineprefixer.go:33-39 | the replace count is never negative, and replacing that many new lines puts the prefix where lines start inside the chunk |
| `Writers.LineWriter.Write` | cli/ignite/pkg/lineprefixer/lineprefixer.go:27-48 | a chunk is written with the prefix before every line that starts in it; a sink that is full is an error |
| `Writers.AnySplitIsPrefixed` | cli/ignite/pkg/lineprefixer/lineprefixer.go:27-48 | however a stream is cut into writes, the output is the whole stream with the prefix before each line |
| `Writers.PrefixedByLine` | cli/ignite/pkg/lineprefixer/lineprefixer.go:26-43 | that is: cut at the new lines, each line prefixed, joined again, nothing after a final new line |
| `Writers.TruncatedBuffer.Write` | cli/ignite/pkg/truncatedbuffer/truncatedbuffer.go:35-49 | keeps the first cap bytes, everything when cap is not positive, and reports the full length |
| `Writers.KeptMeans` | cli/ignite/pkg/truncatedbuffer/truncatedbuffer.go:35-49 | a positive capacity keeps the longest start that fits, another keeps everything |
| `Writers.AnySplitIsKept` | cli/ignite/pkg/truncatedbuffer/truncatedbuffer.go:7-9 | however a stream is cut into writes, the buffer holds its first bytes |
| `Numbers.ParseList` | cli/ignite/pkg/numbers/numbers.go:15-79 | the numbers of the parts, each kept once, or the error of the first bad part |
| `Numbers.AddRange` | cli/ignite/pkg/numbers/numbers.go:67-73 | the range loop ends and adds exactly the numbers of the range that are not known yet |
| `Numbers.List` | cli/ignite/pkg/numbers/numbers.go:82-88 | prefix and decimal digits of each number, joined with a comma and a space |
| `NumberLists.ParsedMeans` | cli/ignite/pkg/numbers/numbers.go:14-79 | an accepted list gives exactly the numbers its parts name, without repeats, in the order of first appearance |
| `NumberLists.ParsedFits` | cli/ignite/pkg/numbers/numbers.go:31-60 | all of them are below 2^32 |
| `NumberLists.RangeMeans` | cli/ignite/pkg/numbers/numbers.go:42-73 | a-b names the numbers from a to b, and is refused when a is greater |
| `NumberLists.OpenRangeMeans` | cli/ignite/pkg/numbers/numbers.go:47-52 | a range with one end left out names the other end |
| `NumberLists.SpacedRangeMeans` | cli/ignite/pkg/numbers/numbers.go:42-73 | white space around the numbers of a range does not matter |
| `NumberLists.PlainPart` | cli/ignite/pkg/numbers/numbers.go:19-40 | a part without a dash is the number it is, or a range or syntax error; white space is nothing |
| `NumberLists.RangePart` | cli/ignite/pkg/numbers/numbers.go:42-73 | with one dash each side is a number or left out; the first that is no number is the error |
| `NumberLists.ManyDashes` | cli/ignite/pkg/numbers/numbers.go:74-76 | more dashes than one are refused |
| `NumberLists.LoneDash` | cli/ignite/pkg/numbers/numbers.go:53-55 | a lone dash is nothing |
| `NumberLists.ParsePrinted` | cli/ignite/pkg/numbers/numbers.go:15-88 | ParseList(List(ns, "")) is ns for every list of different numbers below 2^32, and ns without its repeats otherwise |
| `NumberLists.ParsedIsStable` | cli/ignite/pkg/numbers/numbers.go:15-88 | what was parsed once prints to a list that parses to the same numbers |
| `SharePercent.MatchesMeans` | cli/ignite/services/network/share_percent.go:18-18 | the test of the format accepts exactly the texts in which the regular expression has a match |
| `SharePercent.UintPow` | cli/ignite/services/network/share_percent.go:104-110 | the power modulo 2^64 |
| `SharePercent.SharePercentFromString` | cli/ignite/services/network/share_percent.go:56-85 | the parsed percentage or the error, through the split at the percent sign and the point |
| `SharePercent.ParseSharePercents` | cli/ignite/services/network/share_percent.go:89-102 | every percentage in order, or the error of the first that fails |
| `SharePercentExact.ListError` | cli/ignite/services/network/share_percent.go:89-102 | the error of a list is the one of the first part that is refused |
| `SharePercentExact.DenominatorFits` | cli/ignite/services/network/share_percent.go:80-80 | the denominator is the power of ten up to 17 places and no further |
| `SharePercentExact.AcceptedIsExact` | cli/ignite/services/network/share_percent.go:21-85 | an accepted percentage is at most 1, its denominator is not 0, and it equals the written decimal if and only if that has at most 17 places after trimming zeros |
| `SharePercentExact.EighteenPlaces` | cli/ignite/services/network/share_percent.go:80-80 | with 18 places the denominator is 7766279631452241920 and the fraction is another number |
| `SharePercentExact.TinyPercent` | cli/ignite/services/network/share_percent.go:75-80 | 0.000000000000000001 percent is accepted with that denominator |
| `SharePercentExact.DecimalAccepted` | cli/ignite/services/network/share_percent.go:74-80 | a decimal with at most 17 places is accepted if and only if it is at most 100, and what it becomes |
| `SharePercentExact.WholeAccepted` | cli/ignite/services/network/share_percent.go:58-73 | a number without a point is accepted if and only if it is at most 100 and has two digits, or one with another percent sign behind digits |
| `SharePercentExact.ShareIsExact` | cli/ignite/services/network/share_percent.go:41-52 | amount * denominator = total * nominator if and only if that product fits in 64 bits, and then amount <= total |
| `SharePercentExact.ShareExists` | cli/ignite/services/network/share_percent.go:43-51 | without overflow there is a share if and only if the total divides |
| `SharePercentExact.ShareFits` | cli/ignite/services/network/share_percent.go:41-52 | shares go up to the largest int64, and panic beyond it |
| `Protoc.Locate` | cli/ignite/pkg/protoc/protoc.go:179-224 | relative to the file first, then the first include path that has it; any error but a missing file stops |
| `ProtocGraph.ResolveMeans` | cli/ignite/pkg/protoc/protoc.go:179-224 | an import is where the first place that does not miss it says - beside the file, then below each include path - an error if that cannot be asked, the app's own if it lies under the proto path, and nowhere if and only if all places miss it |
| `ProtocGraph.EdgesMean` | cli/ignite/pkg/protoc/protoc.go:198-216 | the graph, without the search: an import found outside the app leads on, one found there or beside the file is added, and a file is complete if all its imports are found |
| `Protoc.SearchFile` | cli/ignite/pkg/protoc/protoc.go:176-228 | the recursive search ends when the files it reaches have no cycle of include imports, and gives the sequence of the specification |
| `Protoc.DiscoverFiles` | cli/ignite/pkg/protoc/protoc.go:152-174 | the own files, and with dependencies what each of their searches finds, or an error |
| `ProtocGraph.SearchAllSucceeds` | cli/ignite/pkg/protoc/protoc.go:176-228 | a search succeeds if and only if every file reachable along include imports can be read and all its imports are found |
| `ProtocGraph.SearchAllFinds` | cli/ignite/pkg/protoc/protoc.go:176-228 | a successful search finds exactly the relative targets, and the include targets outside the proto path, of the reachable files |
| `ProtocGraph.SearchInOrder` | cli/ignite/pkg/protoc/protoc.go:176-228 | import by import: the path where it was found and, when that is outside the app, everything its search finds |
| `ProtocGraph.DiscoverySucceeds` | cli/ignite/pkg/protoc/protoc.go:165-171 | the discovery succeeds if and only if every search does |
| `ProtocGraph.DiscoveryFinds` | cli/ignite/pkg/protoc/protoc.go:152-174 | it finds the own files and exactly what they reach |
| `ProtocGraph.DiscoveryInOrder` | cli/ignite/pkg/protoc/protoc.go:152-174 | the own files first, then what each leads to, in their order |
| `ProtocGraph.RankExists` | cli/ignite/pkg/protoc/protoc.go:202-210 | the rank the recursion descends on exists if and only if no reachable file leads back to itself |
| `EventBus.Session.HandleEvent` | cli/ignite/pkg/cliui/cliui.go:162-177 | what the print loop does to output and spinner for each status |
| `EventBus.Session.Print` | cli/ignite/pkg/cliui/cliui.go:93-119 | a print pauses the spinner, writes, and resumes it |
| `EventRuns.EventShows` | cli/ignite/pkg/cliui/cliui.go:162-177 | what the user sees of an ongoing, a done and a neutral event |
| `EventRuns.EventTaskMeans` | cli/ignite/pkg/cliui/cliui.go:162-177 | the acts of the print loop on one event, when nobody comes between them, are one round of the loop |
| `EventRuns.StepKeepsCounted` | cli/ignite/pkg/events/events.go:131-139 | each step that does not panic keeps: counter = events at a sender + in the channel + in the loop, and handled + left = sent in channel order |
| `EventRuns.StepPanics` | cli/ignite/pkg/events/events.go:131-153 | a step panics if and only if it sends on a closed bus, closes it again, or uses the wait group again too early (an Add between the last Done and the wake-up, or a waiter back only after a new Add) |
| `EventRuns.RunKeepsCounted` | cli/ignite/pkg/cliui/cliui.go:160-182 | over every interleaving that holds until a panic, and a panic comes from a send, a shutdown or the return from a wait, never from Done |
| `EventRuns.PatientRunPanics` | cli/ignite/pkg/events/events.go:131-153 | if nobody sends while a waiter is being woken up or is not back, only a send or a shutdown of a closed bus panics |
| `EventRuns.ImpatientSendPanics` | cli/ignite/pkg/events/events.go:131-139 | the condition is needed: such a send panics itself, or a waiter that comes back now does |
| `EventRuns.TwoSendersCanReuse` | cli/ignite/pkg/cliui/cliui.go:109-150 | a panic of the wait group with two senders, one of which sends while the other is woken up |
| `EventRuns.WaitMeansHandled` | cli/ignite/pkg/cliui/cliui.go:148-150 | a wait can return if and only if every announced event is handled and done; then the channel is empty and no sender is waiting |
| `EventRuns.CleanupMeansHandled` | cli/ignite/pkg/cliui/cliui.go:153-157 | without an active sender at the shutdown and with patient sends nothing panics, and the cleanup returns only after every event is printed |
| `EventRuns.CaughtSenderPanics` | cli/ignite/pkg/events/events.go:135-138 | a sender between Add and the channel at the shutdown can only panic |
| `EventRuns.OneSenderIsSequential` | cli/ignite/pkg/cliui/cliui.go:93-119 | with one sender, in every interleaving with the acts of the print loop, output and spinner are what its events and prints give one after the other |
| `SpinnerRuns.SpinnerAfterCleanup` | cli/ignite/pkg/cliui/cliui.go:152-182 | any senders, prints and interleaving: the cleanup can leave the spinner turning if and only if, when it stops it, a print is in the pause of a turning spinner, the loop ends with it turning (an event whose spinner is still to start, a pause, or the channel), or a print is yet to look while the loop has it turning |
| `SpinnerRuns.SpinnerAfterCleanupAlone` | cli/ignite/pkg/cliui/cliui.go:152-182 | when prints overlap with nothing, the spinner at the end is determined, also with later events: by the last one the loop is given after the stop, neutral ones aside, and else by whether the stop fell before a start or in the pause of a turning spinner |
| `SpinnerRuns.OneSenderIsAlone` | cli/ignite/pkg/cliui/cliui.go:93-119 | with one sender no print overlaps with the loop or another print |
| `SpinnerRuns.OngoingKeepsTurning` | cli/ignite/pkg/cliui/cliui.go:153-164 | a run on the unbuffered bus to a stop with an ongoing event in the hand of the loop, which can leave the spinner turning |
| `SpinnerRuns.PauseKeepsTurning` | cli/ignite/pkg/cliui/cliui.go:170-176 | a run to a stop in the pause of a neutral event with nothing ongoing pending, which can leave the spinner turning |
| `Cache.Storage.Clear` | cli/ignite/pkg/cache/cache.go:53-63 | deletes every namespace |
| `Cache.Cache.Put` | cli/ignite/pkg/cache/cache.go:69-90 | creates the bucket if needed and inserts or overwrites the key in its place |
| `Cache.Cache.Get` | cli/ignite/pkg/cache/cache.go:94-127 | the seek and the test for equality, or no value |
| `Cache.Cache.Delete` | cli/ignite/pkg/cache/cache.go:130-145 | removes the key if bucket and key are there |
| `Cache.SeekFinds` | cli/ignite/pkg/cache/cache.go:106-107 | in a sorted bucket the first key not less than the given one is that key if the bucket holds it |
| `Cache.PutIsUpdate` | cli/ignite/pkg/cache/cache.go:83-89 | a put changes what its namespace and key give and nothing else |
| `Cache.DeleteIsRemoval` | cli/ignite/pkg/cache/cache.go:137-144 | a delete takes away what its namespace and key give and nothing else |
| `Cache.CacheIsMap` | cli/ignite/pkg/cache/cache.go:69-145 | after any run of puts, deletes and clears over any namespaces a lookup gives what a plain map gives |
| `Dirchange.ChecksumFromPaths` | cli/ignite/pkg/dirchange/dirchange.go:62-117 | the contents of all files in walk order; absent paths are skipped, no file and unreadable files are different errors |
| `Dirchange.SaveDirChecksum` | cli/ignite/pkg/dirchange/dirchange.go:18-26 | saves the checksum under the key, or changes nothing |
| `Dirchange.HasDirChecksumChanged` | cli/ignite/pkg/dirchange/dirchange.go:32-58 | true without a saved checksum or without files, an error when files cannot be read, else the comparison |
| `Dirchange.ChangedMeans` | cli/ignite/pkg/dirchange/dirchange.go:32-58 | after a save and any operations on other keys: false on the same tree, and on any other exactly when the contents one after the other are the same |
| `Dirchange.NeverSaved` | cli/ignite/pkg/dirchange/dirchange.go:36-40 | as long as no checksum was saved under the key, everything counts as changed |
| `Dirchange.NoChecksum` | cli/ignite/pkg/dirchange/dirchange.go:62-117 | there is none if and only if a place cannot be looked at or a walk breaks off or meets an unreadable file, or else when there is no file |
| `Dirchange.EditedFileIsSeen` | cli/ignite/pkg/dirchange/dirchange.go:62-117 | other bytes in one file, wherever it is among the places, always change the checksum |
| `Dirchange.BoundariesAreNotSeen` | cli/ignite/pkg/dirchange/dirchange.go:93-98 | bytes that move from the end of one file to the start of the next are not seen |

## Left out

- Serve: code generation and `c.build` are one step, and the source is taken after code generation; `c.Init` either
  completes or fails before or after wiping the data; sources are not edited inside one call of `serve`.
- Serve: the watcher, the refresh channel's timing and cancellation itself; a round's error is an input.
- Serve: how the error of a start is parsed and printed.
- Relayer: account and balance checks, faucet retrieval and the remote relayer's protocol; a remote reply keeps the
  path ID and both chain IDs, and for linking has a source channel.
- Relayer: the configuration file's YAML, and deleting it.
- Scaffolding: files other than handler.go, codec.go, tx.proto and packet.proto (module_ibc.go, events_ibc.go,
  client/cli/tx.go, simulation, app.go, the oracle and type scaffolds), which use the same `Replace` with other markers.
- ModuleRuns.MarkersAreNeverMissing: asks for text without `#` around the markers, import markers alone on their line,
  and no line that begins like a required import without being it; the first line of the file is no such import.
- ScaffoldRunner.RunWithValidation: an error of `os.Stat` other than a missing file, and a wet run that computes
  something else than its dry run.
- FaucetRuns.QuotaHolds: asks, for the coins of its denomination, for at most one positive coin in a request, sums that
  fit in 64 bits, and clock readings before the block time of the request's own transaction; and for a history that is
  visible at once and fits one page. The denomination syntax of the Cosmos SDK is not part of this model.
- Writers: writes of no bytes, on which the line prefixer panics.
- Numbers: text that is not valid UTF-8.
- SharePercent: the validation of a denomination by `sdk.NewInt64Coin`, which panics on a bad one.
- Protoc.SearchFile: a cycle of include imports among the files it reaches, on which the source does not end; the
  dependencies of an own file are those a parse of it gives.
- EventBus: colours, `%` in the text of a neutral event, which the source passes as a format, the questions and tables
  that wait like a print, and `StartSpinner` and `StopSpinner` when a command calls them itself. The wait group is Go's
  `sync.WaitGroup` with its counter, its waiters and its panics; the spinner library is a switch and a text.
- Cache: gob encoding, bolt's limits on keys (an empty key is refused), its locking and its transactions.
- Dirchange: MD5 collisions and resolving paths against the working directory.
- The oracle of the repository's root (bridge.go, orchestrator.go, ...) and `cli/ignite/cmd`: plumbing around external
  services and the user interface.
