# Verification of the broker, the log producers and the suite's helpers

This project models the parts of the acceptance-test suite that compute something of
their own, and proves what they are relied on for.

* **The configurable service broker.** `JsonValues` gives JSON values with Ruby's indexing
  and truth rules. `BrokerModel` says what each request does to the broker's data and what
  it answers, including the ways it can raise, as functions on values. `ServiceBroker` has
  the classes (`ServiceInstance`, `DataSource` and the application) with their fields
  updated in place, proved step by step against those functions. The theorems about runs
  are in `BrokerAnswers`, `BrokerIsolation`, `BrokerHistory`, `BrokerConfig`,
  `BrokerSafety`, `BrokerBindings`, `BrokerRenaming` and `RenamedFetches`.
* **The script that makes a broker configuration unique.** `PlanRekeying` has its loops,
  `RekeyedBroker` what they do to one behaviour table, `UniqueConfig` the rewritten file
  and the broker started on it, `CatalogIdentifiers` the identifiers in its catalog.
* **The log producers** of dora and of the Go load generator, as a state machine whose
  steps are single actions, with the same steps on objects (`LogProducers`).
* **CLI versions** (`CliVersion`), **configuration loading** (`ConfigDecoding` and
  `ConfigMeaning` for values, `ConfigLoading` for pointers, `ValidationErrors`), and **canary step weights** (`CanaryWeights`), over the shared
  `Text`.

A few facts that the proofs bring out:

* The `/config/all` dump restores a broker exactly when it holds no binding: a binding in
  the dump makes the post raise.
* A saved `/config` cannot be put back when a scalar has become an object since, and it
  never restores `service_bindings`.
* Re-keying loses the responses of plans that are not in the catalog: they collapse under
  the key `nil`, written to the file as the empty string, and such plans get the default.
* Fetching a binding leaves its data in the configured response, so later fetches answer
  with it as well.
* In the load generator the handler that reports "Already running" goes on and starts a
  second loop; the model allows starting producers at any time accordingly.
* Whether a stop holds for a producer is decided when it first looks at the flag afterwards:
  if it finds the flag down it prints nothing beyond the line it was bound to print, whatever
  is started later; if it finds the flag up again it is free to print more.
* Among the requests about other ids and bindings, only storing or removing a binding under an
  instance's own id touches the instance.

## Conventions

Numbers are reals where JSON decides and integers elsewhere. An answer consists of the
value handed to `status` and the body; `Raised` is the error page. A fresh identifier is
one that differs from all others and from every name in use. `After` and `ReplyAt` give
the data after a run and the answer to one of its requests; a reset reloads the data file.

## Model

| member | source | states |
|---|---|---|
| `ServiceBroker.ServiceInstance.constructor` | assets/service_broker/service_broker.rb:20-24 | A new object holds the data, counter and flag it is given |
| `ServiceBroker.ServiceInstance.UpdateInPlace` | assets/service_broker/service_broker.rb:30-34 | An update overlays the new members on the provision data and restarts the poll counter; when either side is not an object it raises and changes nothing |
| `ServiceBroker.ServiceInstance.Delete` | assets/service_broker/service_broker.rb:36-40 | A delete only sets the flag and restarts the counter; the data stays |
| `ServiceBroker.ServiceInstance.IncrementFetchCount` | assets/service_broker/service_broker.rb:42-44 | The counter goes up by one and is returned; a counter that is not a number raises and stays |
| `ServiceBroker.DataSource.constructor` | assets/service_broker/service_broker.rb:58-60 | A fresh data source is the data file, without instances |
| `ServiceBroker.DataSource.CreateServiceInstance` | assets/service_broker/service_broker.rb:70-78 | The id maps to a new object with the body, counter 0, not deleted; every other entry is untouched |
| `ServiceBroker.DataSource.CreateServiceBinding` | assets/service_broker/service_broker.rb:80-85 | A binding goes into the hash that holds the instances and replaces whatever had its id |
| `ServiceBroker.DataSource.DeleteServiceBinding` | assets/service_broker/service_broker.rb:87-89 | Removes the entry, of whichever kind, and returns it |
| `ServiceBroker.DataSource.ConvertInstances` | assets/service_broker/service_broker.rb:93-101 | Posted instances become fresh, distinct objects; the conversion raises exactly when one of them has no provision data, before anything is stored |
| `ServiceBroker.DataSource.MergeMember` | assets/service_broker/service_broker.rb:103-109 | One posted member is merged one level deep, or raises and leaves the objects as they were |
| `ServiceBroker.DataSource.Merge` | assets/service_broker/service_broker.rb:91-110 | The loop over a posted object does what the member-by-member specification says, including where it stops when a member raises |
| `ServiceBroker.Broker.constructor` | assets/service_broker/service_broker.rb:137-138 | The application starts on the data file |
| `ServiceBroker.Broker.PutInstance` | assets/service_broker/service_broker.rb:219-223 | Provision on objects equals the specification step |
| `ServiceBroker.Broker.GetLastOperation` | assets/service_broker/service_broker.rb:226-253 | A poll increments first, compares with the maximum, then answers from the state it chose; every way it can raise leaves the state the specification gives |
| `ServiceBroker.Broker.PatchInstance` | assets/service_broker/service_broker.rb:265-276 | The update is applied on a configured status of 200 or 202, before and independently of the answer |
| `ServiceBroker.Broker.DeleteInstance` | assets/service_broker/service_broker.rb:279-287 | Deprovision on objects equals the specification step, for a known, unknown or binding id |
| `ServiceBroker.Broker.DeleteBinding` | assets/service_broker/service_broker.rb:299-308 | Unbind on objects equals the specification step; on an instance id it removes the instance and raises |
| `ServiceBroker.Broker.GetBinding` | assets/service_broker/service_broker.rb:315-320 | The fetched binding is written into the configured body, which is then answered |
| `ServiceBroker.Broker.PutBinding` | assets/service_broker/service_broker.rb:290-296 | Bind on objects equals the specification step |
| `ServiceBroker.Broker.GetInstance` | assets/service_broker/service_broker.rb:310-313 | Answers the stored provision data; an unknown id and a binding's id raise |
| `ServiceBroker.Broker.ResetConfiguration` | assets/service_broker/service_broker.rb:336-339 | A reset starts over on the data file and answers with its configuration |
| `ServiceBroker.Broker.PostConfiguration` | assets/service_broker/service_broker.rb:330-334 | A post equals the specification step |
| `ServiceBroker.Broker.Handle` | assets/service_broker/service_broker.rb:214-339 | Every request on the objects gives the state and the answer of the specification step |
| `ServiceBroker.Broker.Serve` | assets/service_broker/service_broker.rb:133-339 | A whole run on the objects ends in the specification's state, answer by answer |
| `BrokerAnswers.AcceptsOnlyChangesAnswer` | assets/service_broker/service_broker.rb:167-192 | `accepts_incomplete` changes nothing stored and nothing about raising; without it the configured answer becomes the 422 exactly for `async_only` behaviours |
| `BrokerAnswers.OperationMeaning` | assets/service_broker/service_broker.rb:116-308 | Every provision, update, deprovision, bind and unbind answers the status and the body, or else the raw body, of the response configured for its action under its plan or under `default`, or the literal 422; it ends on the error page exactly when the plan cannot be read, there is no such response, its delay cannot be slept, or an update cannot be merged |
| `BrokerAnswers.PlanRead` | assets/service_broker/service_broker.rb:26-28 | Which plan a body names: its `plan_id` member, or the word itself if the body is a text containing it |
| `BrokerAnswers.CatalogMeaning` | assets/service_broker/service_broker.rb:214-216 | The catalog is answered from its own response, with its status and body, as for a client that would not wait |
| `BrokerAnswers.BindingPollMeaning` | assets/service_broker/service_broker.rb:256-262 | Polling a binding answers `succeeded`, 100% |
| `BrokerAnswers.InstanceFetchMeaning` | assets/service_broker/service_broker.rb:310-313 | Fetching an instance answers its stored data; an unknown id or a binding's ends on the error page |
| `BrokerAnswers.PollMeaning` | assets/service_broker/service_broker.rb:226-253 | A poll counts one more and is answered from what the plan's response to fetches has under `in_progress` up to the maximum and under `finished` beyond it; it raises exactly when plan, counter, maximum or that response cannot be used |
| `BrokerAnswers.ConfigurationAnswers` | assets/service_broker/service_broker.rb:326-339 | Reading, posting and resetting the configuration answer every top-level key except instances and bindings, as it stands afterwards |
| `BrokerAnswers.DumpMeaning` | assets/service_broker/service_broker.rb:46-52 | `/config/all` shows every key, every instance with its data, counter and flag, and every binding with its data and instance |
| `BrokerAnswers.LookupMeaning` | assets/service_broker/service_broker.rb:116-130 | Any plan finds its own response if the action has one and otherwise the default if that is usable, and nothing else; without an object as its table an action cannot be answered |
| `BrokerIsolation.ErasedKeepsView` | assets/service_broker/service_broker.rb:80-89 | A request about another id or about a binding leaves everything that requests about an id can observe alone if and only if it neither removes what is stored under that id nor puts a new binding there |
| `BrokerIsolation.KeptAgrees` | assets/service_broker/service_broker.rb:219-313 | Requests about an id, posts and resets cannot tell apart two states that agree on what is observable for the id |
| `BrokerIsolation.NonInterference` | assets/service_broker/service_broker.rb:219-320 | Erasing from any run all requests about other ids and bindings changes no answer and no stored data for an id, as long as no binding is stored or removed under that id |
| `BrokerHistory.Replay` | assets/service_broker/service_broker.rb:219-287 | After any run an instance's data is its last PUT body overlaid, in order, by all later PATCH bodies whose configured status was 200 or 202; its deleted flag is true exactly when a DELETE followed that PUT |
| `BrokerHistory.FetchAnswersReplay` | assets/service_broker/service_broker.rb:310-313 | Fetching an instance after any run answers the last PUT body overlaid by the later applied PATCH bodies |
| `BrokerHistory.PollOfUnknown` | assets/service_broker/service_broker.rb:246-252 | Polling an id that no PUT since the last reset created answers status 200 and the state `failed`, naming the id |
| `BrokerHistory.ExistsWhenPut` | assets/service_broker/service_broker.rb:66-78 | An instance exists exactly when some PUT of it was not followed by a reset |
| `BrokerHistory.OperationRestartsPolling` | assets/service_broker/service_broker.rb:30-40 | A provision, an applied update and a delete put the counter back to 0 |
| `BrokerHistory.CountsPolls` | assets/service_broker/service_broker.rb:226-235 | Between operations the counter is the number of polls, whatever else the run contains |
| `BrokerHistory.PollingProtocol` | assets/service_broker/service_broker.rb:226-253 | The k-th poll since the last operation has the status and the body, or raw body, that the plan's response to fetches (or the default one) has under `in_progress` when k is at most the configured maximum, and under `finished` otherwise; it raises exactly when there is none |
| `BrokerConfig.PostMeaning` | assets/service_broker/service_broker.rb:91-110 | A post succeeds exactly when every object key gets an object and every instance has provision data; then it is a one-level merge, whatever the order of its members |
| `BrokerConfig.PostRaisesWhen` | assets/service_broker/service_broker.rb:91-110 | A post raises exactly when a posted instance has no provision data (or is no object) or a key that holds an object gets something else |
| `BrokerConfig.PostEffect` | assets/service_broker/service_broker.rb:91-110 | What a successful post leaves under every key and every id: posted members over an object's own, other values replaced, posted instances with their counter and flag or 0 and false, everything else as it was |
| `BrokerConfig.PostedInstanceIsPolled` | assets/service_broker/service_broker.rb:20-24 | The first poll of a posted instance goes on from the posted counter, or from 0 |
| `BrokerConfig.PostsCompose` | assets/service_broker/service_broker.rb:91-110 | Two successful posts equal one post of their one-level right-biased combination |
| `BrokerConfig.PostIsIdempotent` | assets/service_broker/service_broker.rb:91-110 | Repeating a successful post succeeds and changes nothing |
| `BrokerConfig.PostsFold` | assets/service_broker/service_broker.rb:330-334 | Any run of successful posts equals one post |
| `BrokerConfig.NoKeyIsRemoved` | assets/service_broker/service_broker.rb:103-109 | No run removes a top-level key of the data file or a key inside one of its objects |
| `BrokerConfig.DumpsCanBePosted` | assets/service_broker/service_broker.rb:322-328 | In every state the answers of `/config/all` and `/config` are objects that can be posted |
| `BrokerConfig.SnapshotRestores` | assets/service_broker/service_broker.rb:322-339 | For every reachable state, reset and posting the `/config/all` dump rebuilds exactly that state if and only if it holds no binding; otherwise the post is refused |
| `BrokerConfig.SavedConfigRestores` | assets/service_broker/service_broker.rb:112-114 | Re-posting a saved `/config` over a later state restores the configuration if and only if there is no new key, no scalar became an object and `service_bindings` is unchanged; instances are left alone |
| `BrokerConfig.SavedConfigSurvives` | assets/service_broker/service_broker.rb:326-334 | After any run without resets whose posts add no key, re-posting the saved `/config` restores it and answers with it |
| `BrokerConfig.FetchWrites` | assets/service_broker/service_broker.rb:315-320 | A binding fetch changes the configuration only inside its behaviour table |
| `BrokerSafety.StaysGood` | assets/service_broker/service_broker.rb:91-110 | Usable tables and well-shaped entries are kept by every run of acceptable requests, although posts replace whole tables |
| `BrokerSafety.NoOperationRaises` | assets/service_broker/service_broker.rb:116-308 | In every such run every provision, update, deprovision, bind, unbind and poll is answered, with a number as its status |
| `BrokerSafety.EveryPlanAnswered` | assets/service_broker/service_broker.rb:116-130 | An action finds a response for every plan if and only if its table is an object with a usable `default` |
| `BrokerSafety.PostedTableReplaces` | assets/service_broker/service_broker.rb:103-109 | After a post of a table, a plan is answered if and only if the posted table has it or a default, whatever was configured before |
| `BrokerBindings.FetchHistory` | assets/service_broker/service_broker.rb:315-320 | After any run the configured body is the original overlaid by every binding fetched from that response, in order |
| `BrokerBindings.FetchAnswersWhen` | assets/service_broker/service_broker.rb:315-320 | A binding fetch is answered if and only if the binding is known with object data and the response for its plan, or the default, has an object body and a valid delay |
| `BrokerBindings.FetchAnswersOwnData` | assets/service_broker/service_broker.rb:315-320 | Each answer still agrees with its own binding on every key of the binding's data |
| `BrokerBindings.FetchAnswersHistory` | assets/service_broker/service_broker.rb:315-320 | After any run that does not reconfigure binding fetches, a fetch answers the body configured at its start overlaid by every binding fetched from the same response since, in order, and then by its own data |
| `BrokerRenaming.LookupRelated` | assets/service_broker/service_broker.rb:116-130 | Lookups in a renamed configuration find the related response, or fail, exactly when the original ones do |
| `BrokerRenaming.StepRelated` | assets/service_broker/service_broker.rb:214-339 | One renamed request, of any kind, keeps the two brokers' data related and gives related answers |
| `BrokerRenaming.RunRelated` | assets/service_broker/service_broker.rb:219-339 | After every run the renamed broker's data is the renamed data |
| `BrokerRenaming.Simulation` | assets/service_broker/service_broker.rb:214-339 | Step by step, a renamed run is answered with the same statuses and the same bodies up to the renaming; a binding that names its plan is answered with the renamed plan, and a catalog with the same services under other identifiers |
| `RenamedFetches.FetchedRenamed` | assets/service_broker/service_broker.rb:315-320 | A renamed run fetches the same bindings, their plans renamed, from the responses of the renamed plans |
| `RenamedFetches.OverlayAllRenamed` | assets/service_broker/service_broker.rb:318 | Overlaying renamed bindings on one body renames the plan in it if and only if one of them names a plan |
| `RenamedFetches.FetchSimulated` | assets/service_broker/service_broker.rb:315-320 | Where both brokers started with the same response, a fetch in a renamed run is answered with the plan renamed if one of the bindings fetched from that response so far names its plan, and with the very same answer otherwise |
| `PlanRekeying.RekeyTable` | assets/service_broker/setup_new_broker.rb:39-46 | The loop over a snapshot of the keys equals its specification, key by key |
| `PlanRekeying.RenameCatalogPlans` | assets/service_broker/setup_new_broker.rb:27-32 | The plan loop gives each plan the next identifier and records the mapping |
| `PlanRekeying.RenameCatalogService` | assets/service_broker/setup_new_broker.rb:20-33 | The block for one service gives it a new name, id and client credentials, renames its plans, and raises where the service lacks the shape |
| `PlanRekeying.RenameCatalog` | assets/service_broker/setup_new_broker.rb:19-34 | The service loop equals its specification and accumulates the mapping |
| `PlanRekeying.RekeyBehaviors` | assets/service_broker/setup_new_broker.rb:36-47 | Every table but the catalog is re-keyed; a table that is not a hash raises |
| `PlanRekeying.UniquifyConfig` | assets/service_broker/setup_new_broker.rb:12-52 | The whole rewrite equals its specification, and raises exactly when the file lacks the shape it walks through |
| `RekeyedBroker.RekeyedMeaning` | assets/service_broker/setup_new_broker.rb:39-46 | `default` is untouched, every catalog plan's response is under its new id, all other plans collapse into one entry that holds the last of them, and there is nothing else |
| `RekeyedBroker.RekeyedSize` | assets/service_broker/setup_new_broker.rb:39-46 | The table keeps its size if and only if at most one of its plans is missing from the catalog |
| `RekeyedBroker.TableSurvives` | assets/service_broker/setup_new_broker.rb:39-46 | The re-keyed table is the original under renamed plans if and only if no plan but the empty string is missing from the catalog |
| `RekeyedBroker.LostPlanGetsDefault` | assets/service_broker/setup_new_broker.rb:43-45 | A plan missing from the catalog is answered with the default afterwards |
| `UniqueConfig.CatalogRenumbered` | assets/service_broker/setup_new_broker.rb:19-34 | The catalog keeps its services in their places and every field of theirs but the name, the id, the client's id and secret, and the ids of the plans, which keep their places too; over the whole catalog no new plan id is used twice |
| `UniqueConfig.CatalogRelated` | assets/service_broker/setup_new_broker.rb:17-34 | The rewritten catalog response differs from the original only in those identifiers |
| `CatalogIdentifiers.RewritesWhen` | assets/service_broker/setup_new_broker.rb:12-47 | The script rewrites a file if and only if its catalog and its services have the shape it walks through and all other tables are hashes |
| `CatalogIdentifiers.RewrittenIdentifiers` | assets/service_broker/setup_new_broker.rb:19-34 | In the rewritten file every service's name, id, client id and secret and its plans' ids are fresh identifiers, consecutive within a service and never used twice |
| `CatalogIdentifiers.IdentifiersDiffer` | assets/service_broker/setup_new_broker.rb:19-34 | Any two of these identifiers differ |
| `CatalogIdentifiers.NoIdentifierSurvives` | assets/service_broker/setup_new_broker.rb:19-34 | No name, id, client id, secret or plan id of the original catalog is offered by the rewritten one |
| `UniqueConfig.CatalogPlanMapped` | assets/service_broker/setup_new_broker.rb:27-32 | A plan's new id is the one its old id is mapped to if and only if no later plan has the same old id |
| `UniqueConfig.RewrittenFileRelated` | assets/service_broker/setup_new_broker.rb:12-52 | The rewritten file is the original under renamed plans if and only if every plan with its own response is in the catalog (or is the empty string) |
| `UniqueConfig.RewrittenBrokerSimulates` | assets/service_broker/setup_new_broker.rb:12-52 | A broker on the rewritten file answers every run with plans renamed as the original does if and only if every plan with its own response is in the catalog (or is the empty string); it then holds related data after every run |
| `LogProducers.StopIsFinal` | assets/loggregator-load-generator-go/loggregator-load-generator.go:55-96 | After a stop with no later start, for any number of producers and any interleaving: at most one more line each, none from later ones, and a bound on all their actions that falls with every action |
| `LogProducers.AtMostOneMoreLine` | assets/dora/logging_service.rb:21-37 | A stop at any moment lets each producer print at most one more line |
| `LogProducers.FirstLookDown` | assets/loggregator-load-generator-go/loggregator-load-generator.go:55-62 | However others start and stop: a producer whose first look at the flag finds it down prints only the line it was bound to print, and has finished for good |
| `LogProducers.PrintsOn` | assets/dora/logging_service.rb:30-35 | A producer of any kind that looks while the flag is up prints, left to itself, any number of lines, or as many as dora's limit allows, numbered on from the current number |
| `LogProducers.StartPrints` | assets/loggregator-load-generator-go/loggregator-load-generator.go:55-84 | A producer of any kind, started whatever the flag says and left to itself, prints any number of lines, or as many as dora's limit allows, dora's numbered from 1; the flag is then up and it stands in its loop |
| `LogProducers.FirstLookDecides` | assets/dora/logging_service.rb:21-37 | A producer is held to that line, whatever happens afterwards, if and only if its first look finds the flag down |
| `LogProducers.SingleProducer` | assets/dora/logging_service.rb:26-37 | Under any stops the lines are numbered 1..n with n at most the limit, n is the limit without a stop, and the final count is n exactly on a limit exit and n + 1 otherwise |
| `LogProducers.Service.StopLogs` | assets/loggregator-load-generator-go/loggregator-load-generator.go:90-91 | A stop lowers the shared flag and nothing else |
| `LogProducers.Service.StartProducer` | assets/loggregator-load-generator-go/loggregator-load-generator.go:39-62 | A start adds a producer whatever the flag says |
| `LogProducers.Service.Advance` | assets/dora/logging_service.rb:26-37 | One atomic action on the shared object equals the transition of the state machine |
| `LogProducers.Service.Schedule` | assets/loggregator-load-generator-go/loggregator-load-generator.go:39-96 | A whole interleaving on the object equals the run of the state machine |
| `LogProducers.LoggingService.constructor` | assets/dora/logging_service.rb:3-7 | Not running, count 0, no output |
| `LogProducers.LoggingService.StopService` | assets/dora/logging_service.rb:21-24 | A stop lowers the flag and leaves the count |
| `LogProducers.LoggingService.ProduceLogspeedOutput` | assets/dora/logging_service.rb:26-37 | The loop prints 1..n, finishes exactly when a stop was seen or the limit was reached, and leaves the count at n or n + 1 accordingly |
| `CliVersion.FindVersionMeaning` | helpers/cli_version_check/cli_version_check.go:30-35 | The extracted text is the leftmost dotted number, extended as far as it goes; nothing is extracted exactly when there is none |
| `CliVersion.AtoiMeaning` | helpers/cli_version_check/cli_version_check.go:80-83 | A numeral, with or without a sign, is read as its value or, beyond Go's int, as the nearest int |
| `CliVersion.ParseRevisions` | helpers/cli_version_check/cli_version_check.go:76-86 | The loop reads every piece between dots |
| `CliVersion.NoMarkerAcross` | helpers/cli_version_check/cli_version_check.go:26-28 | A version in the middle of a text cannot complete the source-build marker |
| `CliVersion.ParseUndoesPrint` | helpers/cli_version_check/cli_version_check.go:25-38 | Any version within the int range, printed after digit-free text and before text that does not extend it, parses back |
| `CliVersion.ParseOfPrinted` | helpers/cli_version_check/cli_version_check.go:25-38 | The same for revisions of any size: those beyond Go's int are read as the largest int |
| `CliVersion.ParsedFromSource` | helpers/cli_version_check/cli_version_check.go:26-28 | A text is that of a source build if and only if `BUILT_FROM_SOURCE` occurs in it |
| `CliVersion.SourceBuildPasses` | helpers/cli_version_check/cli_version_check.go:26-43 | A CLI built from source passes against every minimum |
| `CliVersion.ParsedNothing` | helpers/cli_version_check/cli_version_check.go:30-35 | Text with neither the marker nor a digit is read as a version without revisions |
| `CliVersion.InstalledVersionCheck` | helpers/cli_version_check/cli_version_check.go:25-56 | From text to verdict: an installed version passes against a printed minimum if and only if it is the same or larger |
| `CliVersion.ZeroPadToLength` | helpers/cli_version_check/cli_version_check.go:68-74 | A new slice with the old values and zeros behind them |
| `CliVersion.ZeroPadToLongerArray` | helpers/cli_version_check/cli_version_check.go:58-66 | Both slices padded to the longer length, neither argument changed |
| `CliVersion.AtLeast` | helpers/cli_version_check/cli_version_check.go:40-56 | The comparison is: built from source, or the same version, or larger at the first revision that differs, versions being extended by infinitely many zeros |
| `CliVersion.Trichotomy` | helpers/cli_version_check/cli_version_check.go:47-55 | Exactly one of same, larger, smaller |
| `CliVersion.ComparisonIsTotal` | helpers/cli_version_check/cli_version_check.go:40-56 | On versions not built from source the comparison is total, and mutual exactly for the same version |
| `CliVersion.ComparisonIsTransitive` | helpers/cli_version_check/cli_version_check.go:40-56 | The comparison is transitive |
| `CliVersion.SameUpToZeros` | helpers/cli_version_check/cli_version_check.go:58-74 | The same version means equal up to trailing zeros |
| `CliVersion.BlindToTrailingZeros` | helpers/cli_version_check/cli_version_check.go:58-74 | Padding changes no comparison |
| `ConfigLoading.Package.constructor` | helpers/config/config_struct.go:69 | The package variable starts with all pointers nil |
| `ConfigDecoding.SuiteIsWellFormed` | helpers/config/config_struct.go:19-220 | The suite's own fields, defaults and checks meet what the package methods ask of a schema |
| `ConfigLoading.Package.GetDefaults` | helpers/config/config_struct.go:87-123 | Every call points the package variable at fresh values; fields without a default stay nil |
| `ConfigLoading.Package.Decode` | helpers/config/config_struct.go:329-338 | The decoder writes through the pointers of the struct it is given and nowhere else, and the result is the document over the old values |
| `ConfigLoading.Package.Load` | helpers/config/config_struct.go:309-327 | A load succeeds exactly when the file decodes and every check passes; a scale that is not positive becomes 1 |
| `ConfigLoading.Package.Normalise` | helpers/config/config_struct.go:322-324 | A scale that is not positive is replaced through its pointer, and nothing else |
| `ConfigLoading.Package.NewConfig` | helpers/config/config_struct.go:125-133 | A success is its own file over the defaults in fresh values; a failure carries the messages |
| `ConfigLoading.Package.LoadAll` | helpers/config/config_struct.go:125-133 | After any sequence of calls every configuration returned still holds what its own file and the defaults say, field by field, and passes every check; every failure carries the message about an unreadable file or those of the failing checks; and no two results share a value |
| `ConfigLoading.ValidateConfig` | helpers/config/config_struct.go:135-221 | The collected errors are the failures of the checks in order |
| `ConfigDecoding.EachFailureReportedOnce` | helpers/config/config_struct.go:135-221 | Every failing check has its message, right behind the messages of the failing checks before it |
| `ConfigDecoding.NoOtherMessages` | helpers/config/config_struct.go:135-221 | Every message belongs to a failing check |
| `ConfigMeaning.ChecksInOrder` | helpers/config/config_struct.go:135-221 | The report starts with the user, the password, the endpoint and the domain; the required fields follow in their order |
| `ConfigMeaning.UserChecks` | helpers/config/config_struct.go:285-307 | A user or password that is missing or blank is complained about, each in its own words |
| `ConfigMeaning.NetChecks` | helpers/config/config_struct.go:223-283 | The endpoint fails exactly when its URL has no host or one that is neither an address nor found; the domain exactly when a made-up host of it is no URL or not found |
| `ConfigMeaning.ApiGiven` | helpers/config/config_struct.go:228-259 | What is said about an endpoint that was given, for each way it can fail |
| `ConfigMeaning.DomainGiven` | helpers/config/config_struct.go:261-283 | What is said about a domain that was given, for each way it can fail |
| `ConfigMeaning.NilMeaning` | helpers/config/config_struct.go:159-219 | Every required field that is nil is complained about under its name, and no other |
| `ConfigMeaning.PassesWhen` | helpers/config/config_struct.go:135-307 | Nothing is reported if and only if all these conditions are met |
| `ConfigMeaning.LoadMeaning` | helpers/config/config_struct.go:309-338 | A file loads if and only if it is null or an object of rightly typed members and all fields pass; every field then holds its member, nothing for null, or the last default assigned to it, the reporter being merged member by member |
| `ConfigMeaning.ScaleIsPositive` | helpers/config/config_struct.go:322-324 | A loaded configuration has a positive scale |
| `ValidationErrors.Errors.Add` | helpers/validationerrors/validationerrors.go:7-9 | Appends one message |
| `ValidationErrors.Errors.Error` | helpers/validationerrors/validationerrors.go:11-20 | The loop joins the messages with newlines |
| `ValidationErrors.Errors.Empty` | helpers/validationerrors/validationerrors.go:22-24 | True exactly when there is no message |
| `ValidationErrors.ReportSplits` | helpers/validationerrors/validationerrors.go:11-20 | Splitting the report on newlines gives back the messages if and only if there is one and none contains a newline |
| `CanaryWeights.BuildWeightList` | helpers/v3_helpers/deployment.go:50-56 | The loop puts commas between the weight objects and nowhere else |
| `CanaryWeights.WeightsReadBack` | helpers/v3_helpers/deployment.go:50-58 | In its brackets the list is a JSON array (RFC 8259, section 5) that reads back as the same weights in the same order, for any integers |

## Left out

- HTTP routing, headers, logging, the API-info location, the content of the error page, and how long a request sleeps; requests are handled one at a time.
- JSON text: parsing and printing preserve values, and a body that is not JSON raises before the handler does anything. The order of members is kept only where the code depends on it (configuration posts, snapshots of keys).
- ServiceBroker.DataSource.ConvertInstances: a `service_instances` value, or an instance in it, that is an array raises here; Ruby accepts an empty one and takes arrays of pairs apart. A `POST /config` body that is not an object is not modelled either.
- BrokerModel.Reply: the status is the configured value as it is handed to the framework, which turns an array, an object or `true` into an error page; BrokerSafety.NoOperationRaises asks for numbers.
- A response without `sleep_seconds` counts as raising; Ruby 3.3 and later would sleep for ever instead of answering.
- ServiceBroker.DataSource.constructor: the data file's `service_instances` hash is empty, as in the repository's file, and is kept as a field of its own next to the other top-level keys; a file without it or with instances in it is not modelled.
- BrokerRenaming.Simulation: says that a catalog shows the same services under other identifiers, but not which; UniqueConfig.CatalogPlanMapped says which plan ids. The plan in the answer to a fetch of a binding that names none may be renamed or not here; RenamedFetches.FetchSimulated says which, from the run.
- BrokerRenaming.RunRelated: relates a body that binding fetches wrote into up to the plan left there, for the same reason.
- UniqueConfig.RewrittenBrokerSimulates: asks that no catalog plan is called `plan_id`, because the broker reads that word as the plan of a body that is a JSON string containing it, and such a body cannot be renamed.
- PlanRekeying.RenameCatalog: a service list or plan list that is a hash instead of an array raises here; Ruby accepts an empty one, and would also write into a plan or client that is a string containing `id`.
- LogProducers.StopIsFinal: an action on the flag, the number or the output is atomic, as under a lock; torn or delayed writes are not modelled.
- The load generator's byte-size handler raising the flag before it fails on a malformed size, and dora's own byte-size loop, which uses a flag of its own.
- CliVersion.FindVersionMeaning: the regular expression engine is modelled by the language of the expression and the leftmost-longest choice, which for this expression is the leftmost-greedy one.
- ConfigLoading.Package.Decode: member names match exactly (Go also ignores case), an integer field takes any integral number within Go's int range however it is written (Go refuses a fraction or an exponent), a float field takes any number, and the decoder's words are a parameter; URL parsing and name lookup are arbitrary functions.
- Timeouts computed from the scale, and the plain getters: simple.
- CanaryWeights.WeightsReadBack: the reader covers arrays, objects, strings without escapes and integers, which is all the list contains.
- What the suite asks of a remote Cloud Controller, the `cf` and `curl` helpers, and the other sample applications: plumbing without a rule of their own.
