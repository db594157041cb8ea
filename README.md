# HighGuard CI core, modelled in Dafny

This project models two pieces of sequential logic from HighGuard's continuous-integration scripts. Both are stated with the I/O replaced by abstract inputs.

**The synthesized-exploit campaign** (`CI/setup-synthesized.js`, module `SetupSynthesized`):
- `setupAndRunTests` walks the contracts of the CI configuration.
- For each contract, it walks the variants `1..numOfVariants`, and within each variant every model. It builds the contract-variant name `name-<v>` and the exploit file name `nameExploit-<v>.js`.
- It skips a variant whose first configured test is not among the configured tests.
- For each remaining triple, it deploys the contract and attaches a monitor. The monitor's `statusChange` handler starts the monitor on `INITIALIZED`. On `RUNNING` it runs the exploit scripts, folds their settled results into the ledger, then resolves.
- The ledger consists of `successfulExploitsCount`, `failedExploitsCount` and `failedExploits`. The pipeline's catch block also records into it.
- The imperative code is the class `Campaign`: mutable counters, a failure list and the monitor list. Its methods are proved against pure functions (`Aggregate`, `React`, `Drive`, `TripleStep`, `Models`, `Variants`, `Contracts`, `RunCampaign`). Lemmas about those functions state the invariants and the order of the walk.

**The start-up reader of a `solana-test-validator` node** (`CI/envs/solana-test-validator/index.js`, module `SolanaTestValidator`):
- `extractSTVInfo` accumulates the node's stdout until the accumulated text contains `WebSocket PubSub URL:`, then stops listening.
- It extracts the JSON-RPC address with the pattern `JSON RPC URL: http://(\d+\.\d+\.\d+\.\d+:\d+)`; the address is null when the pattern does not match.
- It builds an index-aligned pool of ten keypairs, private keys and accounts, then resolves.
- Any stderr data rejects the promise with `Error: <data>`. The promise settles only once.
- `setupEnv` fails with `No free ports found!` on an empty free-port list. Otherwise it picks `freePorts[floor(random * length)]`.
- The stdout/stderr handlers are the class `StartupReader`, proved against the pure `Step`/`Feed` functions. The extraction and the port choice are pure functions.

Module `Text` holds the shared string helpers: digits, substring search, chunk concatenation, and decimal rendering with its inverse. Module `Wrappers` holds `Option` and `Result`.

The abstract inputs are:
- the process is the sequence of data events it emits;
- key generation is a function from the call index to a keypair;
- `Math.random()` is a real in `[0, 1)`;
- the environment set-up of each contract is an input, and so is the outcome of each triple's deployment pipeline;
- the monitor is the sequence of status events it emits, each with the exploit modules that `require` would yield.

Behaviour of the code that the model keeps, and that a reader might not expect:
- A throw from `setupAnvilEnv`, the missing-`web3`/`envInfo` check, or `retrieveConstructorParameters` ends the whole campaign, because these run outside the `try` (CI/setup-synthesized.js:34-40, 71). `RunState.aborted` and `Outcome.Aborted` model this.
- A monitor that never reports `RUNNING` leaves `await Promise.allSettled(allMonitors)` pending forever (`Outcome.Waiting`), and its triple adds nothing to the counts.
- A node whose output never holds the readiness marker, and that writes nothing to stderr, leaves the start-up promise pending forever (`settled == None`). There is no time-out.

To verify the project, from this directory:

    dafny verify --resource-limit 2000000 --verification-time-limit 0 --warn-contradictory-assumptions *.dfy

Add `--boogie /randomSeed:N` to try other solver seeds. Plain `dafny verify *.dfy` works too.

## Model

| member | source | states |
|---|---|---|
| SetupSynthesized.VariantIsRecoverable | CI/setup-synthesized.js:43-44 | the variant index is read back, by decimal parsing, from both the contract-variant name and the exploit file name |
| SetupSynthesized.NamesDistinguishVariants | CI/setup-synthesized.js:43-44 | different variants of one contract get different contract-variant names and different exploit file names |
| SetupSynthesized.FindTest | CI/setup-synthesized.js:47-51 | `tests.find` by name: a found index holds the name and no earlier entry does; not found exactly when no entry has the name, which is always the case for an undefined name (empty `contract.tests`) |
| SetupSynthesized.RunExploits | CI/setup-synthesized.js:123-130 | one settled result per test file, in order; a non-function module becomes a rejection with `Incorrect module type`; the batch is absent exactly when some module throws synchronously |
| SetupSynthesized.AggregateSpec | CI/setup-synthesized.js:130-141 | folding a settled batch grows successful+failed by exactly the batch size; failures grow by the number of results that are not fulfilled-and-truthy; records are only appended, each names the contract variant and the exploit with a null reason; the failure count stays equal to the list length |
| SetupSynthesized.AllSucceedExactly | CI/setup-synthesized.js:132-134 | the success count grows by the whole batch if and only if every result is fulfilled with a truthy value |
| SetupSynthesized.CountFailingZero | CI/setup-synthesized.js:132-134 | a batch has no failing result if and only if every result is fulfilled and truthy |
| SetupSynthesized.HandlerReaction | CI/setup-synthesized.js:111-145 | the handler calls `start` exactly on INITIALIZED and then changes nothing else; the ledger and the resolve flag change only on RUNNING; on RUNNING with a loadable batch the promise resolves with the batch folded in; a synchronous throw changes nothing; other monitors are untouched |
| SetupSynthesized.NonFunctionModuleFails | CI/setup-synthesized.js:126-139 | a test module that is not a function adds exactly one failure with a null reason and no success |
| SetupSynthesized.DriveSpec | CI/setup-synthesized.js:111-155 | whatever events a monitor emits, its handler only appends null-reason records naming its own contract variant and test, and keeps the failure count equal to the list length |
| SetupSynthesized.TripleSpec | CI/setup-synthesized.js:61-177 | one triple is recorded as visited; it ends the campaign exactly when the constructor parameters threw, changing no count then; a pipeline throw adds one failure and one record carrying the error and no success; every record it appends names `name-<v>` and `contract.tests[0]` |
| SetupSynthesized.DriveResolves | CI/setup-synthesized.js:110-145 | after a monitor's events its promise has resolved exactly when it had before or one event was a RUNNING whose test modules all loaded; other monitors keep their entries |
| SetupSynthesized.ModelsSpec | CI/setup-synthesized.js:61-177 | the model loop visits models in declaration order (a prefix when cut short) and only appends to the ledger; every record it appends names `name-<v>` and the variant's test name |
| SetupSynthesized.SkippedVariantChangesNothing | CI/setup-synthesized.js:51-55 | a variant whose test is not configured changes no count, list or monitor and is only recorded as skipped |
| SetupSynthesized.VariantsSpec | CI/setup-synthesized.js:42-186 | the variant loop visits variants from the given index up to `numOfVariants` in increasing order, each skipped or walked through all its models, and only appends to the ledger |
| SetupSynthesized.ContractsSpec | CI/setup-synthesized.js:30-187 | the contract loop visits contracts in configuration order, each through its variants 1..numOfVariants (a prefix of that walk when cut short), and only appends to the ledger |
| SetupSynthesized.VariantsNames | CI/setup-synthesized.js:42-177 | every record the variant loop appends names `name-<v>` for a variant `v` it reached (`v` at most `numOfVariants`) and the contract's `tests[0]` |
| SetupSynthesized.ContractsNames | CI/setup-synthesized.js:30-187 | every record the contract loop appends names a variant of a configured contract it reached and that contract's `tests[0]` |
| SetupSynthesized.CampaignSpec | CI/setup-synthesized.js:25-187 | for the whole campaign the failure count equals the failure list's length; the visits are a prefix of the contract/variant/model walk, and all of it when nothing aborted; every failure record has `contract == name-<v>` and `exploit == tests[0]` for some configured contract and some `1 <= v <= numOfVariants` |
| SetupSynthesized.TripleTracks | CI/setup-synthesized.js:61-177 | one triple keeps every monitor's resolve flag equal to what its own triple's events determine; a deployed triple adds one monitor, resolved exactly when some event ran its exploits |
| SetupSynthesized.ModelsTrack | CI/setup-synthesized.js:61-177 | the model loop keeps the monitors' resolve flags in step with their triples' events |
| SetupSynthesized.VariantsTrack | CI/setup-synthesized.js:42-186 | the variant loop keeps the monitors' resolve flags in step with their triples' events; a skipped variant adds no monitor |
| SetupSynthesized.ContractsTrack | CI/setup-synthesized.js:30-187 | the contract loop keeps the monitors' resolve flags in step with their triples' events |
| SetupSynthesized.AllFlagsSet | CI/setup-synthesized.js:110-145 | all the resolve flags a walk determines are set exactly when every deployed triple of it had a RUNNING whose modules all loaded |
| SetupSynthesized.CampaignReportsExactly | CI/setup-synthesized.js:192-202 | `setupAndRunTests` reports exactly when no error ended the loops and every deployed triple of the whole walk emitted a RUNNING whose test modules all loaded; with no error and some deployed triple that never did, the promise stays pending |
| SetupSynthesized.Campaign.constructor | CI/setup-synthesized.js:25-28 | counters start at 0, the failure and monitor lists start empty |
| SetupSynthesized.Campaign.RecordSettled | CI/setup-synthesized.js:131-141 | the `forEach` loop leaves the ledger equal to the fold `Aggregate` of the batch and keeps the failure count equal to the list length |
| SetupSynthesized.Campaign.RecordPipelineFailure | CI/setup-synthesized.js:158-165 | the catch block adds one failure and one record carrying the error, keeping the failure count equal to the list length |
| SetupSynthesized.Campaign.AddMonitor | CI/setup-synthesized.js:109-110 | appends one unstarted, unresolved monitor for the contract variant and model, at the returned index |
| SetupSynthesized.Campaign.OnStatusChange | CI/setup-synthesized.js:111-155 | the handler's new state is `React` of the old one, so everything `HandlerReaction` proves holds of it |
| SetupSynthesized.Campaign.DeliverEvents | CI/setup-synthesized.js:111 | delivering a monitor's events in order leaves the state `Drive` describes |
| SetupSynthesized.Campaign.TryTriple | CI/setup-synthesized.js:61-177 | one model iteration leaves the state `TripleStep` describes and returns the error thrown outside the try |
| SetupSynthesized.Campaign.VisitVariant | CI/setup-synthesized.js:42-186 | one variant iteration (lookup, skip, model loop) leaves the state `VariantStep` describes |
| SetupSynthesized.SetupAndRunTests | CI/setup-synthesized.js:23-207 | the nested loops leave counters, lists and trace as `RunCampaign` describes, and end as `OutcomeOf` says, so `CampaignSpec` and `CampaignReportsExactly` hold of the run |
| Text.NatToString | CI/setup-synthesized.js:43-44 | `toString` of a variant index is a non-empty digit string with no leading zero unless the index is 0 |
| Text.ParseNatToString | CI/setup-synthesized.js:43-44 | decimal rendering is inverted by decimal parsing |
| SolanaTestValidator.DigitRunEnd | CI/envs/solana-test-validator/index.js:24 | a `\d+` run extends over digits only and stops before a non-digit (greedy) |
| SolanaTestValidator.FirstPatternMatch | CI/envs/solana-test-validator/index.js:24 | the match found is the leftmost position where the pattern matches |
| SolanaTestValidator.DigitRunEndAt | CI/envs/solana-test-validator/index.js:24 | a maximal digit run is exactly the one the scanner finds |
| SolanaTestValidator.MatchedIsSeparated | CI/envs/solana-test-validator/index.js:24 | what the address scanner captures is digit runs joined by the separators `. . . :` |
| SolanaTestValidator.SeparatedIsMatched | CI/envs/solana-test-validator/index.js:24 | conversely, such an address followed by a non-digit is captured whole |
| SolanaTestValidator.MatchIsShown | CI/envs/solana-test-validator/index.js:24-25 | a match at a position is the prefix followed by an address with maximal last run |
| SolanaTestValidator.ShownIsMatched | CI/envs/solana-test-validator/index.js:24-25 | conversely, the prefix followed by such an address is a match capturing that address |
| SolanaTestValidator.FirstCaptureIsLeftmost | CI/envs/solana-test-validator/index.js:24-25 | no capture exactly when no position shows the pattern; otherwise the capture is the one at the leftmost such position |
| SolanaTestValidator.SeparatorsAreNotDigits | CI/envs/solana-test-validator/index.js:24 | the separators `.` and `:` are not digits, so the digit runs cannot swallow them |
| SolanaTestValidator.ExtractRpcAddressSpec | CI/envs/solana-test-validator/index.js:24-25 | `rpcAddress` is null exactly when no position of the output holds `JSON RPC URL: http://` followed by an address; otherwise it is the address at the leftmost such position, in the shape digits.digits.digits.digits:digits, and not followed by a digit |
| SolanaTestValidator.SeparatedCons | CI/envs/solana-test-validator/index.js:24 | a digit run, a separator and a separated rest form a separated address |
| SolanaTestValidator.AddressFromRuns | CI/envs/solana-test-validator/index.js:24 | any five non-empty digit runs joined by `.`, `.`, `.`, `:` have the address shape |
| SolanaTestValidator.ExtractFromBanner | CI/envs/solana-test-validator/index.js:24-25 | the banner line `JSON RPC URL: http://<address>` followed by a non-digit yields exactly that address |
| SolanaTestValidator.BuildPool | CI/envs/solana-test-validator/index.js:29-36 | the loop produces exactly ten keypairs, private keys and accounts; the i-th key and account come from the i-th keypair |
| SolanaTestValidator.StartupReader.constructor | CI/envs/solana-test-validator/index.js:16-17 | empty output, listening, not settled |
| SolanaTestValidator.StartupReader.OnStdout | CI/envs/solana-test-validator/index.js:18-49 | the stdout handler's new state is `Step` of the old one on a stdout chunk |
| SolanaTestValidator.StartupReader.OnStderr | CI/envs/solana-test-validator/index.js:51-53 | the stderr handler's new state is `Step` of the old one on a stderr chunk |
| SolanaTestValidator.ExtractSTVInfo | CI/envs/solana-test-validator/index.js:14-55 | feeding the process's events to the handlers settles the promise as `Feed` says |
| SolanaTestValidator.OutputIsReadPrefix | CI/envs/solana-test-validator/index.js:17-22 | `output` is the join of the stdout chunks up to and including the first after which the text holds the marker; later chunks leave it unchanged; the listener is detached exactly when the output holds the marker |
| SolanaTestValidator.MarkerIsDetected | CI/envs/solana-test-validator/index.js:19-21 | a marker anywhere in the joined stdout, even split across chunks, detaches the listener |
| SolanaTestValidator.SplitMarkerIsDetected | CI/envs/solana-test-validator/index.js:19-21 | a marker split over two chunks is detected, and not after the first chunk alone |
| SolanaTestValidator.SettledIsFinal | CI/envs/solana-test-validator/index.js:42-53 | once settled, no later stdout or stderr event changes the outcome |
| SolanaTestValidator.StderrBeforeReadinessRejects | CI/envs/solana-test-validator/index.js:51-53 | stderr data arriving while pending settles the promise as a rejection with `Error: ` + data |
| SolanaTestValidator.ResolvedCarriesPool | CI/envs/solana-test-validator/index.js:24-47 | a resolved promise carries ten accounts and ten private keys index-aligned with the generated keypairs, the address extracted from the output (null when unmatched), and the pid |
| SolanaTestValidator.StdoutOnlyResolvesOnReadiness | CI/envs/solana-test-validator/index.js:18-48 | without stderr the promise is pending while listening and resolves once the marker is seen, even when the RPC pattern does not match |
| SolanaTestValidator.RandomIndex | CI/envs/solana-test-validator/index.js:63 | `floor(random * n)` is a valid index |
| SolanaTestValidator.ChoosePort | CI/envs/solana-test-validator/index.js:59-63 | fails with `No free ports found!` exactly when the list is empty; otherwise the port is an element of the list |
| SolanaTestValidator.EveryFreePortCanBeChosen | CI/envs/solana-test-validator/index.js:63 | every free port is chosen for some random value |

## Left out

- Concurrency: a monitor's status events are handled at its own triple, in order, before the next triple starts. The source runs handlers concurrently with later iterations. Failure records from different monitors may interleave differently there. Counts and the set of records are the same; list order is not.
- `Promise.allSettled` over the monitors (CI/setup-synthesized.js:192) is modelled as a test that every monitor has resolved, not as waiting.
- Exploit scripts are their settled results, and a test module is what `require` yields. Module caching by `require` is not modelled.
- Compilation, deployment, ABI, constructor-parameter, model-configuration and activity lookups (`@lib/web3/deploy`, `@lib/config`, `@lib/dcr/info`) are not part of this model. Each triple's pipeline is an abstract outcome: it throws before the try, throws inside it, or deploys a monitor.
- The `Monitor` class (`@monitor/monitor`) is not part of this model. Only its status events and the handler's reaction are kept.
- `setupAnvilEnv` (`@envs/anvil`) is not part of this model. Its result per contract is an input.
- The global `configs` object (CI/setup-synthesized.js:97-107) is not modelled, nor are the `environment` and `testDirectory` path joins.
- Process spawning and termination, the 500-second teardown timers, logging and colour formatting are I/O and are left out.
- The Solana and Web3 clients, the fire-and-forget airdrops (CI/envs/solana-test-validator/index.js:37-40) and the Web3 wallet set-up in `setupEnv` (lines 65-80) call code that is not part of this model.
- `findFreePorts` (`@lib/os/network`) is not part of this model. The free-port list is an input.
- Byte decoding of stream chunks (`data.toString()`) is not modelled. Chunks are already text.
- SolanaTestValidator.ChoosePort: `Math.random()` is any real in `[0, 1)`. Its distribution is not modelled.
- The module-load side effect `testing()` (CI/envs/solana-test-validator/index.js:84-87) and CI/run.js are outside the core.
- SetupSynthesized.FindTest: every configured test is taken to have a string `name`. In the source, an undefined `testName` (empty `contract.tests`) is found by `find` when some configured test has no `name` key; the model does not represent a test without a name, so it never finds one there.
- Numbers: `numOfVariants` is an integer and the counters are unbounded. The source's JavaScript numbers may be undefined or fractional there (the loop then runs while `variantIndex <= numOfVariants` holds for the fraction, or not at all for undefined), and `toString` switches to exponent notation from 1e21; neither is modelled.
- SetupSynthesized.Truthy: a fulfilled value is one of undefined, null, a boolean, a number, NaN, a string or an object. BigInt and `-0` are not distinguished, and `Infinity` is not modelled.
