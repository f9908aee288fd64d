# Tip Pool: a Dafny model of the ledger back end and the settlement agents

Tip Pool is a tipping service with three parts.

- **Ledger back end (PHP).** It keeps users, one wallet per user, and a table of tips. Wallets can be credited. A tip moves money between two wallets and records a `pending` tip. A separate request marks a tip `processed`. `public/index.php` routes requests to the two controllers.
- **Polling settlement agent** (`agent/dist/agent.js`). Every ten seconds it fetches the pending tips. For each tip it reads the TipPool contract's balance and minimum payout. When the balance has reached the minimum, it asks a decision stub (`Brain`) for two recipients, writes them to the contract and calls `distribute()`. In every case it then marks the tip processed.
- **Event-driven agent** (`agent/src/agent.ts`). It does the same threshold check on each `TipReceived` event, then calls `distribute()` only.

The project has these modules:

- `LedgerStore`: the database as a class over maps and a sequence, in integer cents. The controllers connect to MySQL (app/Services/Database.php:12), and the model follows InnoDB where engines differ: a failed insert still uses up an auto-increment id. It has the SQL statements as pure functions over the tables, and the invariant that every committed transaction keeps.
- `WalletController` and `UserController`: classes whose methods change the database step by step, with the rollback paths written out.
- `Url`: PHP's `parse_url` asked for the path component, as the label-driven parser of PHP 8 works: scheme, port, authority, path. The result may be a path, no path (`null`) or a rejected URI (`false`).
- `Router`: the dispatch of `index.php` as a pure function over that path, with the PHP `trim` and the `(int)` cast.
- `Text`: the PHP `trim`, decimal rendering and parsing.
- `Brain`: the decision stub. The random shuffle is an input: any ordering of the three candidates.
- `Pool`: the calls the agents make to the back end and to the contract, and the contract state those calls touch.
- `AgentConfig`: the start-up checks both agents share.
- `SettlementAgent`: the polling agent.
  - Specification functions state what the agent does:
    - `TipPlan`: the calls of one tip when nothing throws;
    - `RunPlan`: a thrown call is attempted, has no effect and ends the batch;
    - `TipRun`, `Batch`, `Poll`, `Runs`: one tip, one batch, one iteration, and many iterations of the loop.
  - The class `Agent` is the process itself. It holds the statuses it has marked, the contract fields and a ghost trace of its calls. Its methods are proved against those functions.
- `AgentProperties`: the properties of the polling agent, stated over the specification functions.
- `EventAgent`: the event-driven agent, as the class `Listener` and its specification `Handle`.

A run of either agent takes its environment as inputs:

- which collaborator call throws (`fail`/`failAt`, counted from the start of the batch);
- the tips the fetch returns;
- the Brain's shuffle for each tip;
- the pool balance that each confirmed `distribute()` leaves behind (`leftover`). The contract's code is not in the repository, so nothing here assumes what `distribute()` pays out.

The routes the agent calls are not routed, as the code is written. `index.php` has no route for `GET tips/pending` or `POST tips/process`, so both fall through to the 404 object (`Router.AgentRoutesUnrouted`). The agent's `pendingTips.length` is then undefined. In the model this is the `NotAList` fetch result: the round ends quietly with no contract call (`AgentProperties.IdleRound`). Where the agent's properties speak of marking tips (`AgentProperties.TipMarksOnSuccess`, `AgentProperties.BatchMarksAll`, `AgentProperties.AbortKeepsRestPending`, `AgentProperties.DrainedBatch`), they describe the agent talking to a back end that does route `GET tips/pending` to `pendingTips` and `POST tips/process` to `markTipProcessed`. Such a back end is not the one in the repository.

## Model

| member | source | states |
|---|---|---|
| `LedgerStore.Database.constructor` | setup_sqlite.php:11-35 | a fresh database has no users, wallets or tips, both id counters start at 1, and it satisfies the store invariant |
| `LedgerStore.SetBalanceConsistent` | setup_sqlite.php:18-23 | setting an existing wallet to a balance within DECIMAL(10,2) and not negative keeps every schema invariant |
| `LedgerStore.RecordTipConsistent` | setup_sqlite.php:26-35 | a tip row between existing users, with a positive in-range amount and the next id, keeps the invariant and keeps ids increasing |
| `LedgerStore.PendingRows` | src/controllers/WalletController.php:172-173 | the listed rows are exactly the pending rows of the table, each as many times as the table holds it |
| `LedgerStore.PendingRowsAppend` | src/controllers/WalletController.php:172-173 | the listing keeps the table's order: the pending rows of two stretches of the table are those of the first followed by those of the second (the query has no ORDER BY; this order is the model's) |
| `LedgerStore.MarkRows` | src/controllers/WalletController.php:197-198 | the UPDATE sets every row with that id to processed and changes no other field and no other row |
| `LedgerStore.MarkRowsIdempotent` | src/controllers/WalletController.php:196-200 | marking the same id twice gives the same table as marking it once |
| `LedgerStore.MarkRowsUnknownId` | src/controllers/WalletController.php:197-200 | an id that names no tip leaves the table unchanged |
| `LedgerStore.MarkRowsMonotone` | setup_sqlite.php:31 | a processed tip stays processed, and after marking, no pending row has that id |
| `LedgerStore.LastPendingProcessed` | test-tips.php:38-51 | once the only pending tip is marked, the pending list is empty |
| `LedgerStore.NoPendingRows` | src/controllers/WalletController.php:172 | a table with no pending row lists nothing |
| `LedgerStore.Joined` | src/controllers/WalletController.php:214-220 | each listed row is a tip with both users' names. When every tip's users exist, all tips are listed, newest first |
| `LedgerStore.TotalSplit` | src/controllers/WalletController.php:133-138 | any one wallet can be split off the sum of all balances |
| `LedgerStore.TotalUpdate` | src/controllers/WalletController.php:66-67 | changing one wallet changes the sum of balances by exactly the difference |
| `LedgerStore.TotalInsert` | src/controllers/UserController.php:54-58 | a new wallet adds its balance to the sum |
| `LedgerStore.TransferConserves` | src/controllers/WalletController.php:133-138 | debiting one wallet and crediting another by the same amount leaves the sum of balances unchanged |
| `WalletController.WalletController.Balance` | src/controllers/WalletController.php:18-34 | 200 with the stored balance exactly when the user has a wallet. Otherwise 404 with "Wallet not found for user ID n" |
| `WalletController.WalletController.Credit` | src/controllers/WalletController.php:46-84 | missing fields and a non-positive amount give 400, an unknown user 404, and an out-of-range result 500, each changing nothing. Success raises exactly that wallet by the amount and the total by the amount |
| `WalletController.WalletController.Tip` | src/controllers/WalletController.php:91-163 | missing fields, a non-positive amount and a self-tip give 400 before any state is touched. The transaction's outcomes follow `Transfer` |
| `WalletController.WalletController.Transfer` | src/controllers/WalletController.php:117-162 | a missing sender, insufficient funds, a missing receiver or an out-of-range credit roll back to the old state with 400. Success moves the amount (the sender's whole balance is allowed), conserves the total and appends one pending tip with the next id |
| `WalletController.WalletController.Deposit` | src/controllers/WalletController.php:136-148 | after the debit, the receiver gains the amount and one pending tip row is appended; users are unchanged |
| `WalletController.WalletController.RecordTip` | src/controllers/WalletController.php:144-146 | exactly one row with the given sender, receiver, amount and status pending is appended under the next id |
| `WalletController.WalletController.PendingTips` | src/controllers/WalletController.php:169-179 | 200 with exactly the tips whose status is pending, each as often as the table holds it, and nothing changes |
| `WalletController.WalletController.MarkTipProcessed` | src/controllers/WalletController.php:186-205 | a missing id gives 400 and changes nothing. Otherwise that tip becomes processed, nothing else changes, and the reply says processed even for an unknown id |
| `WalletController.WalletController.Index` | src/controllers/WalletController.php:211-227 | 200 with every tip, newest first, each with its sender's and receiver's names |
| `UserController.BlankFieldRejected` | src/controllers/UserController.php:25-34 | a name or email made only of whitespace is refused |
| `UserController.AcceptsIgnoresPadding` | src/controllers/UserController.php:25-37 | whitespace around a field never changes whether the request is accepted |
| `UserController.Accepts` | src/controllers/UserController.php:25-28 | the validation of `create`: both fields set and neither `empty` once trimmed (read on characters by `UserController.AcceptsFields`) |
| `UserController.AcceptsFields` | src/controllers/UserController.php:25-28 | a request is accepted exactly when both fields are set and each holds something besides whitespace other than a lone "0", which PHP's `empty` counts as empty |
| `UserController.AddUserConsistent` | setup_sqlite.php:11-23 | a user under the next id with an unused email, plus a zero wallet for it, keeps the store invariant (emails unique, one wallet per user) |
| `UserController.UserController.Create` | src/controllers/UserController.php:19-79 | a refused request gives 400 and changes nothing. A duplicate email gives 500 and changes no table, but the user id it was given is used up. Success adds one user with the trimmed name and email, and one wallet with balance 0 for its new id. It answers 201 with that id and a balance of 0 |
| `UserController.UserController.InsertUser` | src/controllers/UserController.php:41-61 | the user goes in under the next id and a wallet with 0 is added for it. Tips are unchanged, and so is the sum of balances |
| `Text.ParseDecimal` | public/index.php:61 | parsing the decimal rendering of n gives n back |
| `Text.Trim` | public/index.php:39 | the result has no trimmed character at either end, and it is the part of the input between a leading and a trailing run of trimmed characters |
| `Text.TrimPadded` | src/controllers/UserController.php:36-37 | trimmed characters added at either end do not change the trimmed result |
| `Text.TrimClean` | public/index.php:39 | a string with no trimmed character at either end trims to itself |
| `Url.PathOf` | public/index.php:38 | the path `parse_url` returns, when there is one, holds no control character, `?` or `#`, and is no longer than the URI |
| `Url.Parse` | public/index.php:38 | from every label of the parser, a path found holds no control character, `?` or `#`, and is no longer than the URI |
| `Url.JustPath` | public/index.php:38 | the `just_path` step never refuses the URI. There is no path exactly when a `?` or `#` comes first. Otherwise the path is the text up to the first `?` or `#` (or the end), with its control characters replaced |
| `Url.Sanitize` | public/index.php:38 | the path keeps its length; each control character becomes `_` and every other character stays |
| `Url.PlainPath` | public/index.php:38 | a path with no `:`, `?` or `#` that does not start with `//` is its own path component, control characters replaced, whatever query or fragment follows; an empty path before a query gives no path |
| `Url.NetworkPath` | public/index.php:38 | `//` + host + path drops the host: the path component is what follows it |
| `Url.EmptyAuthorityRejected` | public/index.php:38 | `//` followed by nothing, `/`, `?` or `#` has an empty host, and `parse_url` returns false |
| `Router.RoutePath` | public/index.php:38-39 | the string routed on has no `/` at either end, no `?`, `#` or control character, and is no longer than the request URI; a refused URI and a missing path give "" |
| `Router.IntCast` | public/index.php:61 | the `(int)` cast of a run of digits never exceeds PHP_INT_MAX |
| `Router.MatchWallet` | public/index.php:60-61 | a match means `wallets/` followed by digits (or digits and one final newline, which PCRE's `$` admits), and its value is the `(int)` cast of those digits |
| `Router.Route` | public/index.php:16-85 | OPTIONS is preflight whatever the path. An empty trimmed path is the health check. Each handler is chosen exactly for its method and path. Anything else is a 404 echoing the method and "/" + the trimmed path |
| `Router.RouteIgnoresQuery` | public/index.php:38 | a query string never changes the route of a path with no `:` that does not start with `//` |
| `Router.RouteIgnoresSlashes` | public/index.php:38-39 | any trailing slashes and one leading slash never change the route of a path with no `:` |
| `Router.RouteNetworkPath` | public/index.php:38-39 | `//host/p` is routed as `/p`: the host is dropped |
| `Router.NetworkPathWallet` | public/index.php:38-64 | `GET //wallets/<n>` never reaches `balance`; it is the 404 for `/<n>` |
| `Router.RouteEmptyAuthority` | public/index.php:38-44 | `//` followed by nothing, `/`, `?` or `#` (so `///wallets/5`) gets the health check, whatever the method other than OPTIONS |
| `Router.RoutePathOfSlashed` | public/index.php:38-39 | "/" + p routes on p when p has no `:`, query mark, control character or slash at either end |
| `Router.BalanceRoundTrip` | public/index.php:60-63 | `GET /wallets/<n>` reaches `balance(n)` for every n up to PHP_INT_MAX |
| `Router.BalanceBeyondIntMax` | public/index.php:60-63 | a larger n reaches `balance(PHP_INT_MAX)`, or `balance(0)` once n is too large for a double |
| `Router.WalletUri` | public/index.php:38-39 | "/wallets/" + digits trims to "wallets/" + digits |
| `Router.WalletDigits` | public/index.php:60-61 | "wallets/" + digits matches with the `(int)` cast of the digits' value |
| `Router.WalletRouteDigitsOnly` | public/index.php:38-62 | whatever reaches `balance` had only digits after `wallets/`, and its user id is their cast value: the final-newline case of the pattern never comes from a request |
| `Router.FallThrough` | public/index.php:80-85 | whatever is not OPTIONS, the health check or one of the four routes gets the 404 |
| `Router.Unrouted` | public/index.php:77-85 | the 404 echoes the method and "/" + the trimmed path |
| `Router.AgentRoutesUnrouted` | public/index.php:54-85 | `GET tips/pending` and `POST tips/process` are not routed and get the 404 |
| `Router.DashboardRoutesUnrouted` | public/index.php:54-85 | `GET users` and `GET tips` are not routed and get the 404 |
| `Router.MalformedWalletPaths` | public/index.php:60-64 | `wallets/abc` and an extra segment after the digits do not reach `balance` |
| `Router.WrongMethodUnrouted` | public/index.php:54-75 | the routed paths with another method get the 404 |
| `Brain.DecideDistribution` | agent/dist/Brain.js:10-30 | exactly two distinct recipients, both among the three candidates. The bps are as many as the recipients, each 5000, summing to 10000. The rationale counts two winners |
| `Brain.ShuffleShape` | agent/dist/Brain.js:16-22 | any shuffle holds the three candidates, each exactly once |
| `Brain.ReasoningNamesTwo` | agent/dist/Brain.js:29 | the message reads "Selected 2 active contributors based on recent activity logs." |
| `Brain.IgnoresCurrentRecipients` | agent/dist/Brain.js:10-30 | the current recipients have no influence on the decision |
| `Brain.EveryPairPossible` | agent/dist/Brain.js:22 | every ordered pair of distinct candidates is the decision for some shuffle |
| `Brain.ArrangementIsShuffle` | agent/dist/Brain.js:22 | every arrangement of the three candidates is a possible shuffle |
| `Pool.ContractEffect` | agent/dist/agent.js:93-99 | `setRecipients` installs exactly the recipients and bps it is given. `distribute` leaves the pool with the leftover given for it. Every other call leaves the contract unchanged |
| `AgentConfig.Setting` | agent/dist/agent.js:40-42 | an unset or empty variable falls back to its default; any other value is used as it is |
| `AgentConfig.Start` | agent/dist/agent.js:54-61 | a missing private key, then a missing contract address, stops with status 1 and that message. Otherwise the configuration holds the given key and address and the URLs or their defaults |
| `AgentConfig.DefaultsApply` | agent/dist/agent.js:40-52 | with no RPC or back-end URL set, the local node and the local back end are used |
| `SettlementAgent.Mark` | agent/dist/agent.js:103-107 | marking sets that tip to processed and leaves every other tip and the set of tips unchanged |
| `SettlementAgent.MarkAll` | agent/dist/agent.js:76-108 | marking a list of ids processes exactly the tips in the list |
| `SettlementAgent.StatusesMarkRows` | src/controllers/WalletController.php:197-198 | the agent's view of marking a tip is the ledger's UPDATE: the statuses of the table after `MarkRows` are `Mark` applied to its statuses before |
| `SettlementAgent.ShiftShift` | agent/dist/agent.js:76-109 | counting the failing call down by a and then by b is counting it down by a + b |
| `SettlementAgent.BatchStep` | agent/dist/agent.js:76-109 | the batch up to tip k+1 is the batch up to tip k followed by tip k, unless it had already been abandoned |
| `SettlementAgent.BatchAbortStable` | agent/dist/agent.js:69-114 | once the batch is abandoned, the tips after the failing one make no difference |
| `SettlementAgent.TipAdvances` | agent/dist/agent.js:76-109 | handling the next tip without a throw extends the handled prefix by one tip |
| `SettlementAgent.TipAborts` | agent/dist/agent.js:69-114 | a throw while handling a tip leaves the agent where the whole batch leaves it |
| `SettlementAgent.TipPlan` | agent/dist/agent.js:81-108 | the calls of one tip when nothing throws: getBalance and minPayout, then at the threshold getRecipients, setRecipients with the Brain's decision and distribute, and in every case the mark (the lists are stated by `AgentProperties.TipCalls`) |
| `SettlementAgent.RunPlan` | agent/dist/agent.js:69-114 | a plan run up to a throw: the failing call is attempted, has no effect and ends the run (stated by `AgentProperties.RunPlanPrefix`) |
| `SettlementAgent.Batch` | agent/dist/agent.js:74-110 | the `for` loop over the fetched tips, each tip continuing where the last left off, up to the first throw (stated by `AgentProperties.BatchFailIndex`, `AgentProperties.BatchMarksAll`, `AgentProperties.AbortKeepsRestPending`) |
| `SettlementAgent.Poll` | agent/dist/agent.js:69-114 | one pass of the `while (true)` body: the fetch, then the batch when a list came back (stated by `AgentProperties.PollFailIndex`, `AgentProperties.IdleRound`) |
| `SettlementAgent.Runs` | agent/dist/agent.js:68-117 | the loop over many passes, each starting from the world the last left (stated by `AgentProperties.RunsFetchFirst`, `AgentProperties.AbortedRoundContinues`) |
| `SettlementAgent.Agent.constructor` | agent/dist/agent.js:62-66 | the agent starts in the given world with no calls made |
| `SettlementAgent.Agent.Perform` | agent/dist/agent.js:81-107 | each awaited call is recorded. It throws exactly when it is the failing one, and then has no effect. Otherwise it has the call's effect |
| `SettlementAgent.Agent.ReadThreshold` | agent/dist/agent.js:81-82 | the two reads change nothing, and the agent holds the values read |
| `SettlementAgent.Agent.Reconfigure` | agent/dist/agent.js:84-108 | the threshold-met branch makes the calls of its plan, up to a throw, with their effects: setRecipients gets the decision the Brain made for the recipients just read |
| `SettlementAgent.Agent.Settle` | agent/dist/agent.js:96-108 | distribute, awaited, then the mark, up to a throw, with their effects |
| `SettlementAgent.Agent.ProcessTip` | agent/dist/agent.js:76-109 | the loop body follows `TipRun`: the world, calls made and throw are exactly those of the plan of one tip |
| `SettlementAgent.Agent.NextTip` | agent/dist/agent.js:76-109 | one loop iteration either extends the handled prefix or finishes the batch with the catch block reached |
| `SettlementAgent.Agent.RunBatch` | agent/dist/agent.js:74-110 | the loop over the tips ends where `Batch` says, and the catch runs exactly when `Batch` aborted |
| `SettlementAgent.Agent.PollOnce` | agent/dist/agent.js:69-114 | one iteration follows `Poll`: the fetch comes first, then the batch, and `caught` says whether the catch block ran |
| `SettlementAgent.Agent.Run` | agent/dist/agent.js:68-117 | any number of iterations follow `Runs`, whatever each iteration ended in |
| `SettlementAgent.Agent.Launch` | agent/dist/agent.js:53-68 | a missing key or address exits with status 1 before any call and any change. So does a key the wallet constructor refuses, through the rejection handler at agent/dist/agent.js:119-121. Otherwise the loop runs |
| `AgentProperties.RunPlanPrefix` | agent/dist/agent.js:69-114 | a run attempts a prefix of its calls: all of them when nothing throws, otherwise exactly up to the failing one. Only the calls before a throw take effect |
| `AgentProperties.ReplayKeepsContract` | agent/dist/agent.js:81-90 | reads and marks leave the contract unchanged |
| `AgentProperties.ReplayKeepsLedger` | agent/dist/agent.js:81-100 | contract calls leave the tip statuses unchanged |
| `AgentProperties.ThresholdMetProtocol` | agent/dist/agent.js:81-108 | at the threshold the calls are getBalance, minPayout, getRecipients, setRecipients, distribute, then the mark, in that order. setRecipients gets the Brain's decision for the recipients in the contract, unchanged. Afterwards the contract holds that decision and the leftover balance, and the tip is marked |
| `AgentProperties.BelowThresholdProtocol` | agent/dist/agent.js:81-108 | below the threshold the calls are getBalance, minPayout, then the mark. The contract is left alone and the tip is marked |
| `AgentProperties.TipCalls` | agent/dist/agent.js:81-108 | a tip's plan is the six calls at the threshold and the three calls below it |
| `AgentProperties.InclusiveThreshold` | agent/dist/agent.js:84 | a tip distributes exactly when balance >= minPayout, equality included |
| `AgentProperties.BelowThresholdSkipsWrites` | agent/dist/agent.js:84-108 | below the threshold, whatever throws, there is no getRecipients, setRecipients or distribute call and the contract is unchanged |
| `AgentProperties.TipMarksOnSuccess` | agent/dist/agent.js:102-108 | a tip is marked exactly when its handling did not throw; a throw leaves every status as it was |
| `AgentProperties.BatchMarksAll` | agent/dist/agent.js:76-109 | a batch that runs to its end marks exactly its tips, and with no failing call every batch does |
| `AgentProperties.AbortKeepsRestPending` | agent/dist/agent.js:69-114 | when tip k throws, the catch block is reached with the tips before k marked. Tip k and every other tip keep their status |
| `AgentProperties.AbortedAtSomeTip` | agent/dist/agent.js:69-114 | every abandoned batch was abandoned at some tip k: the tips before k ran without a throw and tip k threw |
| `AgentProperties.AbortPoint` | agent/dist/agent.js:69-114 | within the first n tips, a batch abandoned there was abandoned at a tip k < n, the first to throw |
| `AgentProperties.BatchFailIndex` | agent/dist/agent.js:69-114 | a batch is abandoned only at the failing call, which is then the last call attempted; a batch that runs to its end made fewer calls than the failing index |
| `AgentProperties.DrainedBatch` | agent/dist/agent.js:76-84 | the balance is read afresh for every tip. After a distribution that leaves less than the minimum, the next tip of the same batch is only read and marked |
| `AgentProperties.IdleRound` | agent/dist/agent.js:72-74 | an empty list, a reply that is not a list, or a failed fetch gives no contract call and no status change |
| `AgentProperties.AbortedRoundContinues` | agent/dist/agent.js:112-116 | whatever a round ended in, the catch block included, the calls made so far are kept and the next round starts with a fresh fetch |
| `AgentProperties.PollFailIndex` | agent/dist/agent.js:69-114 | every pass starts with the fetch, and reaches the catch block exactly when the fetch throws or the failing call is within the batch, as its last call |
| `AgentProperties.RunsFetchFirst` | agent/dist/agent.js:68-117 | every pass makes at least one call, and the first call of the loop is a fetch |
| `EventAgent.Handle` | agent/src/agent.ts:34-53 | distribute is called at most once, and only when balance >= minPayout. With nothing thrown, it is called exactly then. getRecipients, setRecipients and back-end calls are never made. The recipients, bps and minimum are unchanged, and the balance changes only by a confirmed distribution |
| `EventAgent.Listener.constructor` | agent/src/agent.ts:27-29 | the agent starts with the given contract state, not listening, with no calls made |
| `EventAgent.Listener.Launch` | agent/src/agent.ts:17-34 | a missing key or address exits with status 1 before any listener is registered. So does a key the wallet constructor refuses, through the rejection handler at agent/src/agent.ts:65-67. Otherwise the listeners are registered. No call is made |
| `EventAgent.Listener.OnTipReceived` | agent/src/agent.ts:34-53 | once registered, the handler follows `Handle`: its calls and their effects. A failure is caught inside and the agent keeps listening |

## Left out

- Console output, `toLocaleTimeString`, `formatEther` and the ten-second sleep are left out. They only log or wait.
- The HTTP status of the mark-processed POST is never checked by the agent, so only a thrown request counts as a failure.
- The TipPool contract's code is not part of this model. What `distribute()` pays out, its remainder handling and its events are not modelled. The balance it leaves behind is an input (`leftover`), and `setRecipients` is taken to install exactly its arguments.
- `Math.random` is left out. The shuffle is an input: any ordering of the three candidates.
- Addresses are modelled as the numbers their hex strings denote. The checksummed spelling is not modelled.
- The agents see the ledger as a map from tip id to status. The tip's amount and user ids are only logged, so they are not modelled.
- Concurrency is left out:
  - row locking by `SELECT … FOR UPDATE`;
  - overlapping asynchronous `TipReceived` handlers;
  - a back end and an agent racing.

  Transactions are atomic and events are handled one at a time.
- The `PayoutExecuted` listener of agent/src/agent.ts only logs, so it is left out.
- SettlementAgent.Agent.Launch: whether `new ethers.Wallet` accepts the private key is an input (`keyAccepted`). The key's format is not checked, and `JsonRpcProvider` and `Contract` are taken not to throw, so a refused key is the only way `main()` rejects in the model.
- EventAgent.Listener.Launch: the same as for the polling agent. Whether the wallet constructor accepts the key is an input, and nothing else makes `main()` reject.
- PHP's `(float)` casts and JavaScript floats are left out. Amounts are integer cents in the ledger and integer wei in the contract.
- JSON decoding is not modelled. A request field is `None` when PHP's `isset` is false. Non-numeric amounts and PHP's loose comparisons between strings and numbers are not modelled.
- A database error other than a duplicate email or an out-of-range amount is not modelled, so the 500 reply of `balance`, `pendingTips`, `markTipProcessed` and `index` never occurs.
- UserController.UserController.Create: emails are compared exactly. The schema of the MySQL database is not part of the repository. Under the default collation of `utf8mb4` (app/Services/Database.php:12), emails that differ only in letter case or accents would also be refused as duplicates, and that is not modelled.
- SettlementAgent.Agent.Perform: a call that throws is taken to have had no effect. A `tx.wait()` that throws after its transaction was mined, or a POST whose reply is lost after the back end committed, has its effect all the same; the model does not cover that. `AgentProperties.TipMarksOnSuccess`, `AgentProperties.AbortKeepsRestPending` and `AgentProperties.RunPlanPrefix` rest on this assumption, and so does `EventAgent.Handle` for the balance.
- SettlementAgent.Runs: nothing else changes the world between rounds. Deposits into the pool, new tips recorded by the back end and other writers of the contract during the ten-second sleep are not modelled; each round starts from the world the previous one left.
- SettlementAgent.Mark: a `POST tips/process` that does not throw is taken to run the UPDATE of `markTipProcessed` (`LedgerStore.MarkRows`, related by `SettlementAgent.StatusesMarkRows`). With `index.php` as written the POST gets the 404 and changes nothing, so `AgentProperties.TipMarksOnSuccess`, `AgentProperties.BatchMarksAll`, `AgentProperties.AbortKeepsRestPending` and `AgentProperties.DrainedBatch` describe the agent against a back end that routes it.
- Url.PathOf: the request URI is a string of characters where PHP sees bytes; `iscntrl` is applied to each character, so a character above 0x7F is never a control character.
- Router.IntCast: the boundary at which a run of digits becomes infinity is that of a correctly rounded `strtod`.
- WalletController.WalletController.Index: the order among tips with the same `created_at` is taken to be the order of insertion, newest first.
- WalletController.WalletController.Index: a tip whose user no longer exists would be dropped by the join. The invariant rules this out, so only the consistent case is stated.
- Router.Route: the bootstrap of `index.php` is taken to load. As written, public/index.php:12 loads config/database.php, which declares a class `Database`. public/index.php:13 then loads UserController.php, which requires app/Services/Database.php and declares `Database` again. PHP stops with a fatal error there, before any routing. The model routes as if one `Database` class were loaded.
- `agent/src/x402Adapter.ts`, the frontend, the contract scripts and tests, `config/database.php`, `app/Services/Database.php`, `routes/api.php` and the debug and test scripts under `public/` are not part of this model.
