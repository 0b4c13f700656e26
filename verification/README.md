# Camino end-to-end harness: a verified model

This project models the parts of the Camino end-to-end test harness that carry logic of their own, and proves what
they guarantee. Nothing here runs the harness; the lemmas and contracts are what the Dafny verifier checks
(`dafny verify dfyconfig.toml`).

The model has four parts.

- **The bombard test** (`MachineInt`, `TxChain`, `UtxoLedger`, `Confluence`, `Preparation`, `Confirmation`, `Bombard`,
  `BombardVerdict`). Addresses are funded and their balances checked through the workflow runner; then a chain of
  transactions per client, each spending the one before, is built in wrapping uint64 arithmetic, issued to a ledger of
  unspent outputs and awaited. Transaction and output IDs are structural: a transaction contains the ID of the output
  it spends. A private key stands for the address it owns.
- **The workflow runner** (`TwoChain`, `Polling`, `Runner`, `Requests`, `Serving`, `StartValidation`, `Workflow`). The network is a value: a clock, the
  calls made so far, issued and accepted transactions, the accounts on both chains and a log. Its answers, delays and
  failures are arbitrary functions of the call number. Each method of the runner is proved to compute a function on
  such worlds, and the promises are lemmas about these functions. `Requests` says which operations a run asks for and
  on which chain it waits for each; `Serving` relates a run on a network that serves it to plain bookkeeping.
- **Network bring-up** (`Text`, `StartCommand`, `BringUp`). Any number of genesis stakers, arbitrary user
  configurations, and the command line each node is started with.
- **The peer checker** (`Sets`, `PeerCheck`, `PeerGraph`, `ConnectedRun`, `DuplicateRun`). What the per-node count and
  membership test says about the whole peer graph, and the two tests built on it, which add, stake and remove nodes
  through the parts above.

Go maps are iterated in an arbitrary order: the methods pick any remaining key.

Where the code and its own documentation part ways, the model follows the code.

- The bombard executor drops the error from awaiting its transactions (bombard_executor.go:182-186), so it passes just
  as well where all of them are rejected: `BombardVerdict.PassesUnconfirmed`. `BombardVerdict.ConfirmsIff` says when a
  passing test has confirmed what it issued.
- A P-to-X transfer overwrites the error of its import call (rpc_workflow_runner.go:334-340). If the node then calls
  the empty ID accepted, it reports success with the money still in flight; if the node never does, success means what
  it says. `Runner.CrossingPToX`, `Runner.LostImport` and `Runner.EmptyNeverAccepted` state both sides. The workflow
  test cannot pass in this way, because it checks the balances afterwards.
- `SendAVAXBackAndForth` makes one send fewer than its comment says.
- The loader's constructor does not look at which configuration a desired service names. If one names a boot
  configuration, bring-up fails on the dependency guard; `BringUp.InitializeNetwork` gives the exact condition.
- The check on boot nodes with duplicate IDs present means to show that the original nodes stay connected. It allows
  as many of them to be missing as duplicate IDs are listed.
- The guard of the transaction builder compares a product that may itself have wrapped; then some transaction in the
  chain pays out more than it takes in. `BombardVerdict.GuardPassesWrapped` is such an input.

The node behind the harness is not part of the repository. The model assumes of it: an X-chain ledger accepts a
transaction exactly when its input exists, belongs to the signer, holds the stated amount and covers output and fee;
transfers, exports and stakes of zero or beyond the balance are refused when issued; an import collects all that is in
flight to the address and is refused if that does not exceed the fee; effects take place when a transaction is first
reported accepted. The service network refuses unknown configurations, taken IDs and unknown dependencies and
otherwise asks for the start command; it removes a service that it knows if the container stops in time.

## Model

| member | source | states |
|---|---|---|
| TxChain.CreateConsecutiveTransactions | testsuite/tests/bombard/tx_helper.go:104-132 | Refuses exactly when the wrapped product of count and fee exceeds the amount; otherwise the arrays it fills hold the chain in closed form: transaction i spends the output of the one before and carries the wrapped values amount - i*fee and amount - (i+1)*fee, with matching IDs |
| TxChain.GuardIsMoneySafeIff | testsuite/tests/bombard/tx_helper.go:105-129 | For all uint64 inputs that pass the guard: every transaction burns exactly the fee over the integers if and only if the true product is below 2^64; otherwise one pays out more than it takes in |
| TxChain.ChainIdsDistinct | testsuite/tests/bombard/tx_helper.go:119-128 | All transaction IDs of a chain are pairwise distinct, wrapped or not |
| TxChain.HeadsMeet | testsuite/tests/bombard/tx_helper.go:119-126 | Two chains share an output only if one of them starts on the other; with the depth of an ID this gives injectivity and acyclicity |
| UtxoLedger.ChainRuns | testsuite/tests/bombard/tx_helper.go:113-131 | When the output holds the amount and the product does not wrap, every prefix of the chain is accepted, transaction i consumes amount - i*fee, and the ledger ends with the last output holding amount - n*fee and n fees burned |
| UtxoLedger.ChainAcceptedIff | testsuite/tests/bombard/tx_helper.go:105-131 | A chain that the guard let through is accepted in full exactly when the true product does not wrap |
| UtxoLedger.OrderUnique | testsuite/tests/bombard/tx_helper.go:119-128 | Among all rearrangements of a money-safe chain exactly the returned order is accepted in full |
| UtxoLedger.OrderForced | testsuite/helpers/rpc_workflow_runner.go:347-360 | Any rearrangement of the rest of a chain that a ledger accepts is the rest itself, wrapped amounts included |
| UtxoLedger.RunConserves | testsuite/helpers/rpc_workflow_runner.go:347-360 | Over every accepted list from a ledger none of whose outputs descends from another, coins plus burned fees stay constant and no output descends from another again |
| UtxoLedger.ApplySound | testsuite/tests/bombard/tx_helper.go:61-100 | On such a ledger the output that an accepted transaction makes is new |
| Bombard.IssueTxList | testsuite/helpers/rpc_workflow_runner.go:347-360 | Succeeds exactly when the ledger accepts the whole list in order; on failure the ledger stands right before the first refused transaction |
| Confluence.StepKeepsAt | testsuite/tests/bombard/bombard_executor.go:164-178 | Whatever the others have issued, a client's next transaction is accepted, burns one fee and leaves every other coin alone |
| Confluence.Confluent | testsuite/tests/bombard/bombard_executor.go:130-178 | Every interleaving that keeps each client's order is accepted in full, all of them end in the same ledger, each starting output is replaced by its chain's last one, and one fee per transaction is burned |
| Confluence.AtUnique | testsuite/tests/bombard/bombard_executor.go:130-178 | The progress of the clients alone determines the coins |
| Confluence.FlattenIsInterleaving | testsuite/tests/bombard/bombard_executor.go:174-178 | The order in which the code issues the lists, one after the other, is one such interleaving |
| Bombard.ExecuteTest | testsuite/tests/bombard/bombard_executor.go:94-190 | Passes exactly when funding, the balance check of every client, listing and key export succeed, every client has an output, the guard lets the seed through and the chains are accepted one after the other; the lists are then awaited in turn without any effect on the verdict. After a refusal the ledger has everything before the refused transaction |
| Preparation.GatheredIff | testsuite/tests/bombard/bombard_executor.go:105-127 | Checking and listing succeeds exactly when every client holds exactly the seed on the X-chain and both calls for each are answered; it changes nothing |
| Preparation.PreparedIff | testsuite/tests/bombard/bombard_executor.go:94-139 | For different addresses, the preparation succeeds exactly when the network serves the funding, the genesis user can pay all amounts and fees, no client held anything before, and the three later calls for each are answered |
| Bombard.IssueAll | testsuite/tests/bombard/bombard_executor.go:164-178 | Succeeds exactly when the ledger accepts all lists in order; on a refusal in list i the ledger has all lists before it and list i up to the refused transaction |
| Bombard.GatherOutputs | testsuite/tests/bombard/bombard_executor.go:105-127 | A client blamed for its balance holds something else than the seed, or its query failed |
| BombardVerdict.PassesIff | testsuite/tests/bombard/bombard_executor.go:94-190 | With at least one client, different addresses and outputs that hold the seed, the test passes exactly when the true (numTxs+1)*txFee is positive and below 2^64, the genesis user can pay it to every client with fees, nobody held anything before, and the network serves the funding and answers the three calls for each client |
| BombardVerdict.GuardPassesWrapped | testsuite/tests/bombard/tx_helper.go:105-129 | With two transactions and a fee of 2^63 the executor's seed has wrapped, the guard lets it through and a transaction creates money |
| BombardVerdict.IdsDistinct | testsuite/tests/bombard/bombard_executor.go:130-162 | No two transactions share an ID, within a client or across clients |
| BombardVerdict.ConfirmsIff | testsuite/tests/bombard/bombard_executor.go:182-190 | A passing test has seen all its transactions accepted if and only if each wait, begun where the one before it ended, gets accepted as its first decisive answer inside its window |
| BombardVerdict.PassesUnconfirmed | testsuite/tests/bombard/bombard_executor.go:182-190 | Every passing test passes just as well on the network that reports all its transactions rejected, and there none is confirmed |
| BombardVerdict.OnePassesUnconfirmed | testsuite/tests/bombard/bombard_executor.go:182-190 | A concrete test with one issued transaction that passes with nothing confirmed |
| Confirmation.EachConfirms | testsuite/tests/bombard/bombard_executor.go:182-186 | Over awaited lists of distinct IDs, everything is seen accepted exactly when no list ended in the dropped error |
| Confirmation.EachIsAsked | testsuite/tests/bombard/bombard_executor.go:182-186 | A list that fails does not keep the later ones from being awaited: the first transaction of each is asked about |
| Bombard.SeedSufficientIff | testsuite/tests/bombard/bombard_executor.go:94-107 | The guard lets the seed through and all transactions burn exactly the fee if and only if the true (numTxs+1)*txFee is below 2^64, for all uint64 inputs |
| Bombard.SeedKeepsAFee | testsuite/tests/bombard/bombard_executor.go:94-107 | With such a seed every amount in the chain is (numTxs+1-i)*txFee and at least one fee, nothing wraps, even the last unused subtraction, and exactly one fee is left |
| Bombard.EveryScheduleAgrees | testsuite/tests/bombard/bombard_executor.go:130-190 | From funded outputs, any schedule of the clients ends as the code's own does, with clients*numTxs*txFee burned and txFee left per address |
| Polling.Network.WaitForXchainTransactionAcceptance | testsuite/helpers/rpc_workflow_runner.go:362-384 | Succeeds exactly when some poll inside the window answers accepted and all before it processing or unknown; computes the generic wait |
| Polling.Network.WaitForPChainTransactionAcceptance | testsuite/helpers/rpc_workflow_runner.go:408-432 | Succeeds exactly when some poll inside the window answers committed and all before it processing or unknown; computes the generic wait |
| Polling.XWaitIff | testsuite/helpers/rpc_workflow_runner.go:368-381 | The X-chain wait in terms of the answers themselves: accepted ends it in success, processing and unknown continue it |
| Polling.PWaitIff | testsuite/helpers/rpc_workflow_runner.go:414-429 | The P-chain wait likewise with committed |
| Polling.FailureEnds | testsuite/helpers/rpc_workflow_runner.go:368-432 | A rejected, dropped, aborted or failed answer inside the window ends the wait at that poll, in failure and with the accounts as they were |
| Polling.Network.AwaitXChainTxs | testsuite/helpers/rpc_workflow_runner.go:386-395 | Awaits in order and stops at the first failure |
| Polling.Network.AwaitPChainTxs | testsuite/helpers/rpc_workflow_runner.go:397-406 | Awaits in order and stops at the first failure |
| Polling.WaitIff | testsuite/helpers/rpc_workflow_runner.go:364-384 | For every trace of answers and every clock, a wait succeeds exactly when the first decisive answer inside its window is a success |
| Polling.PollBound | testsuite/helpers/rpc_workflow_runner.go:367-381 | A wait polls at most ceil(timeout / 1s) times |
| Polling.AwaitIff | testsuite/helpers/rpc_workflow_runner.go:386-406 | Awaiting a list succeeds exactly when each wait, begun where the last one ended, does |
| Polling.AwaitTime | testsuite/helpers/rpc_workflow_runner.go:386-406 | Awaiting n transactions takes at most n times timeout plus one query plus one sleep, if queries and sleeps are bounded |
| Runner.RPCWorkFlowRunner.FundXChainAddresses | testsuite/helpers/rpc_workflow_runner.go:190-213 | The send-then-wait loop computes the funding function |
| Runner.FundEffect | testsuite/helpers/rpc_workflow_runner.go:190-213 | On failure at address k exactly the sends before k have been accepted and at most the k-th is in doubt; on success all have |
| Runner.RPCWorkFlowRunner.TransferAvaXChainToPChain | testsuite/helpers/rpc_workflow_runner.go:273-310 | Export, wait, import, wait, each failure ending the transfer |
| Runner.RPCWorkFlowRunner.TransferAvaPChainToXChain | testsuite/helpers/rpc_workflow_runner.go:312-345 | Export, wait, import, wait, with the import's own error overwritten |
| Runner.CrossingPToX | testsuite/helpers/rpc_workflow_runner.go:312-345 | A P-to-X transfer that reports success has credited the X-chain if and only if its import call was accepted; otherwise the amount is still in flight |
| Runner.LostImport | testsuite/helpers/rpc_workflow_runner.go:334-344 | A run in which the import call fails, the wait on the empty ID succeeds, success is reported and the money never arrives |
| Runner.EmptyNeverAccepted | testsuite/helpers/rpc_workflow_runner.go:334-344 | On a network that never calls the empty ID accepted, a reported success means that the import was accepted |
| Runner.RPCWorkFlowRunner.AddValidatorToPrimaryNetwork | testsuite/helpers/rpc_workflow_runner.go:153-188 | Adds the node as a validator for 72 hours from 20 seconds ahead, in whole seconds, at fee rate 2, waits and sleeps until the start of staking plus three seconds |
| Runner.RPCWorkFlowRunner.AddDelegatorToPrimaryNetwork | testsuite/helpers/rpc_workflow_runner.go:119-151 | Delegates to the node for 36 hours from 20 seconds ahead, waits and sleeps until the start of delegation plus three seconds |
| Runner.RPCWorkFlowRunner.ImportGenesisFundsAndStartValidating | testsuite/helpers/rpc_workflow_runner.go:90-117 | Moves the seed to the P-chain and stakes part of it, each failure ending the call |
| Runner.StakeBlocksUntilStarted | testsuite/helpers/rpc_workflow_runner.go:119-188 | The requested term is on the given node, starts less than a second before the 20 seconds of delay are over, lasts 72 or 36 hours and, for a validator, is at fee rate 2; success is reported only after that start and three more seconds |
| Requests.FundAsks | testsuite/helpers/rpc_workflow_runner.go:190-213 | Funding asks for one send of the amount to each address in turn, up to the one that fails, and for nothing else |
| Requests.XToPAsks | testsuite/helpers/rpc_workflow_runner.go:273-310 | A transfer to the P-chain asks for the export of the amount and, once that is through, the import |
| Requests.PToXAsks | testsuite/helpers/rpc_workflow_runner.go:312-345 | A transfer back asks for the export and, once that is through, the import |
| Requests.StakeAsks | testsuite/helpers/rpc_workflow_runner.go:119-188 | Staking asks for exactly one operation with the given node, amount and term |
| Requests.StartValidatingAsks | testsuite/helpers/rpc_workflow_runner.go:90-117 | Seeding and staking asks for export and import of the seed and for the stake on the node, in this order |
| StartValidation.StartValidatingIff | testsuite/helpers/rpc_workflow_runner.go:90-117 | From a quiet beginning it succeeds exactly when the network serves its operations and the wallet can pay; then one validator is added, the stake is staked, the rest is on the P-chain and no other account has changed |
| Runner.RPCWorkFlowRunner.SendAVAXBackAndForth | testsuite/helpers/rpc_workflow_runner.go:247-271 | The loop that reports errors and goes on |
| Runner.BackAmounts | testsuite/helpers/rpc_workflow_runner.go:251-257 | As long as i fees fit the amount, the i-th send carries what is left after them |
| Runner.BackAmountsWrap | testsuite/helpers/rpc_workflow_runner.go:251-257 | Beyond that the amount wraps: the i-th amount plus i fees is the starting amount modulo 2^64 |
| Runner.BackAndForth | testsuite/helpers/rpc_workflow_runner.go:247-271 | Whatever fails, exactly numTxs - 1 sends are asked for when numTxs is at least one, those with the amounts above and in order; the comment's numTxs is met exactly for zero; money is conserved |
| Requests.BackAsks | testsuite/helpers/rpc_workflow_runner.go:251-261 | The k-th send goes to the given address and carries the amount less k fees while they fit |
| Requests.BackErrors | testsuite/helpers/rpc_workflow_runner.go:262-270 | The channel gets one error for each refused send and one for each wait that does not end in an acceptance, then a single nil |
| TwoChain.ApplyConserves | testsuite/helpers/rpc_workflow_runner.go:121-345 | No operation changes the sum of X balances, P balances, in-flight funds, stake and burned fees |
| Runner.ImportAfterAcceptedExport | testsuite/helpers/rpc_workflow_runner.go:275-345 | In a disciplined log every import comes after an export to the same address and after that export was observed accepted |
| Runner.AtMostOneOutstanding | testsuite/helpers/rpc_workflow_runner.go:190-213 | In a disciplined log at most one transaction is unaccepted at any time |
| Runner.RunSafe | testsuite/helpers/rpc_workflow_runner.go:121-462 | For every sequence of fund, transfer, stake, delegate and check steps on every network, completed or cut short, the workflow script among them: the total is conserved, the log is disciplined and at most one transaction is in doubt |
| Requests.RunOwn | testsuite/helpers/rpc_workflow_runner.go:121-345 | Over every script on every network each issued transaction is only asked about on its own chain |
| Requests.RunAsks | testsuite/helpers/rpc_workflow_runner.go:121-345 | A script that succeeds has asked for the operations of its steps, in their order, and for nothing else |
| Serving.ServedRun | testsuite/helpers/rpc_workflow_runner.go:121-462 | On a network that serves the calls a script makes, in the worlds it makes them in, the run succeeds exactly when plain bookkeeping does and leaves exactly those books |
| Serving.DelayedServes | testsuite/helpers/rpc_workflow_runner.go:362-432 | Networks that accept transaction n for good from call d*n on, with a timeout of d+1 seconds, serve every script, for every d |
| Runner.RPCWorkFlowRunner.VerifyXChainAVABalance | testsuite/helpers/rpc_workflow_runner.go:449-462 | Succeeds exactly when the query does and the X-chain balance is the expected one |
| Runner.RPCWorkFlowRunner.VerifyPChainBalance | testsuite/helpers/rpc_workflow_runner.go:434-447 | Succeeds exactly when the query does and the P-chain balance is the expected one |
| Workflow.Executor.ExecuteTest | testsuite/tests/workflow/executor.go:98-206 | The script computes its four parts in order, stopping at the first failed operation or check |
| Workflow.WorkflowVerdict | testsuite/tests/workflow/executor.go:98-206 | On any network and from any accounts the test passes exactly when the network serves the calls it makes, there are no fees, the genesis user can pay twice the seed, both users start with nothing, there are five validators and no delegators, and stake and delegation are equal, positive and below the seed |
| Workflow.PassesDespiteDelay | testsuite/tests/workflow/executor.go:98-206 | On a network that accepts transaction n from call d*n on, for any d, the test passes exactly when those amounts and counts are right |
| Workflow.FundBooks | testsuite/tests/workflow/executor.go:98-108 | Whatever the users owned, the funding part balances exactly when the genesis user can pay and both had nothing on the X-chain |
| Workflow.CrossBooks | testsuite/tests/workflow/executor.go:111-120 | Crossing balances exactly when the user holds the seed and the fee on the X-chain and just the other fee on or on the way to the P-chain |
| Workflow.BackBooks | testsuite/tests/workflow/executor.go:182-191 | Bringing money back balances exactly when it is, with the fee, all there is on the P-chain and the X-chain then shows what is expected |
| Workflow.ReturnBooks | testsuite/tests/workflow/executor.go:181-204 | The return transfers balance exactly when stake equals delegation and is below the seed, because the delegator sends back the staker's expected balance, and nothing else was on its way |
| Workflow.WorkflowAsks | testsuite/tests/workflow/executor.go:98-206 | A passing test has asked for its twelve operations in order, both stakes on the staker's node, and for nothing else |
| Workflow.BackServed | testsuite/tests/workflow/executor.go:181-203 | A return transfer that passes its two balance checks was really imported, although the import's error is overwritten |
| StartCommand.GetStartCommand | camino/services/camino_service_initializer_core.go:157-226 | Fails exactly on more dependencies than bootstrap IDs or else, when staking, on a missing certificate or key file, the certificate first; otherwise prints the binary and then only words that start with two hyphens: the flags, and the extra arguments in some order of the map |
| StartCommand.FixedWords | camino/services/camino_service_initializer_core.go:168-182 | The first eleven flags, character by character |
| StartCommand.StakingWordsAt | camino/services/camino_service_initializer_core.go:184-201 | When staking, the certificate and key files and the joined bootstrap IDs follow, character by character |
| StartCommand.SocketsWord | camino/services/camino_service_initializer_core.go:203-216 | With dependencies, their joined sockets follow |
| StartCommand.ExtraWord | camino/services/camino_service_initializer_core.go:218-222 | Last come the extra arguments, each as --key=value |
| StartCommand.RoundTripIff | camino/services/camino_service_initializer_core.go:157-226 | For every order of the extra arguments, reading the flags back recovers the whole configuration exactly when no bootstrap ID or address contains a comma, the ID list is not the one empty string, and no extra key contains = or is a built-in name |
| StartCommand.DecodedExtrasClean | camino/services/camino_service_initializer_core.go:217-224 | Whatever the command line, the extra arguments read from it contain no = and no built-in name |
| Text.AtoiItoa | camino/services/camino_service_initializer_core.go:173-181 | Printed decimal numbers, negative ones included, read back |
| Text.ListRoundTripIff | camino/services/camino_service_initializer_core.go:200-215 | A comma-joined list reads back exactly when no element has a comma and it is not the one empty string |
| Text.WordRoundTrip | camino/services/camino_service_initializer_core.go:220-222 | A --name=value word, read by a reader that refuses words without the two hyphens, splits at the first = |
| Text.SocketRoundTrip | camino/services/camino_service_initializer_core.go:210-213 | A printed socket reads back, whatever the address contains |
| BringUp.NewLoader | camino/networks/camino_network.go:207-252 | Refuses exactly the loaders with a configuration ID that starts with boot-node-config- or a service ID that starts with boot-node-, and otherwise keeps both maps |
| BringUp.TestLoadersLegal | camino/networks/camino_network.go:217-240 | The configuration and service IDs of the harness's own tests are accepted |
| BringUp.ConfigureNetwork | camino/networks/camino_network.go:254-312 | For any number of stakers no two configurations collide; boot configuration i carries the i earlier node IDs and user configurations carry them all |
| BringUp.InitializeNetwork | camino/networks/camino_network.go:318-346 | Succeeds exactly when every desired service names a user configuration; every boot node depends on exactly the earlier ones, every user node on all of them, and there are N plus desired checkers |
| BringUp.BootStepSafe | camino/networks/camino_network.go:321-335 | Boot node i has i dependencies and i bootstrap IDs and its start cannot fail |
| BringUp.BootConfigDesired | camino/networks/camino_network.go:229-239 | A loader the constructor accepts whose desired service names a boot configuration: the dependency guard fires |
| BringUp.LaterAddVerdict | camino/networks/camino_network.go:82-88 | A later fresh service can be added exactly on a user configuration; on any boot configuration the guard always fires |
| BringUp.AddServiceLater | camino/networks/camino_network.go:82-88 | Adds with all boot services as dependencies |
| BringUp.GetAllBootServiceIDs | camino/networks/camino_network.go:66-74 | Returns exactly the boot services that bring-up starts |
| BringUp.BootIdsAre | camino/networks/camino_network.go:66-74 | The N boot service IDs are pairwise distinct |
| BringUp.DesiredApart | camino/networks/camino_network.go:317-345 | Desired services never collide with boot services |
| BringUp.BootNodeCommand | camino/networks/camino_network.go:262-335 | In a running network the command line of boot node i reads back as its own address and files, the loader's settings, the node IDs of exactly the i earlier boot nodes when staking, and their sockets in some order |
| BringUp.UserNodeCommand | camino/networks/camino_network.go:290-345 | In a running network the command line of a desired node reads back as its own address, files and configuration with the IDs and sockets of all boot nodes exactly when no extra key contains = or is a built-in name |
| BringUp.ServiceNetwork.RemoveService | camino/networks/camino_network.go:90-98 | Removes exactly the given service, or fails if it is unknown or does not stop |
| PeerCheck.VerifyExpectedPeers | testsuite/verifier/network_state_verifier.go:85-125 | Succeeds exactly when the query does, the count condition holds and every peer is acceptable |
| PeerCheck.VerifyNetworkFullyConnected | testsuite/verifier/network_state_verifier.go:44-76 | In every iteration order of both loops, succeeds exactly when each node passes the exact check against its acceptable IDs |
| PeerCheck.CheckIff | testsuite/verifier/network_state_verifier.go:44-125 | With injective node IDs and duplicate-free lists the check passes if and only if exactly the pairs with a staker are connected and every listed peer is another known node |
| PeerCheck.CheckShape | testsuite/verifier/network_state_verifier.go:44-125 | The same with unanswered queries taken in: the check passes if and only if all answer and the graph is as intended |
| PeerCheck.AcceptedCompleteIffNoDup | testsuite/verifier/network_state_verifier.go:96-123 | Without that assumption: an accepted list is complete exactly when it has no duplicates |
| PeerGraph.GraphShape | testsuite/verifier/network_state_verifier.go:51-74 | After a passing check the graph is symmetric, stakers form a clique, and two nodes are at distance at most two once there is a staker |
| PeerGraph.EdgeCount | testsuite/verifier/network_state_verifier.go:51-74 | The lists name n(n-1) - m(m-1) peers for n nodes and m non-stakers |
| PeerGraph.PromotionDelta | testsuite/tests/connected/fully_connected.go:63-94 | Between the two checks exactly the two-way edges between the promoted node and the other non-stakers appear |
| PeerGraph.UnchangedPassesIff | testsuite/tests/connected/fully_connected.go:63-94 | An unchanged graph passes the second check exactly when the promoted node was the only non-staker |
| PeerCheck.GetNodeIds | testsuite/tests/connected/fully_connected.go:143-164 | In every iteration order, succeeds exactly when all services run and answer, and returns their node IDs |
| ConnectedRun.RunFullyConnected | testsuite/tests/connected/fully_connected.go:50-96 | Passes exactly when all node IDs are known, both checks pass and the validator's seed transfer and staking in between succeed |
| ConnectedRun.PassesIff | testsuite/tests/connected/fully_connected.go:50-96 | With unique IDs and duplicate-free lists the test passes exactly when all nodes run, the graph over all of them is the one for the boot nodes as stakers, the wallet can pay for a seed of 50000000000000 and a stake of 30000000000000 and the network serves them, and afterwards the graph over all nodes is the one with the validator as a staker too |
| ConnectedRun.RunSeesPromotion | testsuite/tests/connected/fully_connected.go:50-96 | In a passing run with unique node IDs the validator and the non-validator did not list each other before, and afterwards each lists the other unless it lists someone twice |
| ConnectedRun.RunStakes | testsuite/tests/connected/fully_connected.go:70-78 | A passing run has staked the amount, added exactly one validator and conserved money |
| ConnectedRun.RunAsksToStake | testsuite/tests/connected/fully_connected.go:70-78 | It has asked for just the export and import of the seed and the stake on the validator's node |
| DuplicateRun.VerifyOriginals | testsuite/tests/duplicate/duplicate_node_id.go:128-153 | In every iteration order, succeeds exactly when each original node passes its check |
| DuplicateRun.BootNodeStrength | testsuite/tests/duplicate/duplicate_node_id.go:139-146 | A boot node passes exactly when it lists no stranger and misses at most as many originals as it lists duplicate IDs |
| DuplicateRun.BoundTight | testsuite/tests/duplicate/duplicate_node_id.go:139-146 | Any set of originals no larger than the set of fresh duplicate IDs can be missing |
| DuplicateRun.PassesWithoutVanilla | testsuite/tests/duplicate/duplicate_node_id.go:125-153 | A boot node that passes without seeing the vanilla node |
| DuplicateRun.VanillaExact | testsuite/tests/duplicate/duplicate_node_id.go:147-152 | The vanilla node passes exactly when its peers are the boot nodes |
| DuplicateRun.DuplicateTest.Run | testsuite/tests/duplicate/duplicate_node_id.go:44-173 | Passes exactly when the node IDs are known, the four checks pass, both nodes can be added and come up, and the first stops when removed; tables and network have then gained the second bad node and nothing else |
| DuplicateRun.PassesIff | testsuite/tests/duplicate/duplicate_node_id.go:44-173 | With unique IDs and duplicate-free lists the test passes exactly when the originals run and are fully connected, the first bad node joins and all are fully connected, the second joins and the originals hold as far as the weakened check can tell, the first one stops, and all are fully connected with the second alone |
| DuplicateRun.BothCanBeAdded | testsuite/tests/duplicate/duplicate_node_id.go:176-211 | On a network brought up from a loader like this test's, neither addition is refused |

## Left out

- Cryptography, certificates, codecs and signing: foreign calls; a signature always counts as that of the sole owner, and signing never fails.
- HTTP and JSON-RPC clients, Docker scripts, logging, command-line parsing of the suite itself and the availability checker: I/O.
- Kurtosis and caminogo internals beyond the assumptions above, such as minimum stakes, refusal of zero-valued outputs, and calls whose transaction is issued although the call fails.
- Keystore calls and `ImportGenesisFunds`: users and their addresses are parameters.
- The link between the two ledgers of the bombard test: funding and balance checks work on accounts, issuing on unspent outputs. That the listed outputs hold the seed is a hypothesis of the lemmas that need it.
- Bombard.ExecuteTest: does not model an issuing call that fails for reasons other than a refusal, nor an exported key without its prefix.
- The wait for a starting container, and the delays and timeouts of the test wrappers: inputs and constants.
- `NewCaminoServiceInitializerCore`: its defensive copy guards against aliasing, which values do not have.
- The conflicting-vertex executor and the chit spammer: fixed vectors against a Byzantine node that is not in the repository.
- The size of the transaction arrays: the model allocates any uint64 count, where Go would run out of memory.
- Runner.RunSafe: does not cover `SendAVAXBackAndForth`, which goes on after a failed wait and so may have several transactions in doubt; that it conserves money is `Runner.BackAndForth`.
- Workflow.WorkflowVerdict: assumes users at distinct addresses, as the script creates them, and a network on which nothing is in doubt when the test begins.
- BombardVerdict.PassesIff: assumes different addresses and a quiet beginning likewise.
- ConnectedRun.PassesIff: assumes unique node IDs, which rest on certificates, and replies that list nobody twice; so does DuplicateRun.PassesIff.
