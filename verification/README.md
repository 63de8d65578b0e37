# SOQ-TEC bridge and BTCSOQ gateway: a Dafny model

A model of the parts of the repository that move money or decide what is authentic, with proofs of what they promise. `dafny verify dfyconfig.toml` checks all of it. Hashes are parameters: everything holds for every function in the place of SHA-256, HASH160 or Keccak-256, and security statements return the collision or preimage they speak of.

## The pieces

**The BTCSOQ money loop.** A Bitcoin deposit is detected, its outpoint claimed on disk, a receipt minted through a signer whose reply can be lost, a lost reply recovered by scanning the chain for a tag, the returned receipt bound to a payout address, and bitcoin paid out. `Store` and `Gateway` are the gateway's own objects, with one method for each stretch of code between two awaits; `Scan` is the chain scanner, run against a chain that moves on between its calls. `MoneyLoop` puts them into a transition system with the disk, the signer, the chain and the release wallet: 31 kinds of step, interleaved in any order, crashes and failed writes included. `StoreOrder`, `MintSafety`, `MintEvidence`, `ReleaseSafety` and `Conservation` prove invariants of its runs; `Runs` builds runs, `SecondPayment` continues any run in which the release leg's guards are broken to a second payment, and `MintLimits` and `ReleaseLimits` give concrete runs from the first start on. `Provenance` traces what the books say back to the steps that brought it about. `Payout` is the choice of the redeem intent, `ReturnScan` ties the scan's reports to the returns that the loop looks at, `Router` and `MintRouting` the event router in front of the mint, `Receipt` the tag codec, `LedgerRoot` the anchored Merkle root.

**Winternitz signatures and their tapscript.** `BaseDigits`, `HashChains` and `Winternitz` are the one-time signature of the quantum-dark demo with its checksum argument and its reduction; `Tapscript` is the code generator and the stack machine it targets, with the limits and the ending rule of BIP 342.

**XMSS-Lite and the two Solana programs.** `Xmss` and `Merkle` are the offline client and the on-chain verifier and what makes them agree. `Solana`, `Bridge`, `Vault` and `Custody` are the token program, the two programs over shared accounts, the runtime that undoes a failed transaction, and what holds over every run; `Authority` says, in terms of the transactions alone, whose word each effect needs.

## What the runs assume

Of the outside world (`MoneyLoop.Assumed`), because the code relies on it:

- an abandoned signer request has been carried out or dropped before the next scan for its key begins (relayer/src/btcsoq/signer-client.ts:119-122; `MintLimits` has the run that shows why), and the same for an abandoned wallet request before the next release of its intent;
- the chain is not reorganised and nothing is evicted while the gateway runs; then `getrawtransaction` fails only for a transaction that has just been mined (relayer/src/btcsoq/soq-scan.ts:69 swallows every error of that call);
- an earlier payment of an intent is among the wallet's newest 1000 entries (relayer/src/btcsoq/gateway.ts:1315);
- the signer puts the one payload it was asked for into a transaction.

Nothing else is needed for at most one broadcast per outpoint and leg, for at most one payment per redeem intent, and for every payment being made against a return spend and to its committed address: these hold over all runs. At most one payment per mint record, and its amount and address on disk, need two guards that the code does not have:

- `ReleaseSafety.Timely`: finalizeMint is not applied to a record that is already claimed for release (relayer/src/btcsoq/gateway.ts:597-602 sets the status without looking at it);
- `ReleaseSafety.ClaimSaved`: the wallet is asked only for a release whose claim is on disk (relayer/src/btcsoq/gateway.ts:1115-1119 goes by the memory, also after a write has failed).

The guards are also necessary. From any reachable world in which the chain shows the return of the receipt, breaking the first on a paid record, or the second while the disk still has the receipt as minted, leads to a second payment (`SecondPayment`), and `ReleaseLimits` has a run from the first start on that breaks only the one and a run that breaks only the other. The record is paid under two intents, never one intent twice. The second return of the receipt is the rescan that the code makes because the scan cursor is saved only after all spends are handled (relayer/src/btcsoq/gateway.ts:1204-1216). Only the first attempt after a claim can break the first guard (`ReleaseSafety.PromptIsTimely`): the tick looks at the status before it begins one (relayer/src/btcsoq/gateway.ts:1108-1113), the call that has claimed the deposit does not (line 545). The way in is a transaction that the tick finds on the chain: its finalizeMint is not awaited (line 575), so the key is free again while the claiming call is still waiting for its writes. After a normal reply the order of writes keeps the key in flight until the first attempt has been refused; that order is outside the model.

## Where the code and its own text differ

The model follows the code.

- The truncated hash is called 224 bits, and a chain 28 bytes, in comments and console output (programs/xmss-vault/src/wots.rs:4-36, programs/xmss-vault/src/lib.rs:119, scripts/xmss-client.js:29); both languages use 20 bytes.
- The minimum transfer is one SOQ (programs/soqtec-bridge/src/lib.rs:342), not the hundred of its error text (line 572).
- ops/btcsoq/e2e-regtest-day2.sh:171 expects an underpaid deposit to fail its intent; the code holds the deposit and leaves the intent alone (relayer/src/btcsoq/gateway.ts:484-492).
- `compute_merkle_root` and `generate_merkle_proof` disagree on a single leaf (`Merkle.RustHelpersAgree`).
- The tag parser's magic check ignores top bits (`Receipt.MagicIgnoresTopBits`).
- programs/xmss-vault/src/wots.rs:79-80 says that a checksum keeps signatures from being extended; `compute_checksum` is never called, and `Xmss.CoveredIsAuthorized` with `Xmss.UncoveredBreaksHash` says exactly for which messages a signature is one.
- `resume` says that pending releases are queued for processing; nothing processes them (`Router.HaltedEventIsStranded`).

## Model

| member | source | states |
|---|---|---|
| `Scan.FindMintTx` | relayer/src/btcsoq/soq-scan.ts:58-86 | the scan, run against a chain that moves on between any two calls, reports a transaction only if it carries the script and is on the chain at the end, and reports none only if no transaction that was in the mempool, or in a block from the claim height minus two on, when it began carries it; it throws only out of a call that failed, so never while the node answers |
| `Scan.RecoveryMissesNothing` | relayer/src/btcsoq/gateway.ts:551-575 | the recovery scan is complete under concurrent mining: while the node answers, a transaction with the tag that was in the mempool, or mined above the claim height, when the scan began is found, even if it moves from mempool to block during the scan; a corollary of `Scan.FindMintTx` |
| `Scan.ScanRedemptions` | relayer/src/btcsoq/soq-scan.ts:92-121 | the reports are, in chain order and each once, those of the transactions in the blocks after the cursor up to the tip that pay the redemption address; each has the sum of the outputs that pay it, the tag of the first output that has one, and exactly the inputs that spend a known carrier, in input order |
| `Scan.RedemptionsExact` | relayer/src/btcsoq/soq-scan.ts:99-121 | a report is among them exactly if it is the one of a paying transaction in those blocks, told without the loops |
| `ReturnScan.ReturnsAreReported` | relayer/src/btcsoq/gateway.ts:1193-1213 | every return of a recorded mint in the scanned blocks is reported, with the receipt among the carriers spent and the tag of its first tagged output: none is held as unbacked |
| `ReturnScan.ReportedIsReturned` | relayer/src/btcsoq/gateway.ts:1193-1213 | every carrier in a report is output 0 of a recorded mint, which a transaction of that block returns |
| `ReturnScan.BindsWhatIsReported` | relayer/src/btcsoq/gateway.ts:1193-1262 | in every world of the money loop, a minted record may be bound for a transaction exactly if a scan that reaches its block reports it, with that receipt and a tag that an intent is chosen by |
| `Store.GatewayStore.ClaimMint` | relayer/src/btcsoq/store.ts:308-313 | a claim succeeds exactly if no record exists for the outpoint, queues the new state for writing, and otherwise changes nothing |
| `Store.GatewayStore.ClaimConvert` | relayer/src/btcsoq/store.ts:343-348 | the same for the conversion of an outpoint |
| `Store.GatewayStore.WriteNext` | relayer/src/btcsoq/store.ts:254-262 | queued snapshots reach the disk one at a time in order; after one write has failed none follows |
| `Store.GatewayStore.Reload` | relayer/src/btcsoq/store.ts:233-250 | a restart finds exactly the last snapshot that was renamed into place |
| `Store.GatewayStore.FindMintByCarrier` | relayer/src/btcsoq/store.ts:330-337 | a carrier outpoint is resolved to a record whose mint transaction it is output 0 of, and to none only if there is no such record |
| `Gateway.BtcsoqGateway.ClaimMintFor` | relayer/src/btcsoq/gateway.ts:462-531 | a deposit is claimed exactly if it is confirmed, bound to a deposit intent, not below the minimum, unclaimed, and the node answers that the address is valid and how high the chain is; the record is made out to the intent's holder, with the deposit's sats, its own mint tag and that height; a deposit that is too small or badly addressed is held and noted; an unreachable node neither claims nor holds |
| `Gateway.BtcsoqGateway.MintForDepositKey` | relayer/src/btcsoq/gateway.ts:462-595 | one call of the mint pipeline, for every combination of answers: what is in the books is answered from them and changes nothing, what is newly claimed is scanned for, then sent; the answer is always the transaction that the books then have for the deposit, if they have one; the in-flight set is as before |
| `Gateway.BtcsoqGateway.ClaimConvertFor` | relayer/src/btcsoq/gateway.ts:648-678 | a conversion is claimed exactly if its receipt has been minted, it has none yet and no breaker defers it; the record has the receipt's sats and its own convert tag |
| `Gateway.BtcsoqGateway.BeginAttempt` | relayer/src/btcsoq/gateway.ts:553-565 | an attempt starts exactly if none is in flight for the same leg of the same outpoint and no breaker defers it, and then holds that key |
| `Gateway.BtcsoqGateway.AfterScan` | relayer/src/btcsoq/gateway.ts:568-590 | the signer is called exactly after an empty scan, with the attempt counted and queued for writing first; a found transaction finalizes the record unless its first output names someone else, and no other record changes |
| `Gateway.BtcsoqGateway.Attempt` | relayer/src/btcsoq/gateway.ts:553-595 | one attempt of either leg from end to end, for every combination of answers: it answers with a transaction exactly if the scan found one whose first output names nobody but the payee, or found none and the signer replied, and then, and only then, the record has it and a mint is minted; the key it holds is given back |
| `Gateway.BtcsoqGateway.OnReceiptReturned` | relayer/src/btcsoq/gateway.ts:1220-1275 | a returned receipt binds exactly a minted record, to the intent that the choice of the return spend's tag among the listed intents gives, and records the spend's id; replays and unfinished mints change nothing; what is bound is an open redeem intent of the receipt's holder |
| `Gateway.BtcsoqGateway.BeginRelease` | relayer/src/btcsoq/gateway.ts:1295-1310 | the wallet is asked for its history exactly if the record is bound to a known intent with a payout address and no breaker defers it |
| `Gateway.BtcsoqGateway.CheckHistory` | relayer/src/btcsoq/gateway.ts:1312-1331 | a payment in the wallet history under the intent's own comment is recorded as the release, the first such one, and the wallet is asked to pay exactly if there is none |
| `Gateway.BtcsoqGateway.OnDepositEvent` | relayer/src/btcsoq/gateway.ts:374-423 | behind the proof check, an event changes the books exactly if the deposit is new or its confidence is higher; a new deposit is as the event says, and sats, address and intent of a known one never change |
| `Gateway.BtcsoqGateway.CheckPorInvariant` | relayer/src/btcsoq/gateway.ts:1068-1083 | mints are halted exactly while a readable vault holds less than the receipts outstanding; an unreadable vault changes nothing |
| `StoreOrder.StepMoves` | relayer/src/btcsoq/store.ts:254-362 | every step of the gateway queues at most one snapshot, which keeps every claim, deposit and intent of the one before and has every mint record backed by a confirmed, intent-bound deposit of the same sats and made out to that intent's holder, and every conversion backed by a receipt that has been minted |
| `MintSafety.NextInv` | relayer/src/btcsoq/gateway.ts:462-595 | each of the 31 kinds of step, taken anywhere, keeps the invariant that ties signer calls to claims on disk, to the chain, and to the attempts in flight |
| `MintSafety.OneBroadcastPerJob` | relayer/src/btcsoq/gateway.ts:551-595 | over every interleaving of events, ticks, lost replies, mined blocks, failed writes and crashes, at most one signer call per deposit outpoint is ever broadcast, for the mint and for the tagged treasury send alike |
| `MintSafety.OneTaggedBroadcast` | relayer/src/btcsoq/gateway.ts:688-726 | of all transactions the gateway ever had broadcast, at most one carries the tag of a given leg of a given outpoint, and it was made for that leg |
| `MintSafety.ClaimIsOnDiskFirst` | relayer/src/btcsoq/gateway.ts:513-585 | write-ahead: whenever a signer call is in progress or answered, the disk holds its claim with the tag that was sent, and the transaction waits in the mempool or was mined above the claim height |
| `MintSafety.RecoveryFindsTheBroadcast` | relayer/src/btcsoq/gateway.ts:566-575 | no scan of an attempt comes back empty once a call of its key has been broadcast |
| `MintSafety.DiskIsAnEarlierMemory` | relayer/src/btcsoq/store.ts:254-262 | at every moment the disk equals the memory of some earlier moment of the run |
| `MintSafety.DiskMovesForward` | relayer/src/btcsoq/store.ts:233-262 | no claim, deposit or intent on disk is ever lost or changed in what it was made for, crashes included |
| `MintSafety.CallsStay` | relayer/src/btcsoq/gateway.ts:578-585 | calls and broadcasts of one moment are among those of every later one, so the theorems about a moment are about the whole run up to it |
| `MintLimits.MintedTwiceIfTheSignerLags` | relayer/src/btcsoq/signer-client.ts:115-123 | the assumption about the signer is needed: a run that keeps every other one, in which an abandoned request is carried out after the next scan has come back empty, and one deposit is minted by two transactions |
| `MintEvidence.MintedIsOnChain` | relayer/src/btcsoq/gateway.ts:566-610 | a receipt recorded as minted, redeeming or redeemed, in memory or on disk, is a transaction on the chain that carries the outpoint's tag |
| `MintEvidence.PaidAgainstReturn` | relayer/src/btcsoq/gateway.ts:1186-1245 | over every run, crashes, late answers and failed writes included, the wallet is only asked to pay when output 0 of a transaction with the record's tag has been spent in a block by a transaction that pays the redemption address; if that spend carries a payout commitment, the address paid has it |
| `Provenance.DepositsComeFromEvents` | relayer/src/btcsoq/gateway.ts:374-423 | over every run, the amount, address and intent of a deposit in the books are those of an event about it, and its confidence is that of one: none is confirmed without an event that says so |
| `Provenance.ConfirmedIsFromAnEvent` | relayer/src/btcsoq/gateway.ts:462-480 | over every run, a deposit that has been claimed was reported by an event that is not from the mempool |
| `Provenance.SentByScanOrSigner` | relayer/src/btcsoq/gateway.ts:566-610 | over every run, for mints and treasury sends alike: the transaction on record was found on the chain by a scan for the job's tag, with a first output that names nobody but the payee, or answered by the signer to a request to pay the payee; and it is on the chain under the tag |
| `Provenance.CallsFollowDeposits` | relayer/src/btcsoq/gateway.ts:578-585 | over every run, the signer is asked for a payment to the holder whom the deposit's intent names, under the tag of the deposit's own sats, or, once the receipt is minted, for one to the treasury |
| `Provenance.BoundByAReturn` | relayer/src/btcsoq/gateway.ts:1220-1275 | over every run, a record is bound only by a mined transaction that returns its receipt, whose id it notes, to the intent chosen for that transaction |
| `Provenance.ReleasedByTheWallet` | relayer/src/btcsoq/gateway.ts:1312-1355 | over every run, a release on record is a payment that the wallet has made under an intent's comment |
| `ReleaseSafety.NextPayInv` | relayer/src/btcsoq/gateway.ts:1295-1355 | each kind of step, taken anywhere, keeps one live payment per intent, every payment in the wallet, and none of the intent's open or unseen while its history is on its way |
| `ReleaseSafety.NextTimelyInv` | relayer/src/btcsoq/gateway.ts:1220-1355 | under the first guard each kind of step moves every record's status forward, in memory, on disk and in every snapshot between, keeps the intent of a claimed release, and leaves the release task with a redeeming record |
| `ReleaseSafety.PromptIsTimely` | relayer/src/btcsoq/gateway.ts:534-575 | the first guard is kept over every run in which no first attempt after a claim meets a record that is minted by then; the tick begins its own attempts only on records still being minted |
| `ReleaseSafety.PaidOncePerIntent` | relayer/src/btcsoq/gateway.ts:1295-1355 | over every run, bitcoin is paid at most once per redeem intent, across crashes between claim, wallet send and final record, late answers and failed writes |
| `ReleaseSafety.PaidOncePerRecord` | relayer/src/btcsoq/gateway.ts:1161-1183 | over every guarded run, at most once per mint record |
| `ReleaseSafety.PaidAsRecorded` | relayer/src/btcsoq/gateway.ts:1271-1331 | over every guarded run, every payment, even one only asked for, is of exactly the sats of a record the disk already holds as claimed for release, to the address of the intent bound to it, which was registered for the receipt's own holder; and the memory agrees |
| `ReleaseSafety.PaymentsPersist` | relayer/src/btcsoq/gateway.ts:1324-1331 | payments of one moment are among those of every later one |
| `ReleaseSafety.StatusMovesForward` | relayer/src/btcsoq/gateway.ts:1271-1275 | over every run that keeps the first guard, on disk a receipt's status never goes back and a claimed release keeps its intent, crashes and failed writes included |
| `SecondPayment.PaidAgain` | relayer/src/btcsoq/gateway.ts:1161-1262 | the converse: from every reachable world in which a paid record is minted again, in memory or on disk, and its return spend is in a block, a run goes on to a second payment of the record to the same address, newly registered |
| `SecondPayment.PaidMeansReturned` | relayer/src/btcsoq/gateway.ts:1186-1201 | and that return spend is there: the one the first payment was made against, unless another transaction on the chain carries a copy of the record's tag |
| `SecondPayment.UntimelyPaysTwice` | relayer/src/btcsoq/gateway.ts:597-602 | from every reachable world, a step that breaks the first guard on a paid record whose return spend is in a block leads to a second payment |
| `SecondPayment.UnsavedPaysTwice` | relayer/src/btcsoq/gateway.ts:1312-1331 | from every reachable world, a step that breaks the second guard while the disk has the receipt as minted, or as still being minted, with its return spend in a block, leads to two payments of it |
| `ReleaseLimits.PaidTwiceAfterStaleAttempt` | relayer/src/btcsoq/gateway.ts:534-602 | from the first start on, with the second guard kept throughout: the tick finds the mint and frees the key before the call that claimed the deposit goes on, whose own attempt then begins on the minted record, reopens it after its release, and the same return spend pays it again |
| `ReleaseLimits.PaidTwiceAfterFailedWrite` | relayer/src/btcsoq/gateway.ts:1115-1119 | from the first start on, with the first guard kept throughout, a failed write keeps the release claim off the disk, and after the crash that follows the same return spend pays the record again |
| `ReleaseLimits.LoopCompletes` | relayer/src/btcsoq/gateway.ts:1093-1158 | guarded runs exist that complete the loop: one broadcast, and one payment of the record's sats to the address that the return spend commits to |
| `Conservation.LedgerConserved` | relayer/src/btcsoq/gateway.ts:1509-1535 | at every moment, in memory and on disk, sats outstanding plus sats redeemed equal the sum over all claimed outpoints, which is at most the sum of confirmed, intent-bound deposits meeting the minimum |
| `Conservation.PaidIsCovered` | relayer/src/btcsoq/gateway.ts:1068-1083 | over every guarded run, bitcoin paid out is at most the sats of redeeming and redeemed records, on disk and in memory, and at most the eligible deposits |
| `Payout.PaidAddressIsCommitted` | relayer/src/btcsoq/gateway.ts:1233-1245 | when a return spend carries a payout commitment, the chosen registration is an open one of the holder, its address has that commitment, and none that has is newer; nothing is chosen exactly if there is none |
| `Payout.OtherRegistrationsDoNotMatter` | relayer/src/btcsoq/gateway.ts:1233-1245 | adding, removing or reordering registrations with other commitments never changes the choice |
| `Payout.AddedRegistrationDoesNotMatter` | relayer/src/btcsoq/gateway.ts:1233-1245 | a registration with another commitment, inserted anywhere, changes nothing |
| `Payout.SecureChoice` | relayer/src/btcsoq/store.ts:281-283 | filtering commutes with the stable newest-first sort, so the choice is the newest of the matching registrations |
| `Payout.LegacyChoiceDependsOnOthers` | relayer/src/btcsoq/gateway.ts:1246-1260 | without a commitment it is different: an older registration of another address takes the payout |
| `Payout.LegacyChoice` | relayer/src/btcsoq/gateway.ts:1246-1262 | without a commitment the choice is the oldest registration that awaits a receipt, when there is none the newest expired one, and when there is none of either nothing |
| `Payout.ChosenMayBind` | relayer/src/btcsoq/gateway.ts:1229-1273 | whatever is chosen among the listed intents of a store, by either rule, may be bound to the record, is as the store has it, and has the commitment if there is one |
| `Payout.NewestIsChosen` | relayer/src/btcsoq/gateway.ts:1229-1262 | a registration newer than all others and the only open one is chosen by either rule, if its address has the commitment the spend may carry |
| `Router.DUAEventRouter.OnBurnDetected` | relayer/src/cea/router.ts:163-299 | an event calls the release exactly in the cases of the specification, and leaves the dedup set and the records as it says |
| `Router.RouterKnows` | relayer/src/cea/router.ts:163-299 | over every run, the record of an id has its chain, the highest confidence of its events and the first transaction that a call returned |
| `Router.CalledIffCounts` | relayer/src/cea/router.ts:163-299 | over every interleaving of events of any ids with halts and resumes, on a strategy chain, the strategy is called for an id at least once exactly if some event raises its confidence to one that meets the policy while the router is not halted |
| `Router.CalledIffPolicyMet` | relayer/src/cea/router.ts:163-299 | hence, if it is never halted, exactly if some event for the id meets the policy |
| `Router.NeverCalledAfterRelease` | relayer/src/cea/router.ts:181-190 | after a call has returned a transaction the id is never called again, halted and resumed or not |
| `Router.WhenCalled` | relayer/src/cea/router.ts:364-376 | an event is called exactly if the router is not halted, it raises the id's confidence to one that meets the policy, and nothing has been released |
| `Router.HaltedEventIsStranded` | relayer/src/cea/router.ts:380-392 | an event that arrives finalized while halted is never called, and resuming does not change that |
| `MintRouting.GatewayIsIdempotent` | relayer/src/btcsoq/gateway.ts:200-207 | the mint pipeline is idempotent, whatever its calls are told and whatever steps the money loop takes between them: an answered transaction is in the books for good, and then a call changes nothing |
| `MintRouting.GateIsTheDeposits` | relayer/src/btcsoq/gateway.ts:374-451 | the gate in front of the mint is the deposit's own: it has the highest confidence of its events so far, and an event passes exactly if it raises that and is not from the mempool |
| `MintRouting.RouterRecordsTheMint` | relayer/src/cea/router.ts:181-190 | whenever an event makes the router call the mint, the release it then has on record is the transaction that the ledger has for the deposit |
| `MintRouting.SameLedgerAsDirect` | relayer/src/btcsoq/gateway.ts:442-451 | with any policy short of finality, routing the gateway's own mint call through the router gives the store of direct routing after every sequence of events, for all answers and all steps in between |
| `MintRouting.AgreesUnlessFinality` | relayer/src/index.ts:160-180 | the router leaves the mint ledger as direct routing does, always, exactly if its policy is not finality; with that, a confirmed deposit is minted directly and waits in the router |
| `Receipt.EncodeTag` | relayer/src/btcsoq/receipt.ts:60-75 | the payload byte for byte, or the first of the three argument errors, for all integers and strings |
| `Receipt.EncodeRedeemTag` | relayer/src/btcsoq/receipt.ts:77-81 | the extended tag parses back to the redeem tag with the commitment of the address, exactly when the arguments are in range |
| `Receipt.CommitBindsAddress` | relayer/src/btcsoq/receipt.ts:47-53 | two addresses have one commitment exactly if their digests begin with the same 20 bytes |
| `Receipt.DecodeUndoesEncode` | relayer/src/btcsoq/receipt.ts:60-104 | parsing undoes printing for all u64 sats, u32 vout and 32-byte txids, in both lengths |
| `Receipt.EncodeUndoesDecode` | relayer/src/btcsoq/receipt.ts:83-104 | printing undoes parsing on everything after the magic, and on the whole buffer exactly if its magic carries no top bits |
| `Receipt.MagicIgnoresTopBits` | relayer/src/btcsoq/receipt.ts:83-86 | four bytes other than the magic that the ascii comparison accepts, for every tag |
| `Receipt.PayloadIdentifiesTag` | relayer/src/btcsoq/receipt.ts:60-104 | two different tags never share a payload |
| `Receipt.ScriptRoundTrip` | relayer/src/btcsoq/receipt.ts:108-124 | through the script form the parser sees exactly the payload |
| `Receipt.ScriptIdentifiesTag` | relayer/src/btcsoq/receipt.ts:108-124 | two tags have one script exactly if they are one tag, so recovery cannot mistake one leg or deposit for another |
| `LedgerRoot.ComputeLedgerRoot` | relayer/src/btcsoq/gateway.ts:1382-1399 | the loop computes the fold of the sorted digests, and the count; no root for an empty ledger |
| `LedgerRoot.FoldIsTreeRoot` | relayer/src/btcsoq/gateway.ts:1388-1398 | on a full tree the fold is the recursive tree, left before right |
| `LedgerRoot.RootIgnoresInsertionOrder` | relayer/src/btcsoq/gateway.ts:1382-1386 | the leaves, hence the root, do not depend on the order of insertion |
| `LedgerRoot.IdOrderIsLexicographic` | relayer/src/btcsoq/gateway.ts:1382-1386 | the order of the ids is lexicographic: the first difference decides, and a proper prefix comes first |
| `LedgerRoot.FoldBinds` | relayer/src/btcsoq/gateway.ts:1388-1398 | equal roots of equally many leaves mean equal leaves, or a collision, which is returned |
| `LedgerRoot.RootAloneDoesNotBind` | relayer/src/btcsoq/gateway.ts:1392-1394 | the count is needed: repeating the last leaf of an odd level keeps the root |
| `LedgerRoot.AnchorCommitsToLedger` | relayer/src/btcsoq/gateway.ts:1417-1421 | two ledgers with one anchor payload have the same sorted digests, or a collision is returned |
| `Winternitz.ComputeDigits` | ops/btcsoq/quantum-dark/winternitz.py:66-82 | the mask-and-shift loops compute, most significant first, digits that spell the low part of the digest in base w, followed by digits that spell the checksum |
| `Winternitz.ChecksumFits` | ops/btcsoq/quantum-dark/winternitz.py:49-54 | the checksum always fits its l2 digits, for every width and message size |
| `Winternitz.ChecksumDigitsAgreeWithRfc8391` | ops/btcsoq/quantum-dark/winternitz.py:49-54 | l2 is len_2 = floor(log_w(len_1 (w - 1))) + 1 of section 3.1.1 of RFC 8391 |
| `Winternitz.DigitVectorsIncomparable` | ops/btcsoq/quantum-dark/winternitz.py:66-82 | two digests differ in their low l1 digits exactly if each digit vector is strictly below the other somewhere |
| `Winternitz.DigitsDetermineDigest` | ops/btcsoq/quantum-dark/winternitz.py:66-76 | digits that cover the digest determine it |
| `Winternitz.StartsAreOwn` | ops/btcsoq/quantum-dark/winternitz.py:57-61 | two chains of one key, or of the keys of two seeds, that start alike give a collision |
| `Winternitz.Verify` | ops/btcsoq/quantum-dark/winternitz.py:89-96 | verification accepts exactly if both lists are long enough and every chain lands on its key element, and raises exactly if a list ends before any chain misses |
| `Winternitz.SignaturesVerify` | ops/btcsoq/quantum-dark/winternitz.py:57-96 | from the seed on: key generation fails exactly when there are more chains than two-byte indices, and otherwise every message signed with its key is accepted under its public key |
| `Winternitz.ForgeryBreaksHash` | ops/btcsoq/quantum-dark/winternitz.py:85-96 | an accepted signature for a message with other digits yields a value that hashes forward, in at least one step, to a revealed element, or a collision |
| `Winternitz.TwoMessagesBreakHash` | ops/btcsoq/quantum-dark/winternitz.py:85-96 | with a digest no longer than the message size, any two different accepted messages do |
| `HashChains.MergingChainsCollide` | ops/btcsoq/quantum-dark/winternitz.py:34-38 | two chains of one length that start apart and end together contain a collision, which is returned |
| `HashChains.EarlierStartBreaks` | ops/btcsoq/quantum-dark/winternitz.py:85-96 | the reduction that Winternitz and XMSS share: two starts that reach one chain end, one of them from further back, are a value that hashes forward to the other, or a collision |
| `Tapscript.VerifierScript` | ops/btcsoq/quantum-dark/tapscript_wots.py:68-80 | the generator emits one block per chain, highest first, and the final opcode |
| `Tapscript.ScriptMeansVerification` | ops/btcsoq/quantum-dark/tapscript_wots.py:68-80 | the emitted script accepts a witness exactly if it has as many elements as chains, each within the element limit, and the reference verifier accepts them for the committed digits |
| `Tapscript.SpendIsAccepted` | ops/btcsoq/quantum-dark/tapscript_wots.py:110-132 | the witness that cmd_spend builds is accepted |
| `Tapscript.ForgedSpendBreaksHash` | ops/btcsoq/quantum-dark/tapscript_wots.py:125-132 | with the forge switch it is accepted only if the hash has a fixed point or a collision, which is returned |
| `Tapscript.DemoChains` | ops/btcsoq/quantum-dark/tapscript_wots.py:63-65 | an evaluation of the sizing that `Winternitz.ChecksumDigitsAgreeWithRfc8391` is about: the deployed parameters give eight message chains and two checksum chains |
| `Xmss.MsgToDigits` | programs/xmss-vault/src/wots.rs:64-78 | the nibbles of the first sixteen bytes, high first |
| `Xmss.DigitsSpellMessage` | programs/xmss-vault/src/wots.rs:64-78 | read in base 16 the digits are the first sixteen bytes of the message, so they determine them |
| `Xmss.WotsSign` | scripts/xmss-client.js:108-121 | each chain walked to its digit |
| `Xmss.WotsVerify` | programs/xmss-vault/src/wots.rs:98-117 | the hash of all chain ends, each walked on from its digit |
| `Xmss.GenerateWotsKeypair` | scripts/xmss-client.js:77-101 | private starts, public ends and their hash |
| `Xmss.GenerateXmssTree` | scripts/xmss-client.js:151-192 | the keys, the root of the tree over their hashes, and the path of every leaf |
| `Xmss.RootOfTwoLeaves` | scripts/xmss-client.js:198-235 | with two leaves the root is the hash of the left public key hash followed by the right one |
| `Xmss.ChainsAreOwn` | scripts/xmss-client.js:77-172 | no two chains of the generated keys, of one seed or of two, share a secret start or a public end, unless a hash collides, and the collision is returned |
| `Xmss.KeysAreOwn` | scripts/xmss-client.js:151-192 | every leaf has a one-time key of its own: two leaves with one secret key, or one public key hash, give a collision |
| `Xmss.ConstructWithdrawalMessage` | programs/xmss-vault/src/wots.rs:120-132 | the truncated hash of amount, recipient and leaf index in fixed-width fields |
| `Xmss.MessageBindsWithdrawal` | scripts/xmss-client.js:242-248 | one message is one amount, recipient and leaf index, or a collision of the truncated hash |
| `Xmss.CheckAuthorization` | programs/xmss-vault/src/lib.rs:111-144 | the unpacking, the signature and the proof checks of both instructions decide exactly whether the signature and proof authorise the leaf |
| `Xmss.ClientIsAccepted` | scripts/xmss-client.js:77-247 | for every seed, depth, leaf and message, what the client signs and proves, flattened and unpacked on chain, is accepted against the root it published |
| `Xmss.AcceptedCompletesOwnKey` | programs/xmss-vault/src/lib.rs:111-144 | whatever is accepted at a leaf completes every chain of that leaf's own key, or a collision is returned |
| `Xmss.CoveredIsAuthorized` | programs/xmss-vault/src/wots.rs:81-117 | without a checksum, an accepted signature authorises every message whose digits are at least as high everywhere: walked on, it is accepted for that message at the same leaf with the same proof, under every root |
| `Xmss.UncoveredBreaksHash` | programs/xmss-vault/src/wots.rs:81-117 | and no other: a signature accepted at the same leaf for any other message yields a value that hashes forward, in at least one step, to a revealed element, or a collision |
| `Merkle.SamePositionSameNode` | programs/xmss-vault/src/merkle.rs:24-58 | two nodes accepted at one position of one root with proofs of one length are one node, or a collision is returned |
| `Merkle.RootIsTreeRoot` | scripts/xmss-client.js:210-222 | hashing layer by layer is the recursive tree |
| `Merkle.PadLeaves` | scripts/xmss-client.js:202-206 | padding stops at the next power of two, by the mask test |
| `Merkle.PaddingIsLeast` | scripts/xmss-client.js:202-206 | nothing but zero nodes is added, and the number of nodes is the least power of two that will do |
| `Merkle.BuildMerkleTree` | scripts/xmss-client.js:198-235 | the root of the padded tree and one path per leaf; nothing for no leaves |
| `Merkle.VerifyMerkleProof` | programs/xmss-vault/src/merkle.rs:24-58 | accepts exactly if the proof leads from the leaf to the root |
| `Merkle.ComputeMerkleRoot` | programs/xmss-vault/src/merkle.rs:62-87 | the recursive root of the padded leaves |
| `Merkle.GenerateMerkleProof` | programs/xmss-vault/src/merkle.rs:90-126 | the path of the leaf in the padded tree, which for one leaf is padded to two |
| `Merkle.PathReachesRoot` | programs/xmss-vault/src/merkle.rs:24-58 | every path leads from its leaf to the root |
| `Merkle.AcceptedLeafIsOwn` | programs/xmss-vault/src/merkle.rs:24-58 | an accepted leaf at an index below 2^depth with a full-length proof is the tree's own leaf there, or a collision is returned |
| `Merkle.RustHelpersAgree` | programs/xmss-vault/src/merkle.rs:62-126 | the two helpers of merkle.rs agree exactly if there are at least two leaves, or the hash maps the one leaf and a zero node to the leaf |
| `Vault.SignaturesFitTree` | programs/xmss-vault/src/state.rs:55-57 | the number of signatures is at least one and at most 2^depth at every depth, and equals it exactly below sixteen, where the shift does not fall back |
| `Vault.VaultProgram.OpenXmssVault` | programs/xmss-vault/src/lib.rs:43-77 | the fresh vault and its token account, or the first failing check |
| `Vault.VaultProgram.WithdrawFromVault` | programs/xmss-vault/src/lib.rs:89-190 | on success the tokens have moved and both counters are one higher; otherwise the first failing check |
| `Vault.VaultProgram.DepositToVault` | programs/xmss-vault/src/lib.rs:194-219 | on success the tokens have moved into the vault; otherwise the first failing check |
| `Vault.VaultProgram.BridgeOutFromVault` | programs/xmss-vault/src/lib.rs:236-345 | on success the bridge has burned and both counters are one higher; otherwise the first failing check, the bridge's own errors included |
| `Bridge.BridgeProgram.InitializeBridge` | programs/soqtec-bridge/src/lib.rs:19-52 | the fresh bridge state, or the first failing check |
| `Bridge.BridgeProgram.BurnForRedemption` | programs/soqtec-bridge/src/lib.rs:58-115 | on success tokens, supply, totals, volume and nonce have moved together; otherwise the first failing check, overflow of the volume under an unlimited cap included |
| `Bridge.BridgeProgram.MintFromDeposit` | programs/soqtec-bridge/src/lib.rs:121-182 | on success the net amount is minted and the txid is taken; otherwise the first failing check |
| `Custody.Runtime.Submit` | programs/xmss-vault/src/lib.rs:316-325 | a transaction has its whole effect or none: what a failed instruction or inner call had done is undone |
| `Custody.BridgeConserves` | programs/soqtec-bridge/src/lib.rs:58-299 | over every run, supply = initial + total_minted - total_burned; both totals are the sums over their events; mints are net of a thousandth; nonces number the burns without gaps; and each txid mints at most once, by either instruction |
| `Custody.BalancesMatchSupply` | programs/soqtec-bridge/src/lib.rs:88-98 | the balances of a mint's accounts add up to its supply, always |
| `Custody.DailyLimitHolds` | programs/soqtec-bridge/src/lib.rs:69-78 | while the clock's epochs do not go back, the burns of any one epoch stay within the daily limit, however they are split |
| `Custody.KeysUsedInOrder` | programs/xmss-vault/src/lib.rs:99-175 | the key indices a vault accepts, over any mix of withdrawals and bridge-outs, are 0, 1, 2, ... in order and never twice; leaf_index = total_operations = their number, at most max_signatures, at most 2^depth |
| `Custody.CountersNeverOverflow` | programs/xmss-vault/src/lib.rs:168-171 | neither increment ever overflows, at any depth |
| `Custody.BridgeOutIsAtomic` | programs/xmss-vault/src/lib.rs:296-329 | a corollary of `Vault.VaultProgram.BridgeOutFromVault` and `Custody.Runtime.Submit`, which carry the proof: a bridge-out changes nothing, or burns and uses one key, both; a failed burn leaves the vault as it was |
| `Custody.VaultTokensNeedTheNextKey` | programs/xmss-vault/src/lib.rs:89-190 | over every run, a vault's balance falls only by a withdrawal or bridge-out of that vault whose signature and proof pass for the next unused key, by the signed amount, and that key is used up |
| `Custody.AnyAccountIsPaid` | programs/xmss-vault/src/lib.rs:89-190 | in every reachable state, a withdrawal whose signature passes succeeds into exactly the existing accounts of the vault's mint, whoever owns them, and moves the signed amount there |
| `Custody.ClientCanWithdraw` | scripts/xmss-client.js:108-247 | while keys remain, the signature and proof the client makes for the next leaf of its own tree are accepted for any payable amount |
| `Authority.EventsAreAuthorised` | programs/soqtec-bridge/src/lib.rs:58-182 | over every run, each event comes from a transaction that had what it takes: a mint, signatures by validators that reach the threshold, on a bridge that is not paused, for a fresh txid; a burn, its user, or the owner and the next key of a vault; a withdrawal or bridge-out, that owner and key; bridge events are of at least the minimum |
| `Authority.MintsNeedTheThreshold` | programs/soqtec-bridge/src/lib.rs:121-137 | in particular, over every run, nothing is minted without at least `threshold`, and at least two, entries of validators |
| `Authority.TokensMoveAsTold` | programs/xmss-vault/src/lib.rs:89-345 | a transaction that succeeds moves exactly the tokens it names between the accounts it names, of one mint, and takes them only from an account whose owner signed; one that fails moves none |
| `Authority.BridgeKeepsShape` | programs/soqtec-bridge/src/lib.rs:19-52 | over every run, a bridge keeps its authority, validators, threshold and limit, with 2 <= threshold <= validators <= 10 (and its mint: `set_mint` is left out) |
| `Authority.StepShapes` | programs/soqtec-bridge/src/lib.rs:185-320 | only the authority moves the pause flag and only a threshold of validators the attested balance; a vault's owner, depth, mint and account never change |
| `Authority.SucceedsIffAllowed` | programs/xmss-vault/src/lib.rs:43-345 | a transaction of any kind succeeds exactly if it has what it needs, told without the handlers, and then has done what it says |

## Left out

- The Lightning and 402 leg, the theater acts and the miner beat: they depend on services that cannot be seen here and repeat the claim-and-recover argument of the mint.
- The second phase of a conversion, at the production signer: the model ends at the tagged treasury send and a flag.
- HTTP, RPC, Express routes, event streams, logging, configuration, pause files and daily caps of the gateway: their outcomes are steps or parameters (a deferral is a parameter of `BeginAttempt`; a failed call is a step).
- Display-only fields and status changes of deposit intents, timestamps, SPV proofs and attestations in the store; intents keep only what binding and minting read.
- The scan cursor: a return spend in a block may be met at any moment and again, which covers every cursor, so theorems hold for more runs than the code has.
- The loop over the scan's reports that hands each carrier's record to onReceiptReturned (relayer/src/btcsoq/gateway.ts:1204-1213): each binding is a step of its own in `MoneyLoop`, and `ReturnScan` says which reports lead to one.
- Network fees: a payment is of the sats the wallet is asked to send; the code lets the fee come out of them.
- Amounts as floating point: sats stay integers where the code divides by 1e8, and backing_ratio is not computed.
- Liveness: nothing says that a deposit is eventually minted.
- Keccak-256, SHA-256, HASH160, ML-DSA, taproot serialisation and address encodings: parameters.
- `set_mint`, `vault_status` with `remaining_keys`, and a holder's own burn through the token program: runs have one bridge mint, and its supply moves only through the bridge.
- Rent, account sizes, bumps, delegates and frozen accounts of Solana.
- The built-in PAUL and direct release of the router: its outcome is the same parameter as a strategy's, and the theorems are about strategy chains.
- The watchers, the queue, the Solana executor, the lane manager and the hygiene sweep: loops over RPC semantics that cannot be seen here, or retired.
- Distinct signers: the bridge's threshold counts the list entries that name a validator (programs/soqtec-bridge/src/lib.rs:134-137), and so do the model and its theorems; none speaks of how many different validators agreed.
- Who should own the paid account: a withdrawal's signed message binds amount, recipient key and leaf index, and the paid token account is checked for its mint only; `Custody.AnyAccountIsPaid` says what follows, and the other theorems are about what is signed.
- MoneyLoop.Next: merges the last await of an activity with its end, and lets notes be saved at any moment, so it has more interleavings than the code, not fewer.
- ReleaseSafety.PaidOncePerRecord: for guarded runs only; the code has neither guard, and `SecondPayment` shows what follows without them.
- ReleaseSafety.PaidAsRecorded: for guarded runs only, as above.
- ReleaseSafety.NextTimelyInv: for steps that keep the first guard, which the code does not check; `PromptIsTimely` says where it keeps it.
- ReleaseSafety.StatusMovesForward: for runs that keep the first guard, as above.
- Conservation.PaidIsCovered: for guarded runs only, as above.
- SecondPayment.PaidMeansReturned: for chains on which no other transaction carries a copy of the record's tag; anyone may put one there, and a scan may then take it for the mint.
- SecondPayment.UnsavedPaysTwice: for a disk that has a record of the outpoint; where the claim itself never reached it, the restart claims the deposit anew, at another height.
- Store.GatewayStore.FindMintByCarrier: gives any matching record where the code gives the first in insertion order, which the model's maps do not keep; two records match one carrier only if one transaction carries both their tags.
- Gateway.BtcsoqGateway.OnDepositEvent: begins behind the proof check and leaves out the set of keys seen and the status shown on a deposit intent, which minting does not read.
- Gateway.BtcsoqGateway.MintForDepositKey: one call from end to end, with nothing else at work while it waits; `MoneyLoop` has the same stretches interleaved with everything else, and the claim after the wait checks again.
- MintRouting.SameLedgerAsDirect: for one lifetime of the process; the router forgets at a restart.
- Router.CalledIffPolicyMet: for a breaker that is never pulled; `CalledIffCounts` is the statement for any.
- Custody.DailyLimitHolds: for a clock whose epochs do not go back.
- Winternitz.TwoMessagesBreakHash: for digests no longer than the message size; the tapscript demo signs 32 bits of a 160-bit digest, where only `ForgeryBreaksHash` applies.
