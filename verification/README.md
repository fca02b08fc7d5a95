# GODcoin ledger core

A model of the core of the GODcoin node: the script machine that decides where funds go, the pool
that admits transactions, the minter that makes blocks of them, the index that receipts are applied
to, the append-only block log with its cache and its rebuild, and the byte forms and fee arithmetic
underneath. `dafny verify dfyconfig.toml` checks everything.

The model has two layers.

- Functions say what each operation computes: `Engine`, `Ledgers`, `Chains`, `Nodes` and `Frames` for
  the machine, the ledger, transactions and blocks, whole runs, and the log. The main results are
  about these: conservation of the supply, who is paid and who has to sign, soundness of the pool, no
  transaction twice, recovery of a torn log, what scripts compute, compilation of conditionals, fees in
  closed form, round trips.
- Classes with the source's own fields and loops (`ScriptEngine`, `Builder`, `Buffer`, `Cursor`,
  `Indexer`, `WriteBatch`, `BlockStore`, `Blockchain`, `ReceiptPool`, `Minter`) are proved to compute
  exactly those functions. `Servers.Serve` joins the layers over whole runs: one process after another
  on the same files, each with the owner's key, with pushes, blocks, restarts and reindexing in any
  order; at each point the objects are the state of the run, and file and byte positions are those of
  its chain (`Blockchains.Blockchain.Recorded`).

A run starts with genesis and continues with any sequence of pushed transactions, blocks produced
with any keys, restarts and reindexing (`Nodes.Event`). An `unwrap`, `expect` or `assert` of the
source that fails ends the process: such an outcome is a value of its own (`Panicked`,
`ProducePanicked`, an `ok` that is false), and what was only in memory is then lost.

| files | subject |
|---|---|
| Base, Assets, Serializer, Crypto | integers, fixed-point amounts, byte codecs, primitives as parameters |
| Accounts, Transactions, Blocks, Codec, Layout, Text | entities, their byte forms, the methods that write and read them, the bytes themselves, and text |
| Script, Builder, Engine, Accounting, Structured, Shape, Expression, Faults, Interpreter, Approval | operations, assembling scripts, the machine, what it accounts for, if/else and which shapes of it are safe, what arithmetic and conditions come to, how calls fail, the class, permission checks |
| Ledger, Conservation, Payments, Books, Fees, Tariff, Chain, Permitted, Refusal, Consent | indexing and the pending view, where the money is and who is paid, blocks of any origin, fees and their closed forms, executing and verifying, what is let through, what is refused and why, and who has to sign |
| Node, Runs, Rights, Identifiers, Wellformed, History | runs and what they keep |
| Scenario, Updates, Stops, Twice | runs that end where the code does other than it reads |
| Index, Frames, Cache, Store, Filter, Blockchain, Pool, Recovery, Leftover, Server | index and batch, the log, its cache, the chain as an object, recovery, and the server over its files |

## Hypotheses

Hashing, signing, signature verification and the checksum are functions about which nothing is
assumed (`Crypto.Oracles`), except where a lemma says so: `Genuine` (what a key pair signs, its
public key verifies; `Trusted` says so of a minter and two wallet keys), `NoCollision` (given
transactions with one identifier have the same bytes behind it; in `Histories`, headers and receipts
of two given chains), `Distinct` and `ThreeDistinct` (given
ones have different identifiers). The clock, keys and signatures are inputs of the steps.

## Where the code does other than it reads

- One boolean remembers whether to pass over an else branch, so after a false inner conditional an
  outer else branch runs although its condition was true: a call that its author sees succeed is
  aborted (`Shapes.NestedCallAborts`). For one conditional `Shapes.ElseIsSafeIff` says exactly when
  this cannot happen, for the shape of a program `Shapes.TameIsWeakest`.
- The checked product tests only its upper bound and wraps below the lower one (`Assets.MulExactIff`);
  the checked quotient fails for large dividends whose quotient would fit (`Assets.DivExactIff`).
- Trimming a torn log leaves a rest of one to seven bytes in the file (`Frames.TrimmedTail`). What is
  written behind such a rest is lost to the next scan, unless the rest passes for the start of a frame
  (`Leftovers.SecondRecovery`).
- The height check is off right after the genesis block (`Frames.GapAfterGenesis`). What a scan finds is
  in order exactly if the first two frames in the file are (`Frames.FoundInOrderIff`).
- Identifiers outlive their expiry by 30 seconds, but both comparisons are strict: the clock may in
  fact fall back by 31 seconds, and not by 32 (`Identifiers.SlackIsExact`, and over whole runs
  `Readmission.RunSlackIsExact`).
- The pending view takes the script and permissions of any updated account for its own. It agrees
  with the index exactly where the updates of other accounts make no difference
  (`Rights.PendingRightsAgreeIff`, and for what is admitted `Rights.RightsInUse`);
  `PendingUpdates.AnotherScriptDecides` is a run in which they do.
- Admission does not look for the target of a mint, and looks at the supply only as indexed. Either
  makes producing the next block panic (`Scenarios.MintToNowhere`, `Scenarios.MintTooMuch`), and
  nothing else does with the right key (`Runs.ProduceOutcome`).
- Pushing a transaction can stop the process, exactly where a function table points past its script or
  the owner wallet has no pending balance (`Runs.PushPanicsIff`). Both happen after genesis
  (`Stops.OverrunStops`, `Stops.ThirdMintStops`).
- Verifying a block looks neither at its rewards (`Chains.RewardsAreNotChecked`) nor at what its last
  log says (`Books.LastLogIsNotCompared`). A block that passes keeps the supply under a condition of
  its own (`Books.AcceptedConservesIff`), which blocks made by `new_child` from the pool meet
  (`Runs.SupplyIsConserved`).
- Whether accounts are asked for approval in one order or another can matter when one is missing and
  another refuses (`Approval.OrderMattersIff`).

## Model

| member | source | states |
|---|---|---|
| Runs.SupplyIsConserved | crates/godcoin/src/blockchain/mod.rs:688-746 | After genesis and any sequence of pushes, produced blocks, restarts and reindexing, the indexed balances add up to the token supply, none is negative, and the owner wallet exists |
| Runs.ProduceOutcome | crates/server/src/server/minter.rs:58-114 | What producing from any reachable state comes to, settled in every case: nothing if production is not forced, nothing is pending and the newest block is empty; otherwise a block if and only if the pending mints are in order and the key is the indexed owner's minter's; refused for its signature with another key; and where mints are out of order, or the fees do not fit 64 bits, an unwrap fails. With mints in order the fees always fit |
| Runs.RestsIff | crates/server/src/server/minter.rs:61-79 | Exactly when the minter makes nothing; blocks and funds are then as they were, and only identifiers whose expiry is more than 30 seconds past are forgotten |
| Runs.NoneEmptyTwiceInRun | crates/server/src/server/minter.rs:61-79 | After genesis and any run whose production is never forced, no two blocks in a row are both without receipts, whatever is pushed, refused, restarted or rebuilt in between |
| Runs.ProducedIs | crates/server/src/server/minter.rs:81-114 | A produced block is the child of the head over the whole pool; it is indexed, appended, and the pool is empty |
| Runs.PushPanicsIff | crates/godcoin/src/blockchain/receipt.rs:34-56 | Pushing a transaction stops the process, in a reachable state, if and only if it passes the gate and the script to be run has a function table that points past it, or the owner wallet has no pending balance in 64 bits; with the pending mints in order it always has one |
| Stops.ThirdMintStops | crates/godcoin/src/blockchain/mod.rs:495-525 | A run from genesis in which a push stops the process: behind two pending mints that are too much for the wallet's balance, any third mint that is in time does, even without a signature |
| Stops.OverrunStops | crates/godcoin/src/script/engine.rs:71-79 | Another: once an update has given the wallet a script of six bytes whose function table points past them, the next transfer out of it does |
| Runs.PoolIsSolvent | crates/godcoin/src/blockchain/mod.rs:235-299 | In every reachable state whose pending mints can be indexed, the pending balance of an indexed account is at least 0 and at most what indexing the pool gives, equal unless a Destroy entry names the account; the destroyed flags agree |
| Runs.AccountFeeIsExact | crates/godcoin/src/blockchain/mod.rs:316-355 | In every reachable state at most 47 payments are counted, so the 16-bit cast loses nothing and the fee is 25 times 2 to the count, or none from the 47th on |
| Runs.ReindexIsExact | crates/godcoin/src/blockchain/mod.rs:84-143 | Reindexing the blocks of any run gives back the accounts, owner and supply that block by block indexing had stored |
| Runs.RunKeeps | crates/godcoin/src/blockchain/mod.rs:381-390 | The run invariant: a ledger that holds all money, a pool that was executed receipt by receipt, a log that replays to the ledger, and capped payment counts, is kept by every step |
| Runs.GenesisInv | crates/godcoin/src/blockchain/mod.rs:748-818 | The state after genesis satisfies the run invariant |
| Runs.PushKeeps | crates/godcoin/src/blockchain/receipt.rs:34-56 | Pushing a transaction keeps the run invariant, whether it is admitted, refused or panics |
| Runs.ProduceKeeps | crates/server/src/server/minter.rs:58-114 | Producing a block keeps the run invariant, on every outcome |
| Runs.ReindexKeeps | crates/godcoin/src/blockchain/mod.rs:84-143 | Reindexing changes neither blocks nor ledger and keeps the run invariant |
| Identifiers.NeverAdmittedTwice | crates/godcoin/src/blockchain/receipt.rs:39-62 | In any run of pushes, produced blocks and restarts whose clock never falls more than 31 seconds below an earlier reading, two admitted transactions have different identifiers, however they are signed, unless identifiers collide |
| Identifiers.SlackIsExact | crates/godcoin/src/blockchain/index.rs:133-146 | For the gate behind one purge: some transaction passes it again if and only if the clock has fallen back by at least 32 seconds |
| Readmission.RunSlackIsExact | crates/godcoin/src/blockchain/index.rs:133-146 | 31 is exact over whole runs: after genesis some run without reindexing admits one transaction twice, with no identifiers colliding, if and only if its clock may fall back by 32 seconds |
| Readmission.AdmitsTwice | crates/godcoin/src/blockchain/receipt.rs:39-62 | Such a run, for any fall of at least 32 seconds: a mint, a block that purges it, and the same mint again |
| Identifiers.ReadmittedIff | crates/godcoin/src/blockchain/receipt.rs:41-47 | After a purge a stored identifier passes the gate again exactly if its expiry lies ahead of the push and more than 30 seconds behind the purge |
| Identifiers.StepRemembers | crates/godcoin/src/blockchain/index.rs:133-146 | A step without reindexing leaves a stored identifier as it is, unless a purge finds it over |
| Identifiers.NoTransactionTwice | crates/godcoin/src/blockchain/receipt.rs:39-62 | On a clock that does not fall back, with reindexing at any time and no collision among the identifiers of the run, no two receipts on the chain after genesis or in the pool have the same identifier |
| Identifiers.NeverLetInAgain | crates/godcoin/src/blockchain/mod.rs:122-140 | In the same runs whatever is on the chain or in the pool is refused at any later time and with any signatures: as a duplicate until it expires, as expired from then on |
| Identifiers.RebuildMissesNothing | crates/godcoin/src/blockchain/mod.rs:126-140 | The backward loop over the blocks that breaks at the first old one finds every identifier that has not expired |
| Identifiers.RebuildFindsOnly | crates/godcoin/src/blockchain/mod.rs:126-140 | The same loop finds nothing but identifiers of receipts in the blocks that have not expired, with their expiries |
| Recovery.WholeLogReplays | crates/godcoin/src/blockchain/mod.rs:84-120 | The whole log of any run whose blocks have a byte form replays to the chain as stored: blocks, accounts, owner, supply, byte positions, and the file untouched |
| Recovery.GoesBackToAnEarlierMoment | crates/godcoin/src/blockchain/store.rs:119-179 | The log of any run whose blocks have a byte form, cut off anywhere behind the genesis frame, replays to the chain and the byte positions of an earlier moment of the same run; without trimming it fails exactly if eight or more bytes of a torn frame are left |
| Recovery.TornLogRebuilds | crates/godcoin/src/blockchain/store.rs:119-179 | Reindexing a cut log gives exactly the blocks whose frames are whole, the funds after them and the positions they were written at |
| Recovery.EarlierMoment | crates/godcoin/src/blockchain/mod.rs:381-390 | A run passes through every prefix of its chain |
| WellFormed.RunsAreLinked | crates/godcoin/src/blockchain/block.rs:206-227 | In every chain of a run of transactions that fit their byte form, heights count up, each header holds the hash of the one before and of its receipts, and a block has a readable byte form unless it holds 2^32 receipts or more |
| Histories.HeadNamesChain | crates/godcoin/src/blockchain/block.rs:229-253 | Of two linked chains whose newest headers have the same hash, all headers and all receipts are the same, unless things hashed collide; receipts hashed one behind the other without a count can be told apart all the same |
| Histories.HeadNamesLedger | crates/godcoin/src/blockchain/block.rs:229-253 | Two nodes that agree on the hash of their newest block agree, after whatever runs, on accounts, owner and supply, rewards being under no hash but fixed by the receipts |
| WellFormed.ExecutedIsSmall | crates/godcoin/src/blockchain/mod.rs:435-686 | What executes installs no script over 2048 bytes, has at most 8 signatures, and a log of at most 2049 entries |
| WellFormed.AcceptedIsLinked | crates/godcoin/src/blockchain/mod.rs:392-408 | A block that passes verification extends a linked chain to a linked chain |
| Conservation.IndexingSucceedsIff | crates/godcoin/src/blockchain/mod.rs:704-746 | Receipts admitted one by one can be indexed together, with no failing unwrap, if and only if every mint has a known target and the mints fit the supply |
| Conservation.PendingIsConservative | crates/godcoin/src/blockchain/mod.rs:235-299 | The pending balance never exceeds the indexed one, equals it for accounts no Destroy entry names, and the destroyed flags agree |
| Conservation.BlockConserves | crates/godcoin/src/blockchain/mod.rs:688-746 | A block of admitted receipts whose rewards are its fees can be indexed exactly when its mints can, and then the balances add up to the supply again |
| Conservation.FeeTotalSucceeds | crates/godcoin/src/blockchain/block.rs:211-215 | The fold over the fees of admitted receipts never overflows and is their sum |
| Conservation.ReceiptStep | crates/godcoin/src/blockchain/mod.rs:704-746 | Indexing one more admitted receipt succeeds and keeps index and pending view in agreement, solvent, and short of the supply by exactly the unpaid fees |
| Conservation.LogMoves | crates/godcoin/src/blockchain/mod.rs:728-742 | The log of a transfer moves funds between accounts and creates none, Destroy entries included |
| Payments.BalancesAddUp | crates/godcoin/src/blockchain/mod.rs:704-746 | An account that no Destroy entry concerns holds, behind any list of receipts that is indexed, what it held before plus the mints to it and the Transfer entries that name it, less the fees, amounts and openings it pays for; an account opened on the way starts with its opening balance |
| Payments.BalancesAre | crates/godcoin/src/blockchain/mod.rs:704-746 | The same for every account and every list, as one equation over integers that follows the funds through Destroy entries |
| Payments.ClosingPays | crates/godcoin/src/blockchain/mod.rs:728-742 | A transfer with a Destroy entry leaves its sender with nothing and flagged, gives the account named all that the sender had left, and everyone else what is sent to them |
| Payments.ExecutedCloses | crates/godcoin/src/script/engine.rs:147-181 | Every log that executing leaves and that has a Destroy entry has the form this is about: transfers, the entry, and at most a transfer of the rest to the same account |
| Payments.FlaggedIff | crates/godcoin/src/blockchain/mod.rs:735-740 | An account is destroyed by a transfer of its own with a Destroy entry, and by nothing else |
| Payments.RightsAre | crates/godcoin/src/blockchain/mod.rs:715-728 | Script and permissions of an account after indexing are exactly those of its own newest update that has them, or of its opening, or the ones before |
| Payments.OwnerIs | crates/godcoin/src/blockchain/mod.rs:708-710 | The owner after indexing is the newest owner transaction among the receipts, or the one before |
| Payments.BlockBalances | crates/godcoin/src/blockchain/mod.rs:688-702 | A block leaves every account with what its receipts say, and the wallet of the owner as of its receipts with the rewards on top |
| Payments.ProducedPays | crates/server/src/server/minter.rs:81-114 | A block that is produced, in any state, leaves every account with what the pool says and the owner wallet with the fees: in sums, for an account that no Destroy entry concerns |
| Payments.PendingAddsUp | crates/godcoin/src/blockchain/mod.rs:235-299 | From any point on, the pending balance moves by the mints to the account, the Transfer entries that name it and what it pays, as long as no transfer closes it |
| Payments.ClosedPending | crates/godcoin/src/blockchain/mod.rs:271-290 | A transfer that closes an account leaves its pending view with nothing, and flagged; the account named sees only what is transferred to it |
| Scenarios.MintStopsProcess | crates/server/src/server/minter.rs:58-114 | In any reachable state whose owner and wallet are those of genesis: a mint to an account that is neither indexed nor pending, or one too much for the supply with those pending, signed by two of the wallet's keys, is admitted, and producing the next block stops the process |
| Scenarios.MintToNowhere | crates/godcoin/src/blockchain/mod.rs:495-525 | Such a state is the one right after genesis, for a mint of any amount to any account but the wallet |
| Scenarios.MintTooMuch | crates/godcoin/src/blockchain/mod.rs:495-525 | And the one after a first mint to the wallet, for a second one with which the sum leaves 64 bits |
| Books.BlockTotal | crates/godcoin/src/blockchain/mod.rs:688-746 | Indexing a block, with any rewards and logs, moves the balances against the supply by rewards plus logged transfers less fees and amounts |
| Books.AcceptedConservesIff | crates/godcoin/src/blockchain/mod.rs:392-433 | A block that passes verification, whoever made it, keeps the balances equal to the supply if and only if rewards plus logged transfers equal fees plus transferred amounts |
| Books.AdmittedConservesIff | crates/godcoin/src/blockchain/mod.rs:688-746 | With logs as execution gives them, it does if and only if the rewards are the fees |
| Books.LastLogIsNotCompared | crates/godcoin/src/blockchain/mod.rs:392-433 | The answer to a block stays the same when the log of its last receipt is replaced, the receipt root computed anew and the header signed again |
| Rights.PendingRightsAgreeIff | crates/godcoin/src/blockchain/mod.rs:235-299 | For any list of receipts: script and permissions in the pending view of an account are those that indexing the list gives it, if and only if the updates of other accounts in the list make no difference to it |
| Rights.RightsInUse | crates/godcoin/src/blockchain/mod.rs:526-686 | At every place of a reachable pool whose mints so far are in order: the creation, update or transfer there was judged by the script and permissions its payer will have in the index by then, under exactly that condition, and then it was executed as if against the index |
| Rights.ForeignScriptRuns | crates/godcoin/src/blockchain/mod.rs:653-686 | Behind a pending update that brings a script for one account, a transfer out of any account that passes its checks runs that script |
| PendingUpdates.AnotherScriptDecides | crates/godcoin/src/blockchain/mod.rs:255-265 | A run from genesis in which that happens: the transfer is admitted by the script meant for the owner wallet, while the account's own script refuses it |
| Chains.ExecuteAdmits | crates/godcoin/src/blockchain/mod.rs:435-686 | Whatever executes is solvent against its receipt prefix, pays a fee of at least 0, and has a log that spends exactly the amount on indexed accounts |
| Chains.ProducedBlockVerifies | crates/godcoin/src/blockchain/mod.rs:392-433 | A block built from receipts executed one by one passes verification exactly when its signer is the indexed owner's minter |
| Chains.RewardsAreNotChecked | crates/godcoin/src/blockchain/mod.rs:392-433 | Verification gives the same answer for any rewards |
| Permitted.ExecutesIff | crates/godcoin/src/blockchain/mod.rs:435-686 | A transaction executes if and only if it has at most 8 signatures and meets the conditions of its kind, among them: creating costs at least twice the creator's fees and leaves at least four times as much on the account, updating costs at least twice the fees, a transfer at least the fees, and the pending balance covers all that is taken |
| Permitted.CreateIff | crates/godcoin/src/blockchain/mod.rs:528-598 | When an account may be created, in exact arithmetic and without an order of checks |
| Permitted.UpdateIff | crates/godcoin/src/blockchain/mod.rs:599-652 | When an account may be updated, in the same way |
| Permitted.TransferIff | crates/godcoin/src/blockchain/mod.rs:653-674 | When a transfer gets as far as its script, which is that of the sender's pending account |
| Permitted.AcceptedIff | crates/godcoin/src/blockchain/mod.rs:392-433 | A block passes if and only if it is the successor of the head, signed by the owner's minter, and each of its transactions is permitted behind the ones before it |
| Permitted.RejectedIff | crates/godcoin/src/blockchain/mod.rs:392-433 | Why a block is turned away, each reason if and only if: its height, then its receipt root, then its parent, then its signer, then the first transaction refused behind the ones before it |
| Refusals.RefusedFor | crates/godcoin/src/blockchain/mod.rs:435-686 | For which reason a transaction of any kind is refused: the first of its faults, given in exact arithmetic and with every limit written out |
| Refusals.PushedIff | crates/godcoin/src/blockchain/receipt.rs:34-56 | A transaction is taken into the pool if and only if it ends after now and within 2592000 seconds, its identifier is not stored, and it is permitted behind the pool |
| Refusals.GateIff | crates/godcoin/src/blockchain/receipt.rs:39-47 | Each answer of the gate, if and only if |
| Consent.ChangesAreSigned | crates/godcoin/src/blockchain/mod.rs:526-652 | Nothing is created or updated unless as many signatures as the paying account's permissions ask for, as they stand at that point, are by listed keys and verify |
| Consent.PoolIsSigned | crates/godcoin/src/blockchain/receipt.rs:34-56 | The same for every place of a reachable pool |
| Consent.ImmutableStays | crates/godcoin/src/account.rs:106-115 | An account whose threshold is above 8, as that of an immutable one is, neither creates accounts nor is updated again |
| Consent.OwnersActsAreSigned | crates/godcoin/src/blockchain/mod.rs:466-525 | With the script the owner wallet is born with, nothing is minted and no owner named without the signatures that the wallet's permissions ask for |
| Consent.FirstFunction | crates/godcoin/src/blockchain/mod.rs:838-843 | The wallet's first function succeeds exactly if the wallet's permissions approve, and sends nothing away |
| Consent.SecondFunction | crates/godcoin/src/blockchain/mod.rs:844-851 | Its second sends the amount it is given to the account it is given, and the rest back, exactly if they approve; without that it sends nothing |
| Consent.WalletSpendsOnApproval | crates/godcoin/src/blockchain/mod.rs:653-686 | A transfer out of the wallet goes through with that log and no other, and only with enough signatures |
| Consent.ConditionDecides | crates/godcoin/src/script/engine.rs:281-329 | A transfer whose script names a time goes through exactly from that time of the newest block on, and one whose script names an account exactly if that account's permissions, behind the pool, approve |
| Permitted.ExecutePanicsIff | crates/godcoin/src/blockchain/mod.rs:435-686 | Executing a transaction stops the process if and only if its earlier checks pass and the script to be run has a function table that points past it, or the owner wallet that a mint or owner change needs has no pending balance |
| FeePolicy.AccountFeeDoubles | crates/godcoin/src/blockchain/mod.rs:316-355 | The account fee is the least fee doubled once per counted payment, and there is none from the 47th on |
| FeePolicy.ProducingNeverRaises | crates/godcoin/src/blockchain/mod.rs:337-352 | Turning the pool into a block never raises a payment count, and keeps it where the block holds a payment |
| Tariffs.NetworkFeeIs | crates/godcoin/src/blockchain/mod.rs:357-379 | The network fee in closed form: with R receipts in the blocks from ten before the newest height divisible by five up to it, 25 times 1.015 to the power of (1 + R) / 10, cut off at five decimals after the power and after the product; none exactly where the power does not fit 64 bits |
| Tariffs.BusierIsDearer | crates/godcoin/src/blockchain/mod.rs:357-379 | More receipts in the window never lower it |
| Tariffs.RisesFrom29 | crates/godcoin/src/constants.rs:4-7 | It is 25 exactly up to 28 receipts in the window, and never less |
| Tariffs.FeeCountIs | crates/godcoin/src/blockchain/mod.rs:316-355 | An account is charged for one payment more than those in the pool and in all blocks since the newest four in a row without any |
| Tariffs.AccountFeeIs | crates/godcoin/src/blockchain/mod.rs:316-355 | In every reachable state: 25 doubled once for each of them, and none from the 47th on |
| Tariffs.InfoIs | crates/godcoin/src/blockchain/mod.rs:301-314 | Account, network fee and account fee in every reachable state, all three in closed form |
| FeePolicy.NetworkFeeHolds | crates/godcoin/src/blockchain/mod.rs:357-379 | The network fee stays the same for five blocks at a time |
| FeePolicy.FeesNonNegative | crates/godcoin/src/blockchain/mod.rs:316-379 | Network and account fees are never negative |
| Assets.CheckedPowBySquaring | crates/godcoin/src/asset/mod.rs:68-96 | Squaring and multiplying computes the exact power truncated once, or nothing exactly when it or the digit count overflows |
| Assets.PowIsOneTruncation | crates/godcoin/src/asset/mod.rs:68-96 | A result of a power is the true power rounded toward zero at five decimals, with no rounding in between, and conversely |
| Assets.PowOfTwoTokens | crates/godcoin/src/asset/mod.rs:68-96 | Powers of two tokens are exact up to the 46th, and the 47th does not fit |
| Assets.MulExactIff | crates/godcoin/src/asset/mod.rs:45-55 | The checked product is the truncated product or nothing, if and only if the truncated product is at least the least 64-bit number |
| Assets.DivExactIff | crates/godcoin/src/asset/mod.rs:57-66 | The checked quotient is the truncated quotient, or nothing where that does not fit, if and only if the widened dividend fits or the quotient does not |
| Assets.DivOverflows | crates/godcoin/src/asset/mod.rs:57-66 | A dividend whose quotient fits and which still gives no result: 10^15 units by 10^15 units |
| Assets.MulWrapsBelow | crates/godcoin/src/asset/mod.rs:49-53 | An input at which the product wraps below the 64-bit range |
| Structured.TameProgramRuns | crates/godcoin/src/script/engine.rs:113-361 | Calling a function of a built script whose conditionals are tame gives the log or the error its author reads off the if/else structure |
| Structured.BuiltProgramRuns | crates/godcoin/src/script/engine.rs:71-361 | For every program at all, the call computes the meaning with the interpreter's one flag, and never panics |
| Structured.FlatIsFlagged | crates/godcoin/src/script/engine.rs:230-278 | Flat execution with marker, flag and skip scanning equals the flagged big-step meaning of the syntax tree, at every depth and with the marker restored |
| Expressions.ExprRuns | crates/godcoin/src/script/engine.rs:187-224 | The postfix code of any arithmetic expression over literals, the whole amount and what is left of it leaves exactly its value in integer arithmetic: minuend before subtrahend, products and quotients cut off toward zero; it fails with an arithmetic error exactly where a step does not fit, and with a stack overflow exactly where more than 64 frames are needed |
| Expressions.TestRuns | crates/godcoin/src/script/engine.rs:226-329 | The code of any condition leaves its truth value: literals, negation, the time of the newest block, approval of one account and of so many of several |
| Expressions.GuardRuns | crates/godcoin/src/script/engine.rs:286-329 | The fast-failing forms go on exactly where the condition holds, and end the call otherwise |
| Expressions.TestCall | crates/godcoin/src/script/engine.rs:71-361 | Calling a function that is one condition succeeds exactly if it holds, and sends nothing away |
| Expressions.PayCall | crates/godcoin/src/script/engine.rs:123-146 | Calling a function that transfers the value of an expression sends just that to the account it names and the rest back to the sender, exactly if the account is open and the value is neither negative nor above the amount |
| Expressions.DestroyCall | crates/godcoin/src/script/engine.rs:147-181 | A destroy names its account, sends it the rest, and nothing behind it runs; exactly for transfers, to another, open account |
| Expressions.LeavingRuns | crates/godcoin/src/script/engine.rs:275-279 | Nothing behind a return or an abort runs |
| Faults.ErrorIsBehind | crates/godcoin/src/script/engine.rs:113-322 | The position in an error is the one behind the operation that failed |
| Faults.UnclosedFails | crates/godcoin/src/script/engine.rs:324-326 | A conditional without its end never succeeds, whichever way it goes and whatever truth value comes last |
| Faults.EntersDefinition | crates/godcoin/src/script/engine.rs:71-111 | A call enters at a definition and nowhere else; a bad table, an unknown function and every other entry have their own error |
| Shapes.ElseIsSafeIff | crates/godcoin/src/script/engine.rs:230-278 | Behind a true condition every else branch is treated as its author expects, if and only if the taken branch is read right and, where it runs to its end, leaves the flag set |
| Shapes.TameIsWeakest | crates/godcoin/src/script/engine.rs:230-278 | The shape decides: all programs with given conditionals mean to the interpreter what they mean to their author, if and only if no conditional stands inside the first branch of one with an else |
| Shapes.MisreadCall | crates/godcoin/src/script/engine.rs:71-361 | Of every other shape there is a program whose call succeeds for its author and is aborted by the interpreter, in any built script that holds it, for every transaction and chain |
| Shapes.NestedBuilds | crates/godcoin/src/script/builder.rs:22-61 | A short such program can be built into a script |
| Shapes.NestedCallAborts | crates/godcoin/src/script/engine.rs:71-361 | Called in any built script that holds it, that program is aborted, though its author sees it succeed |
| Structured.TameAgrees | crates/godcoin/src/script/engine.rs:230-278 | On programs with no conditional inside the first branch of an if with an else, the flag never shows |
| Structured.NestedProgramDiffers | crates/godcoin/src/script/engine.rs:114-114 | From any machine and with either flag, the nested program aborts for the interpreter and falls through for its author |
| Structured.SkipBytesOf | crates/godcoin/src/script/engine.rs:363-379 | Skipping over bytes lands where skipping over operations does |
| Structured.SkipOver | crates/godcoin/src/script/engine.rs:237-251 | A skip passes over balanced code as a whole and lands on its own delimiter |
| Structured.RunBytesOf | crates/godcoin/src/script/engine.rs:113-322 | The byte interpreter refines the interpreter over operations, kinds of error included |
| Accounting.SuccessAccountsForAmount | crates/godcoin/src/script/engine.rs:115-361 | A successful transfer log spends exactly the amount, has at most one Destroy, followed only by a transfer to the same account, targets existing accounts that are not destroyed, and is at most one entry longer than the script |
| Accounting.StepKeeps | crates/godcoin/src/script/engine.rs:123-228 | Every operation keeps the remaining amount at least 0, remaining plus transferred equal to the amount, and the stack within 64 |
| Accounting.RunKeeps | crates/godcoin/src/script/engine.rs:115-322 | The whole loop keeps remaining plus transferred equal to the amount, and logs at most one entry per byte of the script |
| Accounting.FinalLogSound | crates/godcoin/src/script/engine.rs:336-361 | What is left over goes to the account of a final Destroy, otherwise back to the sender, so that nothing is lost |
| Approval.CheckIsAVote | crates/godcoin/src/script/engine.rs:490-521 | Over existing accounts the check is settled by threshold, number of accounts, whether one refuses, and how many approve |
| Approval.OrderDoesNotMatter | crates/godcoin/src/script/engine.rs:490-521 | The answer does not depend on the order of the accounts if the threshold is 0 or above their number, or if all exist, or if none refuses |
| Approval.OrderMattersIff | crates/godcoin/src/script/engine.rs:490-521 | Every order of the accounts gets the same answer if and only if one of these holds |
| Builders.BuiltScriptReadsBack | crates/godcoin/src/script/builder.rs:22-61 | From the pointer of a function in a built script, decoding yields its definition, exactly the frames pushed, and the functions pushed after it |
| Builders.BuiltLookup | crates/godcoin/src/script/mod.rs:31-44 | Looking an identifier up in a built script points at the first function pushed under it, in bounds, or finds none |
| Builders.DecodeAllOf | crates/godcoin/src/script/engine.rs:381-488 | Repeated decoding of encoded operations gives the operations back |
| Builders.FnBuilder.constructor | crates/godcoin/src/script/builder.rs:71-88 | A function starts as the bytes of its definition |
| Builders.FnBuilder.Push | crates/godcoin/src/script/builder.rs:90-147 | A pushed operation is appended to the function |
| Builders.Builder.constructor | crates/godcoin/src/script/builder.rs:13-20 | A builder starts with no function |
| Builders.Builder.Push | crates/godcoin/src/script/builder.rs:51-60 | A pushed function is appended, with its table entry |
| Builders.Builder.Build | crates/godcoin/src/script/builder.rs:22-49 | The built script is table and bodies, or the size by which it is refused |
| Scripts.GetFnPtr | crates/godcoin/src/script/mod.rs:31-44 | The loop over the table gives the pointer of the first entry with the identifier, none, or a read error |
| Ops.DecodeOpOf | crates/godcoin/src/script/engine.rs:381-488 | Decoding the bytes of any operation gives it back and stops behind it |
| Interpreter.Stack.Push | crates/godcoin/src/script/stack.rs:16-26 | Pushes unless 64 operations are on the stack |
| Interpreter.Stack.Pop | crates/godcoin/src/script/stack.rs:28-30 | Takes the top operation or reports the underflow |
| Interpreter.Stack.PopBool | crates/godcoin/src/script/stack.rs:32-39 | Takes a truth value off the top, or reports an item of another kind |
| Interpreter.Stack.PopAccountId | crates/godcoin/src/script/stack.rs:41-47 | Takes an account off the top, or reports an item of another kind |
| Interpreter.Stack.PopAsset | crates/godcoin/src/script/stack.rs:49-57 | Takes an amount off the top, or reports an item of another kind |
| Interpreter.ScriptEngine.constructor | crates/godcoin/src/script/engine.rs:37-53 | A fresh engine: position 0, empty stack and log, the whole amount remaining |
| Interpreter.ScriptEngine.Eval | crates/godcoin/src/script/engine.rs:58-69 | Evaluating gives the verdict, log and error of the specified run |
| Interpreter.ScriptEngine.CallFn | crates/godcoin/src/script/engine.rs:71-361 | Calling a function gives the verdict, log and error of the specified call |
| Interpreter.ScriptEngine.LoadArgs | crates/godcoin/src/script/engine.rs:82-108 | Pushes the arguments taken from the transaction |
| Interpreter.ScriptEngine.Run | crates/godcoin/src/script/engine.rs:113-361 | The loop with marker and flag, and the verdict at its end, are those specified |
| Interpreter.ScriptEngine.Apply | crates/godcoin/src/script/engine.rs:116-322 | One turn changes registers, position, marker and flag as specified |
| Interpreter.ScriptEngine.Execute | crates/godcoin/src/script/engine.rs:122-322 | An ordinary operation changes the registers as the functions behind Expressions.ExprRuns and TestRuns say; of two amounts on the stack an arithmetic one leaves their sum, the lower less the upper, their product or quotient in integer arithmetic, or reports that it does not fit |
| Interpreter.ScriptEngine.Transfer | crates/godcoin/src/script/engine.rs:123-143 | A transfer takes account and amount off the stack, checks both, and logs |
| Interpreter.ScriptEngine.Destroy | crates/godcoin/src/script/engine.rs:144-160 | A destroy logs its target once and ends the run |
| Interpreter.ScriptEngine.ConsumeOp | crates/godcoin/src/script/engine.rs:381-488 | Reads one operation and advances past it |
| Interpreter.ScriptEngine.ConsumeOpUntil | crates/godcoin/src/script/engine.rs:363-379 | Skips to the matching delimiter |
| Interpreter.ScriptEngine.CheckAccPerms | crates/godcoin/src/script/engine.rs:490-521 | The loop over accounts gives the specified answer |
| Interpreter.ScriptEngine.Finish | crates/godcoin/src/script/engine.rs:324-361 | Decides on the top of the stack and settles the remaining amount |
| Accounts.Verify | crates/godcoin/src/account.rs:74-104 | The nested loops approve, with at most 255 signatures, if and only if the threshold is 0, or every signature by a listed key verifies and at least as many places as the threshold hold one; each of the three errors has its own condition |
| Accounts.VerdictIff | crates/godcoin/src/account.rs:74-104 | The same conditions for the verdict that permissions are judged by everywhere else |
| Accounts.VerdictIgnoresOrder | crates/godcoin/src/account.rs:74-104 | Reordering signatures or keys, or repeating a key, changes no verdict |
| Texts.NameIsTextIff | crates/godcoin/src/tx/mod.rs:363-374 | Bytes are accepted as an attachment name if and only if they are the bytes of a text: no overlong form, no surrogate, nothing above the last character, nothing cut off |
| Layouts.BigEndianDigits | crates/godcoin/src/serializer.rs:46-91 | Fixed numbers have their most significant byte first, digit by digit |
| Layouts.VarDigits | crates/godcoin/src/serializer.rs:61-78 | Numbers of variable length have seven bits to a byte, least significant first, the high bit on all but the last, and no byte too many |
| Layouts.TxBytes | crates/godcoin/src/tx/mod.rs:129-193 | The front and the end of every transaction byte by byte, and what its identifier is a hash of |
| Layouts.OwnerBytes | crates/godcoin/src/tx/mod.rs:322-329 | An example with every byte written out |
| Layouts.MintBytes | crates/godcoin/src/tx/mod.rs:352-361 | The same for a mint |
| Layouts.CreateBytes | crates/godcoin/src/tx/mod.rs:389-396 | The same for a new account |
| Layouts.UpdateBytes | crates/godcoin/src/tx/mod.rs:418-438 | The same for updates of the script and of the permissions |
| Layouts.TransferBytes | crates/godcoin/src/tx/mod.rs:472-482 | The same for a transfer |
| Layouts.AccountBytes | crates/godcoin/src/account.rs:43-49 | The same for an account |
| Layouts.ReceiptBytes | crates/godcoin/src/blockchain/receipt.rs:74-114 | The same for a receipt and its log |
| Layouts.BlockBytes | crates/godcoin/src/blockchain/block.rs:98-116 | The same for a block |
| Layouts.GenesisScriptBytes | crates/godcoin/src/script/builder.rs:22-49 | The same for the script of the owner wallet: table, pointers and bodies |
| Layouts.TxBegins | crates/godcoin/src/tx/mod.rs:291-315 | Bytes that do not begin with the version and one of the five kinds are no transaction |
| Blocks.TakeBlockOf | crates/godcoin/src/blockchain/block.rs:98-138 | Decoding the bytes of a signed block whose vectors fit their prefixes, followed by anything, gives it back and stops at the rest |
| Blocks.TakeReceiptOf | crates/godcoin/src/blockchain/receipt.rs:74-91 | Decoding the bytes of a receipt that fits, followed by anything, gives it back and stops at the rest |
| Blocks.TakeLogEntryOf | crates/godcoin/src/blockchain/receipt.rs:102-130 | Decoding the bytes of a log entry, followed by anything, gives it back and stops at the rest |
| Blocks.TakeBlockHeaderOf | crates/godcoin/src/blockchain/block.rs:146-195 | Decoding the bytes of a block header, followed by anything, gives it back and stops at the rest |
| Transactions.TakeTxOf | crates/godcoin/src/tx/mod.rs:154-225 | Decoding the bytes of a transaction of any of the five kinds that fits, followed by anything, gives it back and stops at the rest |
| Transactions.UnsignedInjective | crates/godcoin/src/tx/mod.rs:129-140 | The bytes behind an identifier fix the transaction up to its signatures |
| Accounts.TakeAccountOf | crates/godcoin/src/account.rs:43-64 | Decoding the bytes of an account that fits, followed by anything, gives it back and stops at the rest |
| Accounts.TakePermissionsOf | crates/godcoin/src/account.rs:127-143 | Decoding the bytes of permissions with at most 255 keys, followed by anything, gives them back and stops at the rest |
| Crypto.TakeSigPairOf | crates/godcoin/src/serializer.rs:101-104 | Decoding a key with a signature, followed by anything, gives both back and stops at the rest |
| Serializer.TakeAssetOf | crates/godcoin/src/serializer.rs:61-78 | The zigzag variable-length form gives every 64-bit amount back |
| Serializer.TakeBytesOf | crates/godcoin/src/serializer.rs:84-91 | Length-prefixed bytes come back when their number fits 32 bits |
| Serializer.I64RoundTrip | crates/godcoin/src/serializer.rs:57-59 | Two's complement big-endian integers come back |
| Serializer.ShiftLeftIs | crates/godcoin/src/serializer.rs:150-171 | The shift of a seven-bit group in a 64-bit register is multiplication with the overflow cut off |
| Serializer.VarI64Length | crates/godcoin/src/serializer.rs:61-78 | A 64-bit amount takes at most ten bytes |
| Serializer.Buffer.PushVarI64 | crates/godcoin/src/serializer.rs:61-78 | The loop appends the variable-length form |
| Serializer.Buffer.PushBytes | crates/godcoin/src/serializer.rs:84-91 | Appends length and bytes |
| Serializer.Cursor.ReadExact | crates/godcoin/src/serializer.rs:11-20 | Reads exactly so many bytes or fails |
| Serializer.Cursor.TakeVarI64 | crates/godcoin/src/serializer.rs:150-171 | The loop reads the variable-length form and refuses one that is too long |
| Codecs.PushSigPair | crates/godcoin/src/serializer.rs:101-104 | Appends exactly the byte form of a key with a signature to the buffer |
| Codecs.SerializePermissions | crates/godcoin/src/account.rs:127-133 | Appends exactly the byte form of permissions to the buffer |
| Codecs.SerializeAccount | crates/godcoin/src/account.rs:43-49 | Appends exactly the byte form of an account to the buffer |
| Codecs.SerializeHeader | crates/godcoin/src/tx/mod.rs:284-289 | Appends exactly the byte form of the common header of a transaction to the buffer |
| Codecs.SerializeMint | crates/godcoin/src/tx/mod.rs:352-359 | Appends exactly the byte form of a mint to the buffer |
| Codecs.SerializeUpdate | crates/godcoin/src/tx/mod.rs:418-436 | Appends exactly the byte form of an update to the buffer |
| Codecs.SerializeTransfer | crates/godcoin/src/tx/mod.rs:472-480 | Appends exactly the byte form of a transfer to the buffer |
| Codecs.SerializePayload | crates/godcoin/src/tx/mod.rs:178-193 | Appends exactly the byte form of what belongs to the kind of transaction to the buffer |
| Codecs.SerializeWithoutSigs | crates/godcoin/src/tx/mod.rs:178-193 | Appends exactly the byte form of a transaction without signatures to the buffer |
| Codecs.SerializeTx | crates/godcoin/src/tx/mod.rs:154-176 | Appends exactly the byte form of a transaction to the buffer |
| Codecs.SerializeLogEntry | crates/godcoin/src/blockchain/receipt.rs:102-114 | Appends exactly the byte form of a log entry to the buffer |
| Codecs.SerializeReceipt | crates/godcoin/src/blockchain/receipt.rs:74-80 | Appends exactly the byte form of a receipt to the buffer |
| Codecs.SerializeBlockHeader | crates/godcoin/src/blockchain/block.rs:171-179 | Appends exactly the byte form of a block header to the buffer |
| Codecs.SerializeBlock | crates/godcoin/src/blockchain/block.rs:98-115 | Appends exactly the byte form of a signed block to the buffer |
| Codecs.CalcTxid | crates/godcoin/src/tx/mod.rs:129-140 | The identifier is the hash of the chain identifier and the bytes without signatures |
| Codecs.CalcReceiptRoot | crates/godcoin/src/blockchain/block.rs:244-253 | The root is one hash over the bytes of the receipts in order |
| Codecs.ReadBytes | crates/godcoin/src/serializer.rs:179-183 | Reads length-prefixed bytes from the cursor and stops behind it, or fails, as the decoder that the round trips are about |
| Codecs.ReadSigPair | crates/godcoin/src/serializer.rs:196-204 | Reads a key with a signature from the cursor and stops behind it, or fails, as the decoder that the round trips are about |
| Codecs.DeserializePermissions | crates/godcoin/src/account.rs:135-143 | Reads permissions from the cursor and stops behind it, or fails, as the decoder that the round trips are about |
| Codecs.DeserializeAccount | crates/godcoin/src/account.rs:51-64 | Reads an account from the cursor and stops behind it, or fails, as the decoder that the round trips are about |
| Codecs.DeserializeHeader | crates/godcoin/src/tx/mod.rs:291-310 | Reads version, kind and common header from the cursor and stops behind it, or fails, as the decoder that the round trips are about |
| Codecs.DeserializeMint | crates/godcoin/src/tx/mod.rs:363-378 | Reads a mint, whose attachment name must be well-formed text from the cursor and stops behind it, or fails, as the decoder that the round trips are about |
| Codecs.DeserializeUpdate | crates/godcoin/src/tx/mod.rs:440-458 | Reads an update from the cursor and stops behind it, or fails, as the decoder that the round trips are about |
| Codecs.DeserializeTransfer | crates/godcoin/src/tx/mod.rs:484-498 | Reads a transfer from the cursor and stops behind it, or fails, as the decoder that the round trips are about |
| Codecs.DeserializePayload | crates/godcoin/src/tx/mod.rs:199-213 | Reads what belongs to the kind of transaction from the cursor and stops behind it, or fails, as the decoder that the round trips are about |
| Codecs.DeserializeTx | crates/godcoin/src/tx/mod.rs:195-225 | Reads a transaction from the cursor and stops behind it, or fails, as the decoder that the round trips are about |
| Codecs.DeserializeLogEntry | crates/godcoin/src/blockchain/receipt.rs:116-130 | Reads a log entry from the cursor and stops behind it, or fails, as the decoder that the round trips are about |
| Codecs.DeserializeReceipt | crates/godcoin/src/blockchain/receipt.rs:82-91 | Reads a receipt from the cursor and stops behind it, or fails, as the decoder that the round trips are about |
| Codecs.DeserializeBlockHeader | crates/godcoin/src/blockchain/block.rs:153-195 | Reads a block header from the cursor and stops behind it, or fails, as the decoder that the round trips are about |
| Codecs.DeserializeBlock | crates/godcoin/src/blockchain/block.rs:117-138 | Reads a block from the cursor and stops behind it, or fails, as the decoder that the round trips are about |
| Frames.TornTail | crates/godcoin/src/blockchain/store.rs:119-179 | A scan of a log cut off anywhere finds exactly the blocks whose frames are whole, where they were written |
| Frames.TrimmedTail | crates/godcoin/src/blockchain/store.rs:144-173 | Trimming leaves exactly those frames, if and only if the torn rest does not have one to seven bytes |
| Leftovers.SecondRecovery | crates/godcoin/src/blockchain/store.rs:119-179 | A log is cut off, recovered with trimming, written to and scanned again: all that is in the file is found where it was written, if and only if no one to seven bytes were left; if they were, and do not pass for a frame by length and checksum, the second scan finds nothing of what was written behind them |
| Leftovers.AllFoundIff | crates/godcoin/src/blockchain/store.rs:119-179 | Any log, any bytes behind it and any further frames: a scan finds every block where it was written if and only if there are no such bytes, whatever the checksum |
| Frames.ScanFinds | crates/godcoin/src/blockchain/store.rs:119-179 | A scan of any well-formed frames, whatever their heights, cut off anywhere, finds the blocks before the first that is torn or fails the height check, where they were written |
| Frames.FoundInOrderIff | crates/godcoin/src/blockchain/store.rs:119-142 | For any file whatever: a scan finds blocks and their heights count up from 0, if and only if the first frame can be read and has height 0, and the second, if it can be read, has height 1 |
| Frames.LogInOrderIff | crates/godcoin/src/blockchain/store.rs:119-179 | For a log of well-formed frames of any heights, cut off anywhere: what is found is the longest front that is whole and passes the check, and it is in order if and only if its first two heights are 0 and 1 |
| Frames.GapAfterGenesis | crates/godcoin/src/blockchain/store.rs:134-134 | As the height check is off while the last good height is 0, a second block of any height is found behind the genesis block, out of order unless its height is 1 |
| Frames.WholeLog | crates/godcoin/src/blockchain/store.rs:119-179 | A log that is not cut off is found in full |
| Frames.ScanReads | crates/godcoin/src/blockchain/store.rs:119-142 | Everything a scan finds was read in front of the place where it ended |
| Frames.ReadsFrame | crates/godcoin/src/blockchain/store.rs:190-216 | Reading at the start of a frame gives its block and the start of the next |
| Frames.ReadsTorn | crates/godcoin/src/blockchain/store.rs:190-211 | A frame cut short is the end of the file below eight bytes and corrupt from eight on |
| Frames.FrameIsFrame | crates/godcoin/src/blockchain/store.rs:218-250 | What is written is length, checksum and bytes from which the block comes back |
| Caches.CacheNext | crates/godcoin/src/blockchain/store.rs:98-104 | When the cache is over its size the entry to drop is there, and the rest is again the cache of the newest hundred with at most 101 entries |
| Caches.CacheLoaded | crates/godcoin/src/blockchain/store.rs:252-266 | Loading the newest 101 entries at once gives such a cache |
| Stores.BlockStore.constructor | crates/godcoin/src/blockchain/store.rs:35-60 | Opening over a complete index loads a valid store |
| Stores.BlockStore.Get | crates/godcoin/src/blockchain/store.rs:67-80 | For every height up to the top the block written there, and nothing above |
| Stores.BlockStore.ReadFromDisk | crates/godcoin/src/blockchain/store.rs:181-188 | Reads at the indexed position |
| Stores.BlockStore.WriteToDisk | crates/godcoin/src/blockchain/store.rs:218-250 | Appends the frame of any signed block and moves the tail by its length, which the prefix keeps only to 32 bits |
| Stores.BlockStore.Insert | crates/godcoin/src/blockchain/store.rs:87-105 | Appends a signed block to log, cache and batch, at the old end of the file; every earlier block can still be read, and this one too if its byte form fits |
| Stores.BlockStore.InsertGenesis | crates/godcoin/src/blockchain/store.rs:107-117 | Writes a signed first block of an empty log at position 0, from where it can be read if its byte form fits |
| Stores.BlockStore.InitState | crates/godcoin/src/blockchain/store.rs:252-266 | Over any index: loads genesis block and the newest blocks, and fails exactly if one of them cannot be read at its indexed position; over the index of a written log the store is then valid |
| Stores.BlockStore.FillCache | crates/godcoin/src/blockchain/store.rs:258-264 | Caches a range of heights, failing exactly if one cannot be read |
| Stores.BlockStore.ReindexInto | crates/godcoin/src/blockchain/store.rs:119-175 | The loop puts exactly the scanned blocks, their positions and the funds after them into one batch, and trims the file; it fails exactly if the specified rebuild does |
| Stores.BlockStore.ReindexBlocks | crates/godcoin/src/blockchain/store.rs:119-179 | One commit stores the funds, positions and top height that the scanned blocks give, whatever their heights; loading them succeeds exactly if genesis and the newest can be read; where the first two frames of the file are in order the store is valid and holds them |
| Stores.RebuiltStored | crates/godcoin/src/blockchain/store.rs:119-179 | Everything rebuilt can be read back through the rebuilt positions |
| Indexes.Indexer.PurgeExpiredTxids | crates/godcoin/src/blockchain/index.rs:133-146 | Deletes exactly the identifiers whose expiry lies more than 30 seconds back |
| Indexes.Indexer.InsertTxid | crates/godcoin/src/blockchain/index.rs:128-131 | Stores an identifier with its expiry |
| Indexes.Indexer.GetAccount | crates/godcoin/src/blockchain/index.rs:98-104 | The stored account, or none |
| Indexes.WriteBatch.constructor | crates/godcoin/src/blockchain/index.rs:159-168 | An empty batch shows what is stored |
| Indexes.WriteBatch.Commit | crates/godcoin/src/blockchain/index.rs:170-215 | Stores exactly what the batch shows over the store, and nothing else |
| Indexes.WriteBatch.SetOwner | crates/godcoin/src/blockchain/index.rs:225-237 | The batch shows the new owner |
| Indexes.WriteBatch.AddTokenSupply | crates/godcoin/src/blockchain/index.rs:243-253 | The batch shows the larger supply, or the sum overflows |
| Indexes.WriteBatch.GetAccountMut | crates/godcoin/src/blockchain/index.rs:270-275 | Brings an account into the batch without changing what it shows; fails exactly if there is none |
| Indexes.WriteBatch.InsertOrUpdateAccount | crates/godcoin/src/blockchain/index.rs:266-268 | The batch shows the account |
| Indexes.WriteBatch.AddBal | crates/godcoin/src/blockchain/index.rs:255-258 | What the batch shows changes as adding to a balance does in the ledger, failing exactly where that fails |
| Indexes.WriteBatch.SubBal | crates/godcoin/src/blockchain/index.rs:260-263 | What the batch shows changes as subtracting from a balance does in the ledger, failing exactly where that fails |
| Indexes.IndexLog | crates/godcoin/src/blockchain/mod.rs:730-742 | What the batch shows changes as the log of a transfer changes the ledger, failing exactly where that fails: every account then holds what was sent to it, and an account that is destroyed has handed all of it over |
| Indexes.IndexReceipt | crates/godcoin/src/blockchain/mod.rs:704-746 | What the batch shows changes as a receipt of any kind changes the ledger, failing exactly where that fails |
| Indexes.IndexBlock | crates/godcoin/src/blockchain/mod.rs:688-702 | What the batch shows changes as a block changes the ledger, with the rewards going to the owner as of the block, failing exactly where that fails |
| Blockchains.PendingLog | crates/godcoin/src/blockchain/mod.rs:271-290 | The loop over a log gives the pending view after it: unless it closes the account, the balance grows by the Transfer entries that name it |
| Blockchains.PendingReceipt | crates/godcoin/src/blockchain/mod.rs:238-295 | One receipt changes the pending view as specified |
| Blockchains.CountPayments | crates/godcoin/src/blockchain/mod.rs:320-339 | Counts the receipts an account pays for |
| Blockchains.Blockchain.GetAccount | crates/godcoin/src/blockchain/mod.rs:235-299 | The loop over the receipts gives the pending view of the account |
| Blockchains.Blockchain.GetAccountFee | crates/godcoin/src/blockchain/mod.rs:316-355 | The backward loop with its early break counts the payments in the activity window |
| Blockchains.Blockchain.GetNetworkFee | crates/godcoin/src/blockchain/mod.rs:357-379 | The loop averages the receipts over the window and gives the fee in closed form |
| Blockchains.Blockchain.GetAccountInfo | crates/godcoin/src/blockchain/mod.rs:301-314 | Account and fees together, or none |
| Blockchains.Blockchain.EvalScript | crates/godcoin/src/blockchain/mod.rs:484-492 | A script is evaluated against the chain as it stands |
| Blockchains.Blockchain.GetOwnerWallet | crates/godcoin/src/blockchain/mod.rs:475-482 | The pending wallet of the indexed owner |
| Blockchains.Blockchain.ExecuteTx | crates/godcoin/src/blockchain/mod.rs:435-686 | Log, refusal or panic of a transaction are those specified, check by check |
| Blockchains.Blockchain.VerifyReceipts | crates/godcoin/src/blockchain/mod.rs:421-430 | Each receipt is executed again against its prefix |
| Blockchains.Blockchain.VerifyBlock | crates/godcoin/src/blockchain/mod.rs:392-433 | The checks on a block, in their order |
| Blockchains.Blockchain.Append | crates/godcoin/src/blockchain/mod.rs:381-390 | A block indexed in a batch is written at the end of the file, and one commit stores its position and the funds after it; identifiers and index status stay |
| Blockchains.Blockchain.InsertBlock | crates/godcoin/src/blockchain/mod.rs:381-390 | Verified, indexed, appended and committed, with chain, file and positions one block longer, or nothing changed; file and positions stay those of the chain, and the index status as it was |
| Blockchains.Blockchain.GetFilteredBlock | crates/godcoin/src/blockchain/mod.rs:181-233 | The whole block exactly if it concerns the filter, otherwise header and signer, failing exactly if there is then no signer |
| Blockchains.Blockchain.PreIndex | crates/godcoin/src/blockchain/mod.rs:91-112 | The accounts created in the genesis block are indexed first |
| Blockchains.Blockchain.InsertLive | crates/godcoin/src/blockchain/mod.rs:130-135 | Stores the identifiers of a block that have not expired |
| Blockchains.Blockchain.RebuildTxidIndex | crates/godcoin/src/blockchain/mod.rs:122-140 | The backward loop with its break adds exactly the specified identifiers |
| Blockchains.Blockchain.Reindex | crates/godcoin/src/blockchain/mod.rs:84-143 | Fails where replaying the log does; otherwise funds, file and positions are those it replays to and the index is complete, and where the first two frames of the file are in order it succeeds with the chain and the identifiers rebuilt |
| Blockchains.Blockchain.InsertFirst | crates/godcoin/src/blockchain/mod.rs:812-817 | The genesis block is written at position 0, and owner and wallet are indexed |
| Blockchains.Blockchain.CreateGenesisBlock | crates/godcoin/src/blockchain/mod.rs:748-818 | The chain afterwards is the specified genesis, and file and positions are those of its one block |
| Blockchains.Blockchain.GetChainHead | crates/godcoin/src/blockchain/mod.rs:168-172 | The last block of the chain |
| Filters.SentWholeIff | crates/godcoin/src/blockchain/mod.rs:181-233 | A block is sent whole if and only if one of its receipts has an account of the filter among its parties |
| Filters.OthersUnchanged | crates/godcoin/src/blockchain/mod.rs:704-746 | Indexing a receipt changes no account that is not among its parties |
| Filters.HeaderAloneIsEnough | crates/godcoin/src/blockchain/mod.rs:181-233 | A block answered with its header alone changes no account in the filter, except that the owner wallet is given the rewards |
| Filters.AnyReceiptMatches | crates/godcoin/src/blockchain/mod.rs:191-222 | The search over receipts finds a match exactly if there is one |
| Filters.AnyEntryMatches | crates/godcoin/src/blockchain/mod.rs:206-219 | The search over log entries finds a match exactly if there is one |
| Pools.ReceiptPool.Push | crates/godcoin/src/blockchain/receipt.rs:34-56 | State and answer after a push are those specified; the chain, its file and positions stay |
| Pools.ReceiptPool.Flush | crates/godcoin/src/blockchain/receipt.rs:58-63 | The whole pool is taken and expired identifiers are purged |
| Pools.ReceiptPool.constructor | crates/godcoin/src/blockchain/receipt.rs:20-27 | A new pool is empty |
| Pools.Minter.constructor | crates/server/src/server/minter.rs:18-37 | A minter for the owner's key starts with an empty pool |
| Pools.Minter.PushTx | crates/server/src/server/minter.rs:116-120 | Pushing through the minter is pushing into its pool |
| Pools.Minter.Produce | crates/server/src/server/minter.rs:58-114 | State and answer after producing are those specified, on every outcome; nothing is made exactly if neither the call nor the setting forces it, the pool is empty and so is the newest block; file and byte positions stay those of the chain, and the index status as it was |
| Servers.Employ | crates/server/src/server/minter.rs:18-37 | A minter is made if and only if the key is the indexed owner's minter |
| Servers.Start | crates/server/src/server/lib.rs:39-80 | Starting on no files gives genesis; on the complete index of a log, the state that was stored; on a log without index, what it replays to if rebuilding was asked for; on an incomplete index, nothing. The key decides in the same way each time |
| Servers.Restart | crates/server/src/server/lib.rs:39-80 | A new process over the files of one at work is valid again with the index complete, and its state is that of the specified restart |
| Servers.StartOver | crates/server/src/bin/server/main.rs:125-150 | So it is over the log alone, the index having been deleted, and its state is that of the specified reindexing |
| Servers.Serve | crates/server/src/server/lib.rs:39-80 | The objects of a server that starts on no files and does any sequence of pushes, blocks, restarts and reindexing are the state of the run, with a complete index and file and positions those of the log; it does all of them unless it is to start again with a key that is not the owner's |

## Left out

- Files, seeks and the key-value store: a log is a byte sequence, a column is a map of values, and a
  commit is one step. A crash between writing a frame and committing its position is not modelled, nor
  is the byte form in which accounts, owner and supply are stored.
- Byte positions and file lengths are unbounded; the source keeps them in 64 bits.
- Memory: capacities, reference counting, and the locks, which make every method one step.
- The position in a script error is a natural number, not cast to 32 bits, and the depth counter of
  conditionals is an integer, not 32 bits wide.
- The version wrappers around transactions and blocks have one variant each and are left away; the
  version numbers in the byte forms are kept.
- The chain identifier is that of the main network.
- Readings of the clock are at least 30 seconds, as the purge subtracts 30 from them.
- zigzag is written as arithmetic instead of shifts, and division by powers of ten as such.
- Printing and parsing of amounts, key generation, wallet files, the command line with its script
  tokenizer, remote calls, subscriptions, heartbeats and metrics: plumbing or easy round trips.
- `SkipFlags` and log lines have no effect on what is modelled.
- `get_properties`, `create_default` and plain accessors add only what the members they call state.
- Identifiers.NeverAdmittedTwice: runs without reindexing, as a rebuild keeps no identifier past its
  expiry; runs with reindexing are the subject of NoTransactionTwice and NeverLetInAgain, on a clock
  that does not fall back.
- Servers.Start: an empty log beside an index that is not new, a complete index of some other log, and a
  log without index whose first two frames are not in order are left out; what the rebuild makes of the
  last is stated by Stores.BlockStore.ReindexBlocks.
