# Qnero: verified models of the node's mining endpoint, the faucet and the circuit checks

A Dafny project that models the concurrent and the exacting parts of Qnero and
proves what they promise, for every interleaving, every input and every run.
`dafny verify dfyconfig.toml` checks all of it.

**The stratum endpoint and the mining loop** (`Stratum*.dfy`). `StratumModel`
is one state machine over the connection tasks, the `jobs` lock, the session
table, the duplicate set, the seal channel, the counters and the mining loop.
One action is what one task does between two points where another can run. A
schedule is any sequence of actions, and an action that cannot happen changes
nothing, so a statement about every schedule is a statement about every
interleaving. Four invariants are kept by all of its 35 actions: job delivery
(`StratumDelivery`), credit (`StratumCredit`), the operator's books
(`StratumSeals`) and what the tables hold (`StratumTables`). A second account of
the same runs is kept from the schedule alone and proved equal to the state: the
jobs published and what a lookup found among them (`StratumVerdicts`), every
counter and every sealed job (`StratumLedger`), the seals sent and taken
(`StratumChannel`) and the jobs queued to each connection (`StratumPushes`).
`StratumOutcomes` says what a whole submit, login and seal do, in every case.
`StratumTwice` exhibits the run that reaches the credit bound. `StratumLocks`
takes the three read-write locks apart into queues and proves that tasks which
take them in the endpoint's order never stand still together.

**One connection** (`LineReader`, `Liveness`, `SubmitBudget`,
`ConnectionSlots`). The cancel-safe line reader against the newline split of the
byte stream, the liveness deadline against the time accepted shares pay for, the
token bucket, and the two claims a connection holds on the endpoint.

**Difficulty and local mining** (`ShareTarget`, `MiningRounds`). The 256-bit
block rule against the 64-bit share rule, and where the wrapping 32-bit nonces
of the in-process miner fall over the rounds of a template, dropped rounds
included.

**The faucet** (`Faucet*.dfy`). `FaucetModel` is one state machine over the
request handlers, the bounded queue, the worker, and a process that may stop at
any point and recovers from its ledger. Clock readings are free parameters: they
may repeat, run backwards, or arrive late at a handler that was parked. On it
stand ownership (`FaucetOwners`), payments (`FaucetSends`), limits
(`FaucetWindows`) and recovery (`FaucetRecovery`). `FaucetDecisions` says which
requests are granted and what each row then says, in terms of the rows alone.
`FaucetStore` specifies each ledger update by what it does to the answers of the
queries.

**Addresses and circuits** (`Ss58`, `Goldilocks`, `Gadgets`, `ProofShape`,
`ProofAssignment`, `ProofCoverage`). The SS58 codec, the comparison gadgets as
statements about every witness of the gates they emit, and the proof-shape
preflight against what a zipped assignment covers.

Where something one would expect of the code is false, the project keeps the
code as it is, shows an input where it fails, and proves when it holds:

- A share can be credited twice without a clear of the duplicate set
  (`CreditedTwice`); a second credit needs a roll between a lookup and its insert.
- Two payments to one address can start within one cooldown
  (`PaidTwiceInOneCooldown`), because a send the wallet gave up waiting for is
  recorded as a failure that frees the address. A started claim counts exactly
  unless that happened (`StartedClaimCounts`).
- Not every share is a block wherever the fast submit refill applies: it holds
  exactly for difficulties from 1 to 2^64 (`FastRefillIff`).
- An accepted address need not be the one the encoder writes: three texts name
  each account (`ThreeTextsPerAccount`), and re-encoding gives the text back
  exactly when the first byte behind it is below 128 (`ReencodesIff`).
- A nonce repeats within a template exactly when the rounds no longer fit in the
  nonce space (`DistinctIff`).
- A shape mismatch need not leave a target or a value out of a zipped assignment
  (`HollowPartSlips`): it does exactly when the mismatch touches a leaf
  (`NothingLeftOutIff`), so for every mismatch where no part is hollow
  (`PreflightIsExact`).
- Tasks that take the locks in another order can deadlock (`OutOfOrderSticks`);
  those that keep it cannot (`OrderedNeverStuck`).
- A retry time given to an address is honoured exactly when its last claim is
  not dated ahead of the clock (`CooldownRetryIsHonest`).
- A refused claim on a slot leaves an entry of zero behind exactly when the cap
  per address is zero (`Endpoint.Claim`), which the command line refuses.

## Model

| member | source | states |
|---|---|---|
| `StratumDelivery.JobsArriveInOrder` | chain/node/src/stratum.rs:678-704 | in every interleaving of logins, re-logins, broadcasts and pauses, the jobs queued to one connection never go back to an older one |
| `StratumDelivery.ListedHoldsCurrent` | chain/node/src/stratum.rs:1008-1065 | whenever the `jobs` lock is free there is a current job if any session is listed, and each listed session was last queued exactly that job, unless the latest attempt to queue one failed |
| `StratumDelivery.PausedListsNobody` | chain/node/src/stratum.rs:723-737 | with no writer in, no current job implies an empty session table, whatever logins were under way when authoring paused |
| `StratumDelivery.DisabledHeadHasNoJob` | chain/node/src/service.rs:259-275 | at the head of the mining loop, authoring disabled implies that no job is current and nobody is listed |
| `StratumDelivery.MinedJobIsCurrent` | chain/node/src/service.rs:283-432 | while a template is mined or its seal submitted, its job is the current one |
| `StratumDelivery.Invariant` | chain/node/src/stratum.rs:678-737 | the invariant behind these: the lock is exactly what the tasks hold, jobs become current in counter order, a session has one owner for ever, a login under way holds the current job |
| `StratumCredit.CreditedAtMostTwice` | chain/node/src/stratum.rs:1074-1224 | for every schedule and share, credits never exceed two plus the number of times the duplicate set was cleared at its ceiling |
| `StratumCredit.CreditedAtMostOnce` | chain/node/src/stratum.rs:1089-1131 | one plus the clears, for a share no submit of which saw a roll or pause between its lookup and its insert |
| `StratumCredit.Invariant` | chain/node/src/stratum.rs:1337-1346 | per share: a live job's share entered the set once per clear, a dead job's at most once more through the one submit of its session still in flight |
| `StratumTwice.CreditedTwice` | chain/node/src/stratum.rs:1089-1131 | the bound of two is reached by a run with no clear at all |
| `StratumSeals.Invariant` | chain/node/src/stratum.rs:1181-1220 | in every state, candidates are exactly those sealed, superseded, in the channel, in the loop's hand, dropped on a full channel or counted and not yet passed on; and accepted is the number of credits |
| `StratumSeals.CountersAgree` | chain/node/src/stratum.rs:777-784 | sealed plus superseded never exceeds candidates, candidates never exceed accepted, and sealed never exceeds the templates published |
| `StratumSeals.SealedAtMostOnce` | chain/node/src/service.rs:412-431 | no template is sealed twice: each job occurs at most once among the sealed ones, it was published, and the sealed counter counts exactly them |
| `StratumSeals.QuiescentBooksBalance` | chain/node/src/service.rs:377-431 | with nothing under way, each candidate was sealed, superseded or dropped on a full channel |
| `StratumSeals.SubmittedSealIsOfItsTemplate` | chain/node/src/service.rs:392-426 | a rig's seal reaches submit only under the id of the template being mined, which is the current job |
| `StratumVerdicts.LiveJobsAreThePublished` | chain/node/src/stratum.rs:689-737 | the current job and the previous one are the last two that the schedule published, a pause publishing none |
| `StratumVerdicts.IsCurrentMeansCurrent` | chain/node/src/stratum.rs:386-394 | in every schedule, a submit under way counts as one for the current template exactly when its job was the current one at its lookup, and its job was live then; with no roll since, exactly when its job is the current one |
| `StratumVerdicts.BlockIsHandedOn` | chain/node/src/stratum.rs:1183-1220 | in every schedule, a block whose job was current at the lookup goes last into the channel under its own job and nonce, or is dropped when the channel is full; any other is superseded and leaves the channel alone |
| `StratumLedger.CountersAreTheBooks` | chain/node/src/stratum.rs:777-784 | in every schedule each counter, the drops and the multiset of sealed jobs are exactly the entries of the schedule: a job is sealed once for each submit the node accepted, and a seal is superseded for each late lookup, late compare, overtaken template and refused submit |
| `StratumLedger.BlocksBecomeCandidates` | chain/node/src/stratum.rs:1183-1220 | the hashes that met the block rule are exactly the candidates counted and those about to be counted |
| `StratumChannel.FirstInFirstOut` | chain/node/src/stratum.rs:752-758 | the mining loop has taken the seals in the order they were sent, each once, and the channel is the rest |
| `StratumChannel.SealsAreEarned` | chain/node/src/stratum.rs:1193-1203 | every seal in the channel or in the mining loop's hand carries the job and the nonce of a share that was credited |
| `StratumPushes.QueueIsTheSchedules` | chain/node/src/stratum.rs:689-704 | in every schedule, the jobs queued to a connection are exactly those of its login replies and of the pushes to its session that had room, each once and in order |
| `StratumPushes.PauseOutcome` | chain/node/src/stratum.rs:723-737 | a pause moves the current job into the grace slot, keeps exactly its shares in the duplicate set, empties the table and tells exactly the listed connections to close; a pause while already paused changes nothing |
| `StratumPushes.ToldOnlyLeaves` | chain/node/src/stratum.rs:895-903 | a connection that was told to close reads no further line: whatever it would do next but leave changes nothing |
| `StratumOutcomes.SubmitOutcome` | chain/node/src/stratum.rs:1074-1224 | the whole of a submit: refused exactly for a job that is neither current nor previous, a share seen before or a weak hash; otherwise credited once, and a block is last in the channel exactly if its job is current and there is room, and superseded exactly if its job is the previous one |
| `StratumOutcomes.LoginOutcome` | chain/node/src/stratum.rs:999-1072 | the whole of a login: without a job the connection ends and nothing else changes; with one, a new session is listed in place of the old one and its job is queued, or the connection ends for want of room |
| `StratumOutcomes.SealOutcome` | chain/node/src/service.rs:377-431 | the whole of a seal at the mining loop: the oldest is taken; for another job it is late and the template is mined on; for this one the template is over, and it was sealed exactly if the submit landed, and otherwise the seal is late |
| `StratumTables.SeenIsBoundedAndLive` | chain/node/src/stratum.rs:1337-1346 | the duplicate set is never above its ceiling, and outside a roll it holds only shares of the current and the previous job and those inserted after a roll since their lookup |
| `StratumTables.NobodyDropsOutSilently` | chain/node/src/stratum.rs:723-737 | a connection that logged in stays in the session table until it is over or told to close, and one that is over is not in it |
| `StratumLocks.EndpointNeverStuck` | chain/node/src/stratum.rs:689-729 | with the three locks explicit and first come first served, no interleaving of any number of broadcasts, pauses, logins, submits and disconnects has every busy task waiting on a lock, and two tasks that hold a lock share it |
| `StratumLocks.OrderedNeverStuck` | chain/node/src/stratum.rs:1087-1089 | the same of any programs that take their locks in rank order and end holding none |
| `StratumLocks.Invariant` | chain/node/src/stratum.rs:689-729 | a queue holds exactly the tasks that wait for its lock, each once, and two tasks that hold a lock share it |
| `StratumLocks.GrantedIff` | chain/node/src/stratum.rs:689-729 | in every state a lock serves the head of its queue exactly unless a task holds it and one of the two wants it alone |
| `StratumLocks.OutOfOrderSticks` | chain/node/src/stratum.rs:727-729 | a task that takes the session table before the jobs deadlocks with a login in some run |
| `LineReader.Receive` | chain/node/src/stratum.rs:904-926 | for any chunking and any cancelled waits, the lines handed on and the reason for stopping are those of the newline split of the byte stream up to the first over-long line |
| `LineReader.Connection.ReadOneLine` | chain/node/src/stratum.rs:1373-1400 | loses and invents no byte whatever it answers; a complete line is whole and within the limit, an over-long verdict has no newline within it, a cancelled read can be resumed, and the buffer holds at most the limit plus one chunk |
| `LineReader.FramesOf` | chain/node/src/stratum.rs:1373-1400 | whole lines followed by an end without one are cut back into exactly those lines |
| `LineReader.FramesCut` | chain/node/src/stratum.rs:1373-1400 | the cut gives whole lines that join back to the stream with an end that holds no further line, over-long exactly when it says so |
| `LineReader.ArrivalDoesNotMatter` | chain/node/src/stratum.rs:1360-1372 | splitting a read anywhere and cancelling in between leaves the stream and its end unchanged |
| `LineReader.EndIsTheFirst` | chain/node/src/stratum.rs:1373-1400 | the first empty read or error ends the stream under its own name, with what came before it and nothing after |
| `Liveness.Serve` | chain/node/src/stratum.rs:846-953 | the serve loop's clock, login and share instants and ending are those of the run of the turn function |
| `Liveness.LifetimeIsBounded` | chain/node/src/stratum.rs:854-900 | with k accepted shares and passes that take at most H beyond their wait, the loop is over by login + first share + k shares windows plus (k + 2) H, and without a login by the login window plus H |
| `Liveness.LongestIsReached` | chain/node/src/stratum.rs:854-900 | for every k that bound is attained by some peer |
| `Liveness.ClosedOnlyPastDeadline` | chain/node/src/stratum.rs:868-897 | a connection closed for no login or no share had that window run out |
| `Liveness.EndsIff` | chain/node/src/stratum.rs:846-953 | a turn ends the connection for a lapse exactly when its deadline has passed, naming what is missing, and otherwise exactly when its line came in time and is the end of the peer, a login without a job or room, or a line other than a blank whose answer does not fit |
| `Liveness.OnlyFatalLinesDrop` | chain/node/src/stratum.rs:942-952 | a peer that sends no such line is never dropped but for a lapse, over any run of turns |
| `Liveness.TurnTakes` | chain/node/src/stratum.rs:868-941 | a turn lasts its wait, never past the deadline, and its lag; only the first login that gets a job and good submits after it move the instants the deadline counts from |
| `Liveness.IdleLinesBuyNothing` | chain/node/src/stratum.rs:848-853 | any number of blank or unparsed lines, keepalives, refused shares, second logins and submits before the first one, good ones too, leaves the deadline where it was, and the connection is over by it |
| `SubmitBudget.Bucket.TakeAt` | chain/node/src/stratum.rs:461-471 | the bucket moves as the level function says and grants exactly when a token is there after the refill |
| `SubmitBudget.LevelStays` | chain/node/src/stratum.rs:451-471 | tokens stay between zero and the burst over any run of calls at any mix of rates |
| `SubmitBudget.GrantsArePaidFor` | chain/node/src/stratum.rs:461-471 | grants plus what is left never exceed what was there plus what the clock brought, for any calls at all |
| `SubmitBudget.NothingIsLost` | chain/node/src/stratum.rs:461-471 | for any calls, grants, what is left and what ran over the burst are together exactly what was there and what the clock brought, so a refusal takes nothing |
| `SubmitBudget.SpillsOnlyOver` | chain/node/src/stratum.rs:461-471 | nothing runs over where what was there and what came fit in the burst |
| `SubmitBudget.RefusedOnlyShort` | chain/node/src/stratum.rs:461-471 | while nothing runs over, a bucket left with less than a token has granted all but less than one of what was there and what came |
| `SubmitBudget.NoTimeNoTokens` | chain/node/src/stratum.rs:461-471 | a clock that has not moved, or has moved back, brings no token |
| `SubmitBudget.GrantsInAnyWindow` | chain/node/src/stratum.rs:121-138 | in any stretch of any run, grants are at most the burst plus the highest rate in the stretch times its length |
| `SubmitBudget.GrantsAtBothRates` | chain/node/src/stratum.rs:1115-1123 | with the endpoint's rates, any stretch of d seconds is granted at most 64 + 256 d submits, and at most 64 + 32 d where every call refills at the ordinary rate |
| `SubmitBudget.SpacedCallsAreGranted` | chain/node/src/stratum.rs:461-471 | a peer that waits for one token between calls is never refused |
| `SubmitBudget.BurstIsGranted` | chain/node/src/stratum.rs:116-122 | as many calls as there are tokens are granted, however fast they come |
| `ConnectionSlots.Endpoint.Accept` | chain/node/src/stratum.rs:594-634 | a connection is accepted exactly when a slot is free and its address is below its cap; a refusal for either reason holds nothing; held and free slots add up and the table counts the live claims |
| `ConnectionSlots.Endpoint.Claim` | chain/node/src/stratum.rs:1290-1303 | the address claim succeeds exactly below the cap, and a refusal leaves an entry nobody holds only where the cap is zero |
| `ConnectionSlots.Endpoint.Close` | chain/node/src/stratum.rs:1305-1315 | the end of a connection frees both claims, and the address leaves the table with its last one |
| `ShareTarget.HashAsLe` | chain/client/consensus/randomx/src/target.rs:29-35 | reversing the bytes and reading big-endian is the little-endian number, below 2^256 |
| `ShareTarget.BlockRule` | chain/client/consensus/randomx/src/target.rs:38-46 | the overflowing 512-bit product decides exactly whether hash times difficulty is below 2^256 |
| `ShareTarget.ShareIsABlock` | chain/client/consensus/randomx/src/target.rs:52-70 | a share at a difficulty is a block at the same difficulty |
| `ShareTarget.RulesDisagreeIff` | chain/client/consensus/randomx/src/target.rs:18-24 | the two rules part exactly where the top word equals the target and the other 192 bits are small enough |
| `ShareTarget.BlockThatIsNoShare` | chain/node/src/stratum.rs:1170-1179 | every difficulty has a block that fails as a share, so the block rule must be tried first |
| `ShareTarget.FastRefillIff` | chain/node/src/stratum.rs:1115-1120 | where the fast refill is chosen, every share is a block exactly for difficulties from 1 to 2^64 |
| `ShareTarget.ShareDifficultyIs` | chain/node/src/stratum.rs:790-795 | a job's share difficulty is the largest that is above neither the configured one nor the block's, fits in 64 bits and is at least one |
| `ShareTarget.ConfiguredWhereAllowed` | chain/node/src/stratum.rs:790-795 | it is the configured one exactly where that is not above the block difficulty, or is one |
| `ShareTarget.SmallerIsNoWorse` | chain/node/src/stratum.rs:1170-1179 | of two hashes the smaller is judged no worse, as a block, a share or too weak |
| `ShareTarget.BlockIsNeverRefused` | chain/node/src/stratum.rs:1170-1179 | a hash is judged a block exactly when it times the difficulty is below 2^256, whatever the share target says |
| `MiningRounds.TriesWalk` | chain/node/src/service.rs:138-141 | through all the wrapping, the try at a round, step and thread is the start plus its running number modulo 2^32 |
| `MiningRounds.DistinctIff` | chain/node/src/service.rs:361-375 | no nonce is tried twice in some rounds exactly when their tries fit in 2^32, for every start and thread count |
| `MiningRounds.Worker` | chain/node/src/service.rs:124-153 | a worker tries its sixteen nonces in order and stops exactly at the first that is good, that it fails to hash or that comes after the stop flag is seen; its seal is that last nonce exactly if it is good; without a machine it tries none |
| `MiningRounds.LocalRound` | chain/node/src/service.rs:105-165 | a completed round's seal is the last nonce of the first thread that met a good one; a completed round without one, whose machines all worked, has tried every offset of its block of sixteen nonces a thread; and while that block fits in 2^32 no nonce is tried at two places |
| `MiningRounds.MineTemplate` | chain/node/src/service.rs:361-383 | over the rounds of a template, dropped ones included, no nonce is tried at two places while the tries fit in 2^32, every round that came back without a seal has tried its whole block, and a seal found is good and was tried |
| `FaucetOwners.OneOwner` | faucet/src/http.rs:361-413 | while the faucet serves, a row is queued exactly when somebody carries it, and then one queue position, the worker or one handler does |
| `FaucetOwners.SettledIsFinal` | faucet/src/store.rs:417-439 | over any continuation of any run, stops and restarts included, a sent or failed row never changes, a submitted mark stays and no row changes its request, although no update checks a status |
| `FaucetOwners.Invariant` | faucet/src/worker.rs:387-465 | the invariant behind these: every job is a copy of the queued row it names, and the carrier on record does carry it |
| `FaucetSends.SendStartedAtMostOnce` | faucet/src/worker.rs:320-365 | over any run with any crashes and restarts a send is started at most once per claim |
| `FaucetSends.StartedClaimCounts` | faucet/src/store.rs:65-66 | a claim whose send was started counts against its address and client exactly unless the worker recorded a failure after the start |
| `FaucetSends.TotalIsWhatWasRecorded` | faucet/src/store.rs:532-539 | the ledger's total is the sum of the payments recorded as sent, in every reachable state |
| `FaucetWindows.LimitsHold` | faucet/src/http.rs:316-398 | in every reachable state and for any clock, counting rows of one address are a cooldown apart, and no client has more than its limit of counting rows in any closed window of the configured length |
| `FaucetWindows.PaymentsAreApart` | faucet/src/http.rs:361-398 | payments started to one address and not written off were asked for at least a cooldown apart |
| `FaucetDecisions.AllowedExact` | faucet/src/limits.rs:119-141 | both checks pass exactly when no counting row of the address is younger than the cooldown and the client has fewer counting rows than its limit since the window before now |
| `FaucetDecisions.DripIsGrantedIff` | faucet/src/http.rs:361-398 | a parked request gets its row, as asked for and dated when asked, exactly under that condition on the ledger at the decision; otherwise it is gone and nothing changed |
| `FaucetDecisions.RequestIsHeardIff` | faucet/src/http.rs:316-335 | the first check lets through exactly the requests the decision would grant on the same ledger |
| `FaucetDecisions.FirstInFirstOut` | faucet/src/worker.rs:415-432 | between two stops the worker has taken the jobs in the order they were put on the queue, each once, and the queue is the rest |
| `FaucetDecisions.MarkedRowSays` | faucet/src/store.rs:417-423 | in every reachable state, taking a job up marks its row and no other with the time of the mark, and starts no send |
| `FaucetDecisions.SentRowSays` | faucet/src/worker.rs:435-439 | a payment the wallet reports as included settles its row and no other, with the block it is in and the time of the record |
| `FaucetDecisions.FailedRowSays` | faucet/src/worker.rs:446-460 | a failure settles its row and no other, with the reason the wallet or the worker gave |
| `FaucetDecisions.BouncedRowSays` | faucet/src/http.rs:405-408 | a job the queue refuses fails its row and no other as refused by the queue, at the time of the request |
| `FaucetPaidTwice.PaidTwiceInOneCooldown` | crates/qnero-wallet/src/wallet.rs:2038-2092 | for every cooldown there is a run with two sends started to one address for requests of the same second |
| `FaucetLimits.CooldownRetryIsHonest` | faucet/src/limits.rs:119-128 | an address is refused until the time it was told and let through then exactly when its last claim is not ahead of the clock |
| `FaucetLimits.ClientRetryIsHonest` | faucet/src/limits.rs:131-141 | a refused client is told its limit and its window, and one that waits that window is let through exactly when fewer than the limit of its claims are dated now or later |
| `FaucetLedger.LastClaim` | faucet/src/store.rs:342-356 | the latest request time among the counting rows of an address, and none exactly when there is no such row |
| `FaucetLedger.ClaimsSince` | faucet/src/store.rs:360-371 | the number of counting rows of a client dated at or after a time |
| `FaucetLedger.QueuedClaims` | faucet/src/store.rs:510-529 | the queued rows, all of them, in row order |
| `FaucetStore.Store.RecordQueued` | faucet/src/store.rs:381-404 | the new row is queued last and is one claim more for its address and its client, for nobody else, and pays nothing |
| `FaucetStore.Store.Submitted` | faucet/src/store.rs:417-423 | the mark changes no limit and no total |
| `FaucetStore.Store.Sent` | faucet/src/store.rs:425-431 | a queued row leaves the queue, goes on counting in every limit, and adds its amount to the total |
| `FaucetStore.Store.Failed` | faucet/src/store.rs:433-439 | a queued row leaves the queue unpaid, and stops counting unless it was interrupted, in which case no limit changes |
| `FaucetStore.SameClaimKeepsLimits` | faucet/src/store.rs:342-371 | no limit answers differently when a row's outcome is overwritten by one that counts the same |
| `FaucetRecovery.RecoverQueuedClaims` | faucet/src/worker.rs:479-524 | the loop puts back exactly the oldest never-submitted rows up to the depth, in order, fails submitted ones as interrupted and the rest as refused by the queue, and touches no other row |
| `FaucetRecovery.RecoverRow` | faucet/src/worker.rs:487-522 | one turn of the loop does to ledger and queue what the run's own recovery step does |
| `FaucetRecovery.RecoveryIsExact` | faucet/src/worker.rs:479-524 | the same of every recovery that reaches its end in any run, whatever stopped the process and however often |
| `Ss58.PrefixRoundTrip` | faucet/src/ss58.rs:25-34 | packing a format and the decoder's arithmetic are inverse for every format below 16384 |
| `Ss58.PrefixIsCanonical` | faucet/src/ss58.rs:82-88 | a two-byte prefix is the one packing writes exactly when its first byte is below 128 and its format is at least 64 |
| `Ss58.Encode` | faucet/src/ss58.rs:45-51 | the address of every 32-byte account decodes to it |
| `Ss58.AcceptedSpellings` | faucet/src/ss58.rs:59-99 | the decoder answers an account exactly for three spellings of it, by first byte, each under its own checksum |
| `Ss58.FormatIsNamed` | faucet/src/ss58.rs:59-99 | an address of any format below 16384 with any two bytes for a checksum is mistyped exactly if they are not its checksum, and otherwise refused under its own format unless that is Qnero's |
| `Ss58.LengthIsNamed` | faucet/src/ss58.rs:70-78 | an address around anything but 32 bytes is refused with its length |
| `Ss58.OthersAreNoAddress` | faucet/src/ss58.rs:60-69 | a text is refused as not base58, or as too short with its length, exactly when it is |
| `Ss58.ReencodesIff` | faucet/src/ss58.rs:59-99 | an accepted address re-encodes to itself exactly when its first raw byte is below 128 |
| `Ss58.ThreeTextsPerAccount` | faucet/src/ss58.rs:59-99 | three different texts decode to each account |
| `Goldilocks.UniqueUpTo63` | crates/qnero-circuit/src/gadgets.rs:21-36 | bit strings of n bits that agree modulo the field's order are equal exactly when n is at most 63 |
| `Gadgets.Xor` | crates/qnero-circuit/src/gadgets.rs:12-19 | in every satisfying witness with bits on the inputs the output is the bit that says whether they differ |
| `Gadgets.ConstLessThanBits` | crates/qnero-circuit/src/gadgets.rs:44-70 | in every satisfying witness with bits on the wires the output says whether the constant is below the number they spell |
| `Gadgets.TracksDown` | crates/qnero-circuit/src/gadgets.rs:55-67 | one bit of the loop: if `lt` and `eq` compare the high bits in every witness, the new ones compare one bit more |
| `Gadgets.IsConstLessThan` | crates/qnero-circuit/src/gadgets.rs:74-83 | the gates force the target into n bits and the output to the comparison, and every witness whose target has n bits extends to them |
| `Gadgets.EnforceTargetLessThanConst` | crates/qnero-circuit/src/gadgets.rs:87-102 | a witness of the circuit so far extends to the new gates exactly when the canonical value of the target is below the bound |
| `Gadgets.Enforced` | crates/qnero-circuit/src/gadgets.rs:87-102 | the same as a statement about the gates alone, given that they force and admit the comparison |
| `Gadgets.DigestsAreEqual` | crates/qnero-circuit/src/gadgets.rs:105-116 | in every satisfying witness the output is the bit that says whether all four limbs agree |
| `ProofShape.EnsureProofShapeMatchesTargets` | crates/qnero-aggregator/src/artifacts.rs:246-428 | Ok exactly when proof and targets have the same shape at every depth, and otherwise an error whose two lengths are the true ones at the place it names |
| `ProofShape.EnsureFri` | crates/qnero-aggregator/src/artifacts.rs:325-428 | the same for the opening proof, through three levels of zipped loops |
| `ProofCoverage.NothingLeftOutIff` | crates/qnero-aggregator/src/artifacts.rs:234-245 | a zipped assignment leaves no target and no value out exactly when zipped vectors have equal lengths and the surplus of a longer list of parts holds no leaf |
| `ProofCoverage.PreflightIsExact` | crates/qnero-aggregator/src/artifacts.rs:246-428 | where no part is hollow, full coverage, coverage in place and equality of shapes are the same |
| `ProofCoverage.HollowPartSlips` | crates/qnero-aggregator/src/artifacts.rs:330-347 | one empty cap too many is a different shape that leaves nothing out |
| `ProofAssignment.EqualShapesAreCovered` | crates/qnero-aggregator/src/artifacts.rs:234-245 | after an Ok a zip-based assignment sets every target exactly once, to the proof's value in the same place |

## Left out

- RandomX, the block template, `MiningHandle`, import and sync: a submit has a boolean result, a hash verdict is a parameter, and a template's version is what `Leave` and `GiveUp` stand for.
- Plonky2 itself: `split_le`, `is_equal`, `connect` and the arithmetic gates are specified by what a satisfying witness of them is.
- Concurrency as code: the endpoint and the faucet are state machines over values rather than classes, one step per point where tasks can interleave. Atomics are single steps and memory ordering is not modelled.
- The state machine of `StratumModel` folds the `sessions` and `seen_shares` critical sections into single steps; `StratumLocks` is where those locks are explicit.
- FaucetOwners.OneOwner: the worker thread lives as long as the process. A worker that returns early or panics leaves the rows in the queue without an owner until the next start.
- MiningRounds.LocalRound: a thread whose virtual machine does not start, or whose hash fails, may leave nonces of its walk untried.
- A login draws its session number and lists it in one step, because no other task reads either in between.
- SubmitBudget.Bucket.TakeAt: arithmetic is over reals, so the rounding of `f64` is not modelled.
- Liveness.Serve: time is in whole units and a pass takes `lag` beyond its wait; the writer task and the drain after the loop are not part of it.
- FaucetRecovery.RecoverQueuedClaims: a queued row's address always decodes, because rows are only written for accounts, so the branch for an undecodable one is not modelled.
- SQLite errors, ignored write results, migrations and claim tokens: storage is taken to work.
- The faucet's configuration is the same across restarts.
- When the node pauses authoring: the mining loop may pause or resume at any turn, which covers every gate it applies.
- `ensure_funded`, `failure_code`, the wallet, Turnstile, routing and `phase_of`.
- JSON, hex, agent strings, log lines and the refusal log.
- The hash behind the SS58 checksum and base58 are parameters with the laws the codec needs.
- `commit_artifact_set` and the canonical artifact rebuilds: file I/O.
- The runtime pallets, the RPC servers, the web wallet, the explorer and the scripts.
