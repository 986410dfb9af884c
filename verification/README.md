# Verified model of the relayer and its neighbours

The backend runs an optimistic order book in front of a chain that can delay, drop, replace or revert
transactions. The matcher raises `Order.filled` at once and queues a relay job; the worker signs the job, commits
the signed bytes before it broadcasts them, rebroadcasts after a crash, replaces fees on the same nonce, and decides
from what a possibly lagging node shows whether a consumed nonce was its own. This project models that protocol as a
state machine over committed rows, chain and process memory, proves what every run of it keeps, and proves the
step-by-step code against it.

- `Relay` is the machine: orders, jobs, mined transactions per sender, what nodes may have pooled, Exchange counters
  and funds, and 25 events (matches, cancels, every commit of the worker, crashes, mining, key replacement, resyncs).
- `RelaySafety`, `FillLedger`, `CancelExposure` and `Funding` prove properties of all its runs. `Exactness` says, where
  such a property needs a hypothesis, for which steps and runs it holds without; `FillLedger`, `Funding`, `Allocation`,
  `Emissions` and `Indexer` have run-level equivalences of the same kind.
- `Worker` is the worker and the cancel route as a class whose methods assign the same rows step by step. Each method
  is proved to move the backend along a path of machine events, with other sessions and the chain interleaved where the
  code awaits, so the theorems about runs are theorems about these methods. `WorkerSpec` holds the whole new state each
  step must reach, as functions of the rows read and the node's answers, and what those rows keep over many steps: the
  fee columns and the ladder of replacements. `Matcher` does the same for the crossing engine, with an independent
  definition of price-then-id priority in raw prices, ids and quantities.
- `Nonce`, `Gas`, `Preflight` and `Amounts` are the allocator, the fee policy, the pre-send checks and the USDC
  arithmetic those steps use. `Allocation` runs the allocator over both tables it serves, relay jobs and distributions.
- `Emissions` (payments within the keys), `Indexer` (gap-free checkpoint with racing instances), `Fallback` (write-once
  oracle slots), `Scout` (fair rotation), `Schedule` (3/3 agreement) and `Usdc` (decimal printing) are the other parts,
  each with its own theorem.
- `Counterexamples` and the last sections of `Nonce`, `Allocation`, `Emissions` and `Indexer` hold concrete runs for
  the promises the code keeps only under a condition, beside lemmas that say exactly when it keeps them.

## Environment hypotheses

Hypotheses are flags of `Relay.Hyp` and `Emissions.Hyp`; each theorem names the flags it uses, and every behaviour a
flag does not exclude stays possible.

- A sender's nonces are mined in order and each at most once. This is built into the per-sender lines of mined
  transactions. Chain reorganisations are not modelled.
- A transaction's value stands for its hash; hashes are injective and signatures valid.
- One database transaction or guarded update is one atomic step; a step of the worker reads one chain snapshot
  (`Worker` additionally lets others run between its awaits).
- `steadyKey`: a replacement is signed with the key its job was sent with. Replacing the key only while no job is in
  flight is enough for it (`IdleKeySteady`).
- `freshBytes`: two jobs never sign byte-identical transactions.
- `currentReceipts`: a nonce is only settled as somebody else's when no receipt of the job exists. Exactly-once landing
  does not need it; soundness of `failed` and `cancelled` does.
- Makers may move funds and third parties may fill their orders at any time; `Funding` says exactly which such events
  keep in-flight jobs payable, and `FillLedger` which resyncs keep the exact ledger equation.
- `refusalFinal`: a first broadcast refused as underpriced or out of funds is in no pool (the contract of the node's
  answer in `RelayerWorker.Submit`).
- `Emissions.Hyp.refusalFinal` says the same of a refused distribution, and more: "nonce too low" on a first broadcast,
  from a pool's view or a block's, means that the transaction is in no pool and did not itself take that nonce. The
  worker treats that answer as ambiguous and needs nothing; the emissions route retires the row on it.
- `Emissions.Hyp.steadyBytes`: bytes are only broadcast while a live row holds them, or once their nonce is mined.
  `Emissions.Hyp.currentReceipts` is the counterpart of the relayer's flag. `ownBytes`, that keys share no bytes, is
  only used where payments are counted per key.
- Interleaving is left to `Others` in each class; its ghost constant `quiet`, where a statement names it, says that
  nobody else runs meanwhile.
- A node's mined nonce count may lag behind the chain; only being ahead of it is excluded.
- The worker reads its nonce floor before it takes the nonce lock, and a repeated request marks a distribution sent
  outside of it. `Nonce.Timely` states what is enough there: no resync or late hand-back below a still held nonce
  between the worker's read and its reserve, and no mark on a row whose nonce has gone to another one.
  `TablesUniqueIff` is exact and assumes nothing. The emissions route reads its floor under the lock and needs nothing.
- A resync of `filled` does not interleave with a match transaction (row locks).

## What the proofs found

- Replacing the relayer key while a job is in flight makes `_bump` sign the old nonce with the new account: both
  transactions can land (`RotatedKeyLandsTwice`; `BumpSafeIff` and, over runs, `InvariantIffSound` give the exact
  condition).
- Bytes that a node refuses and yet keeps land beside the job's next transaction (`RefusedBytesLandTwice`;
  `RefuseSafeIff`).
- Two jobs of one pair, fill, nonce and fee share their bytes after a returned nonce, and one landing confirms both
  (`SharedBytesConfirmTwice`). A signature or a replacement is safe exactly when no other row lists its hash, and a run
  keeps the invariant exactly when all of its signatures were such, replacements used the job's own key and refused
  bytes were dead (`SignSafeIff`, `BumpFreshIff`, `InvariantIffSound`).
- `_find_receipt` returns the first hash that has a receipt. When an older, reverted transaction's receipt shows up
  only after the job was settled and sent again, the job fails although its new transaction landed
  (`LateReceiptFailsLandedJob`). Failing is safe exactly when the job's nonce is mined, or nothing of it is pooled, and
  no own transaction filled there (`FailReceiptSafeIff`, over runs `DeadIffFailsSafe`).
- The Exchange lets anyone submit a match, so a third party can take the room of a pooled job while no maker moves
  anything (`OutsideFillStrands`; `ForeignBackedIff`). A withdrawal does the same (`WithdrawalStrands`;
  `MoveBackedIff`). Every in-flight job stays payable in every state exactly when no outside event does either
  (`RunBackedIff`).
- After a third party's fill, a resync counts it into `filled` (`ResyncMovesLedger`); the exact ledger equation holds
  throughout a run exactly when no resync changed anything (`ExactIffIdle`).
- The cancel route answers over the jobs it read. A job committed after that read and already cleared by the worker can
  still be signed (`StaleCancelExposes`); the answer is wrong exactly when a missed job is cleared, in flight or pooled
  (`CancelExposesIff`). A match that merely commits late is harmless.
- An emissions broadcast in doubt, a second one refused, and the worker's early floor read together re-issue a held
  nonce (`StaleFloorDuplicates`).
- A distribution is refused and hands its nonce back, another one takes it, and a repeat of the first request, answered
  "underpriced" for that very reason, marks the first row sent: two in-flight rows hold one nonce, under every
  hypothesis (`LateSentDuplicates`; `MarkUniqueIff`). Nonces are unique throughout a run exactly when each was free as
  a signature or a late mark brought it into flight (`TablesUniqueIff`).
- `_refresh` gives a distribution up on its mined nonce when no receipt was seen past the window, and a retry pays
  again (`LateReceiptPaysTwice`; `GiveUpSafeIff`, `ExpireSafeIff`). The receipt may lag; but it is also enough that the
  transaction mines between the receipt lookup and the nonce lookup of one call, with a node that never lags. So does a
  node that keeps refused bytes (`RefusedBytesPayTwice`), and a concurrent request that rebroadcasts a row after it was
  refused (`LateRebroadcastPaysTwice`); a broadcast is safe exactly when the nonce is mined or a live row holds the
  bytes (`BroadcastSafeIff`). Over runs, under no hypothesis: `InvariantIffSafe`.
- The idempotency key is not in the signed bytes: two keys of one payload can share a transaction, one landing
  satisfies both, and a retry of the first then pays again (`SharedKeysPayTwice`). Payments never outnumber the keys
  (`PaymentsWithinKeys`), and two payments signed for one key imply such sharing (`PaidTwiceShared`).
- Under policy `arbitrate`, a tick that sees its two slots on chain still arbitrates when votes cast after its first
  read make the preflight call revert, or when a lagging node answers "no agent majority" (`ArbitratesIff`,
  `ArbitratesOnVotes`). An arbitration can meet an opposite majority exactly while fewer than two slots hold its
  outcome (`OpposableIff`).
- The indexer commits a window without AMM points when the AMM's ABI fails to load (`MissingAbiLeavesGap`;
  `NoAbiKeepsIff`, over runs `HonestIffNothingLeft`), and off anvil a checkpoint still at zero lets a later tick start
  past the lookback (`StuckAtZeroLeavesGap`; `SkippedIff`).
- From a zero fee every replacement succeeds. On a chain with a base fee it becomes twice that fee, capped; it changes
  nothing exactly for a legacy quote, no or a zero base fee, or a zero cap (`BumpStuckIff`).

## Model

| member | source | states |
|---|---|---|
| RelaySafety.StepKeeps | backend/app/relayer/worker.py:8-20 | Every event of book, worker and chain keeps the relayer invariant: rows carry their own match, only the current nonce can still mine, pooled means recorded, and the Exchange counters cover every landed job; receipts may lag arbitrarily. |
| RelaySafety.RunInv | backend/app/relayer/worker.py:8-20 | The invariant holds in every state of every run. |
| RelaySafety.ExactlyOnce | backend/app/relayer/worker.py:327-368 | Of all transactions a job ever signed at most one lands, and once one has landed none of the others can still mine, over every run of sends, crashes, rebroadcasts, bumps, settlements and key replacements in which bumps use the key of their job. |
| RelaySafety.SignsOnlyWhenDead | backend/app/relayer/worker.py:699-716 | A job is signed under a new nonce only when nothing it signed before has landed or can still mine. |
| RelaySafety.TerminalAbsorbing | backend/app/relayer/queue.py:72-84 | Confirmed, failed and cancelled are absorbing, and a job's match and hash list are never rewritten. |
| RelaySafety.ConfirmedLandedOnce | backend/app/relayer/worker.py:377-404 | A confirmed job has exactly one landed transaction among its own hashes, and no other of them can land. |
| RelaySafety.DroppedNeverLands | backend/app/relayer/worker.py:405-412 | No transaction of a failed or cancelled job lands, neither before it became terminal nor later in the run (current receipts). |
| RelaySafety.CurrentReceiptKills | backend/app/relayer/worker.py:405-406 | A receipt without the fill on the job's current nonce proves that nothing the job signed landed or can land, however receipts lag. |
| RelaySafety.VerdictSound | backend/app/relayer/worker.py:537-551 | If the job's fill landed, "absent" is impossible, whatever receipts and logs the node has missed. |
| RelaySafety.ConfirmedCovered | backend/app/relayer/worker.py:538-549 | In every run the on-chain filled counters hold at least the fills of all confirmed jobs. |
| Exactness.SignSafeIff | backend/app/relayer/worker.py:812-831 | Without any hypothesis: recording a signature keeps the relayer invariant if and only if no other row lists the same hash. |
| Exactness.BumpFreshIff | backend/app/relayer/worker.py:584-593 | Recording a replacement keeps it if and only if no other row lists the same hash and it is signed with the key its job was sent with. |
| Exactness.RefuseSafeIff | backend/app/relayer/worker.py:843-851 | Taking a refused job back to pending keeps the invariant if and only if the refused bytes have not landed and cannot. |
| Exactness.InvariantIffSound | backend/app/relayer/worker.py:814-824 | Over any run, key replacements included, the invariant holds in every state exactly when every signature was fresh, every replacement used its job's key and every refused transaction was dead. |
| Exactness.SoundCovers | backend/app/relayer/worker.py:538-549 | In a run whose steps were all such, the on-chain counters hold at least the fills of all confirmed jobs, hypothesis or not. |
| Exactness.FailReceiptSafeIff | backend/app/relayer/worker.py:405-412 | Failing a job on a receipt without its fill leaves nothing of it landed or able to land if and only if no own transaction filled its nonce, and that nonce is mined or none of its transactions is pooled; receipts may lag. |
| Exactness.FailReceiptCheckIff | backend/app/relayer/worker.py:389-412 | Once the bytes were broadcast that is: the nonce is mined, and its receipt is not an own fill. |
| Exactness.FailedNeverLands | backend/app/relayer/worker.py:405-412 | A job failed while that check held never lands, in any state of the run, however receipts lag. |
| Exactness.DeadIffFailsSafe | backend/app/relayer/worker.py:405-412 | Over any run, nothing of a failed or cancelled job has landed or can in any state exactly when every job failed on a receipt passed that check. |
| Exactness.DroppedStaysOut | backend/app/relayer/worker.py:405-412 | In such a run no transaction of a failed or cancelled job lands, neither before nor after, however receipts lag. |
| Exactness.CurrentFailsSafe | backend/app/relayer/worker.py:370-375 | With current receipts every job that fails passes the check. |
| Exactness.IdleKeySteady | backend/app/relayer/worker.py:584-592 | When the key is only replaced while no job is in flight, every replacement is signed with its job's key. |
| FillLedger.FillConservation | backend/app/orderbook/matcher.py:7-10 | Under every interleaving, live fills <= filled <= amount for each order. |
| FillLedger.ExactIffIdle | backend/app/orderbook/matcher.py:7-10 | Over any run, filled is exactly the offchain, live and confirmed fills in every state if and only if no resync changed anything. |
| FillLedger.ResyncExactIff | backend/app/relayer/worker.py:619-641 | One resync keeps that equation if and only if it changes nothing. |
| FillLedger.ClampNeverFires | backend/app/relayer/queue.py:85-92 | A live job's fill is still inside both orders' filled, so the clamp at zero in the rollback never takes effect. |
| FillLedger.RollbackBalances | backend/app/relayer/queue.py:85-92 | Rolling a live job back returns exactly its fill to both orders and keeps the ledger. |
| FillLedger.ResyncBalances | backend/app/relayer/worker.py:619-641 | A resync from the chain keeps live fills <= filled <= amount. |
| CancelExposure.CancelAnswerSound | backend/app/orderbook/router.py:180-212 | When the cancel answers that no on-chain cancel is required, and no job it missed is in flight, cleared by the worker or pooled, no transaction carrying the order is in any pool in any state of the run, before or after the answer. |
| CancelExposure.CancelExposesIff | backend/app/orderbook/router.py:191-203 | After a "not required" answer some continuation puts a transaction carrying the order in a pool if and only if a job the route did not read is in flight, cleared by the worker or pooled already. |
| CancelExposure.RequiredIff | backend/app/orderbook/router.py:186-203 | Over a book that balances, and with every job read, an on-chain cancel is required exactly when the order traded off-chain or one of its jobs ever signed, is claimed or is confirmed. |
| CancelExposure.CancelledRows | backend/app/orderbook/router.py:180-203 | Exactly the pending jobs read on the order end cancelled, each order gets back exactly their fills, and nothing else changes. |
| CancelExposure.CancelReturns | backend/app/orderbook/router.py:196-203 | Over a book that balances the clamp takes none of the returned fills. |
| CancelExposure.ExposableIff | backend/app/orderbook/router.py:187-195 | A cancelled order can still be exposed exactly when one of its transactions is pooled, or a job on it is in flight or cleared for signing. |
| CancelExposure.StepWriteAhead | backend/app/relayer/worker.py:819-832 | Every event keeps write-ahead: each pooled transaction is in the committed hash list of a job with that match. |
| Funding.AlwaysExecutable | backend/app/relayer/preflight.py:8-11 | In a run whose outside events left open claims covered, every transaction that can still mine passes the Exchange's funds and overfill checks in every state, so in-flight jobs stay executable in any mining order. |
| Funding.RunBackedIff | backend/app/relayer/worker.py:731-752 | In every state the unmined in-flight jobs of a buyer total at most its USDC balance and allowance, those of a seller at most its tokens, and each order's on-chain plus in-flight fill at most its amount, if and only if every third-party fill left that room and every move of funds covered the open claims; jobs failed on a receipt passed their check. |
| Funding.StepBackedIff | backend/app/relayer/worker.py:661-752 | The same for one step: no event of book, worker or block takes backing away, an outside event exactly when it leaves too little. |
| Funding.ForeignBackedIff | backend/app/orderbook/router.py:9-13 | A third party's fill keeps the backing if and only if the order keeps room for every open fill on it. |
| Funding.MoveBackedIff | backend/app/relayer/worker.py:661-681 | A move of funds or allowances keeps it if and only if the new funds cover every open claim. |
| Funding.PassiveLeaves | backend/app/relayer/preflight.py:8-11 | Makers who never withdraw, and third-party fills that leave room, are enough over a whole run. |
| Funding.PrepareBacked | backend/app/relayer/worker.py:661-681 | Preflight counting what is in flight keeps that backing when a further job is cleared for sending. |
| Relay.MatchMoves | backend/app/relayer/preflight.py:121-164 | A landed match between two traders moves the tokens from seller to buyer for the volume at the maker's price; the taker alone bears the fee, on top of what it pays or out of what it gets; nobody else's holdings move. |
| Counterexamples.RotatedKeyLandsTwice | backend/app/relayer/worker.py:584-592 | A key replaced in flight: two transactions of one job land. |
| Counterexamples.BumpSafeIff | backend/app/relayer/worker.py:584-593 | Broadcasting a replacement leaves only the job's own nonce able to mine if and only if it is signed by the job's sender or the new key has already used up that nonce. |
| Counterexamples.RefusedBytesLandTwice | backend/app/relayer/worker.py:843-851 | A node that keeps the bytes it refused: two transactions of one job land. |
| Counterexamples.SharedBytesConfirmTwice | backend/app/relayer/worker.py:519-551 | Two jobs with byte-identical transactions: one landing confirms both, more than the Exchange filled. |
| Counterexamples.LateReceiptFailsLandedJob | backend/app/relayer/worker.py:370-375 | A late receipt of an older hash fails a job whose new transaction landed. |
| Counterexamples.OutsideFillStrands | backend/app/orderbook/router.py:9-13 | A third party's fill leaves a pooled job without room, while nobody moved funds. |
| Counterexamples.WithdrawalStrands | backend/app/relayer/preflight.py:8-11 | A withdrawn allowance leaves a pooled job unpayable. |
| Counterexamples.ResyncMovesLedger | backend/app/relayer/worker.py:619-641 | A resync after a third party's fill breaks the exact ledger equation. |
| Counterexamples.StaleCancelExposes | backend/app/orderbook/router.py:180-194 | A cancel that read its jobs before a match committed answers "not required", yet the order's signature is broadcast. |
| Worker.RelayerWorker.RollbackJob | backend/app/relayer/queue.py:65-102 | Acts only on the status the caller saw and only on a live job, then lowers both orders by the job's fill; otherwise nothing changes. |
| Worker.RelayerWorker.FindReceipt | backend/app/relayer/worker.py:370-375 | The first hash of the list that has a receipt, or none has one. |
| Worker.RelayerWorker.Accounted | backend/app/relayer/worker.py:540-548 | The loop's sum is the confirmed fill on the order. |
| Worker.RelayerWorker.FillVerdict | backend/app/relayer/worker.py:519-551 | "Landed" exactly when a log of an own hash is shown; "absent" exactly when none is and one side's counter has no room beyond the confirmed jobs; under the invariant never of a landed job. |
| Worker.RelayerWorker.ApplyReceipt | backend/app/relayer/worker.py:389-412 | Status after a receipt: failed unless it holds the fill, confirmed at the required depth, else still sent; a path of machine events. |
| Worker.RelayerWorker.NonceConsumedStep | backend/app/relayer/worker.py:466-481 | "Nonce too low" leaves the job in flight or ends it on one of its own receipts; it never goes back to pending. |
| Worker.RelayerWorker.SettleConsumed | backend/app/relayer/worker.py:483-517 | Back to pending if and only if the window passed, the mined nonce the node shows is past the job's, no own log is shown and the fill is absent; that nonce may lag behind the chain. |
| Worker.RelayerWorker.Rebroadcast | backend/app/relayer/worker.py:432-464 | The recorded bytes go out when due; accepted, known and underpriced answers make the job sent; no answer makes it pending. |
| Worker.RelayerWorker.BumpFee | backend/app/relayer/worker.py:553-604 | A replacement on the same nonce is recorded before its broadcast exactly when the transaction can be rebuilt and the fee policy allows one; the row then holds one attempt more, this time and the very fee it was signed with, and the bytes go out. |
| Worker.RelayerWorker.Reconcile | backend/app/relayer/worker.py:327-368 | One in-flight job against one view of the node: the whole new state and nonce cache, case by case. A replacement raises the attempts by one, is sent now, and the stored fees are those of the last hash; a job left in flight has made one more `Tick` of the bump ladder; the stored fees of every in-flight job stay the fees inside its raw transaction; always a path of machine events. |
| Worker.ReconcileKeeps | backend/app/relayer/worker.py:553-604 | Whichever way a reconcile goes, every in-flight row of the table keeps: last hash, raw bytes, nonce and fee columns agree. |
| WorkerSpec.BumpedStored | backend/app/relayer/worker.py:573-593 | A replacement starts from the stored fee, so both of its fees are at least a tenth above those of the hash before it, and what it stores is the fee it signs. |
| WorkerSpec.BumpLadder | backend/app/relayer/worker.py:553-604 | However often a job in flight is reconciled, its new hashes are all under one nonce, each raises both fees of the one before by a tenth, its columns hold the last fee, and there are at most as many as attempts were left. |
| Worker.RelayerWorker.RetryOrFail | backend/app/relayer/worker.py:237-246 | Fails exactly when the attempts are used up, else stays pending for later; no hash changes. |
| Worker.RelayerWorker.RecheckFill | backend/app/relayer/worker.py:699-716 | A job that signed before goes on exactly when the logs were read, show nothing of its own and the fill is absent; a shown fill confirms it. |
| Worker.RelayerWorker.CheckMatch | backend/app/relayer/worker.py:718-752 | The job's status after the order, halt and preflight checks, and that it goes on exactly when all of them pass. |
| Worker.RelayerWorker.PriceSend | backend/app/relayer/worker.py:755-799 | A fee quote under the cap comes out exactly when gas, fees and the relayer's balance allow it. |
| Worker.RelayerWorker.ClaimAndSign | backend/app/relayer/worker.py:801-831 | Only a job still pending is claimed; then the row is exactly the one of a new transaction with its nonce, hash, raw bytes and the quote it was signed with, recorded before any broadcast, and the cache is past that nonce. When signing raises, no row changes and the nonce is handed back. |
| Worker.RelayerWorker.NonceFloor | backend/app/relayer/worker.py:170-187 | The floor over the in-flight jobs of this account and the nonces the query on the distributions returns. |
| Worker.RelayerWorker.FirstBroadcast | backend/app/relayer/worker.py:832-857 | The job goes back to pending exactly when the node refuses the bytes; otherwise they count as pooled. |
| Worker.RelayerWorker.Refused | backend/app/relayer/worker.py:843-851 | A proven refusal returns the job to pending and hands the nonce back or resyncs it, without touching any pool. |
| Worker.RelayerWorker.Pooled | backend/app/relayer/worker.py:833-842 | Every other answer keeps the job's nonce and hashes, and never makes it pending. |
| Worker.RelayerWorker.Send | backend/app/relayer/worker.py:693-857 | The whole new state for each way a send ends. One new transaction, with the quoted fee and a nonce at or above the floor over both tables, is recorded exactly when every check passed, signing did not raise and nobody cancelled the job in between; then the stored fees are those of the new hash, and a taken or known answer leaves the job sent, one attempt higher and sent now. When nobody else runs, a job that passes every check is always signed. Others run while it is priced, before the lock and before the broadcast; a path of machine events. |
| Worker.SendKeeps | backend/app/relayer/worker.py:825-857 | However a send ends, every in-flight row of the table keeps its last hash, raw bytes, nonce and fee columns in agreement. |
| WorkerSpec.SignedStored | backend/app/relayer/worker.py:206-216 | A first signature is on record with exactly its quote, which the two columns give back. |
| WorkerSpec.AnsweredCarries | backend/app/relayer/worker.py:832-857 | Whatever the node answers to a first broadcast, the stored fee and the hashes stay; an accepted one costs one attempt and is timed now. |
| Worker.RelayerWorker.Cancel | backend/app/orderbook/router.py:180-212 | Flags the order, rolls back exactly its pending jobs in id order, and answers what the exposure rule says of the rows before the rollbacks. |
| Worker.RelayerWorker.ResyncFill | backend/app/relayer/worker.py:619-641 | filled becomes the on-chain fill plus the live jobs' fill, capped at the amount, and nothing else changes. |
| Worker.RelayerWorker.RetireSides | backend/app/relayer/worker.py:606-659 | Exactly the sides whose own state failed (both when resolved, never for an overfill) are cancelled, and a re-match is due exactly for an innocent, open, unfilled taker of a culprit maker. |
| Exactness.SoundRun | backend/app/relayer/worker.py:814-824 | A run of these steps is a run under `freshBytes` and `steadyKey` whenever every step was sound. |
| Worker.OthersUndisturbed | backend/app/relayer/worker.py:803-811 | What the worker may rely on while others run: they only cancel pending jobs, add rows, and let the chain grow. |
| Preflight.Committed.AddMatch | backend/app/relayer/preflight.py:49-58 | Adds one match's spend, tokens and fill to exactly the buyer, the seller's asset and the two orders. |
| Preflight.CommittedOf | backend/app/relayer/worker.py:661-681 | The dictionaries hold exactly the totals of all other in-flight jobs. |
| Preflight.Short | backend/app/relayer/preflight.py:70-74 | The reason is added hard exactly when the chain cannot cover the need, busy exactly when it covers the need but not what is in flight on top, and no other reason appears or disappears. |
| Preflight.OrderState | backend/app/relayer/preflight.py:102-118 | Exactly the reasons against one order are added: expired, stale nonce, cancelled on chain, and no room for the fill, hard without and busy with what is in flight. |
| Preflight.PreflightMatch | backend/app/relayer/preflight.py:121-164 | A reason is listed exactly when it holds against the match: each cause with its side, hard against the chain alone, busy on top of what is in flight. So there is none exactly when the chain covers the match on top of everything in flight, a hard one exactly when it would fail against the chain alone, and a side is at fault exactly when the market resolved, its own order failed, or it lacks what it must bring. |
| Amounts.ReservationBound | backend/app/relayer/preflight.py:29-38 | For any split of a buy order into fills at or below its limit, what it paid plus what the rest reserves never exceeds the reservation of the whole order, despite floors and ceilings. |
| Amounts.NeedLeast | backend/app/relayer/preflight.py:29-38 | The reservation is the least volume covering the limit price plus the least fee covering that volume's share. |
| Nonce.NonceManager.Reserve | backend/app/relayer/nonce.py:23-36 | Hands out the cache, or the pending count when it is empty, raised to the floor, and moves the cache one past it. |
| Nonce.NonceManager.Resync | backend/app/relayer/nonce.py:38-41 | The cache becomes the node's pending count. |
| Nonce.NonceManager.Release | backend/app/relayer/nonce.py:43-46 | Only the last nonce handed out is taken back. |
| Nonce.NonceManager.Invalidate | backend/app/relayer/nonce.py:48-50 | The cache is forgotten. |
| Nonce.Floor | backend/app/relayer/worker.py:170-187 | One past the highest of the nonces, and None exactly when there is none. |
| Nonce.NoncesUnique | backend/app/relayer/nonce.py:23-50 | Over every sequence of reserves, hand-backs, releases, resyncs, late marks and invalidations by worker and emissions, whatever the node counts as pending, no two in-flight rows hold one nonce, as long as every move is timely. |
| Nonce.UniqueIffFree | backend/app/relayer/nonce.py:23-50 | Over any such sequence, nonces are unique throughout if and only if each was held by nobody when it was taken. |
| Nonce.LockedFloorUnique | backend/app/emissions/router.py:315-324 | A floor read under the lock needs no assumption at all. |
| Nonce.ReserveUniqueIff | backend/app/relayer/worker.py:801-812 | The worker's reserve keeps nonces unique if and only if no in-flight row holds the nonce it is about to take, whatever the cache holds. |
| Nonce.EarlyFloorIff | backend/app/relayer/worker.py:801-812 | The floor test that suffices: the reserve lies above every held nonce exactly when the floor read early, or the cache (the pending count when it is empty) at reserve time, does. |
| Nonce.StaleFloorDuplicates | backend/app/relayer/worker.py:801-812 | Without that, a concrete interleaving re-issues a held nonce. |
| Allocation.StepMoves | backend/app/relayer/nonce.py:23-50 | Each event of relayer and route, a late "sent" included, moves the nonces held by the in-flight rows of both tables exactly as its allocator call says. |
| Allocation.TablesUniqueIff | backend/app/relayer/worker.py:801-831 | Over every run of both services, under no assumption, no two in-flight rows of one account ever hold the same nonce if and only if every nonce was free when a signature or a late "sent" brought it into flight. |
| Allocation.TablesUnique | backend/app/relayer/worker.py:801-831 | Over every run of both services, no two in-flight rows of one account, jobs and distributions together, hold the same nonce, as long as every step is timely. |
| Allocation.SignUniqueIff | backend/app/relayer/worker.py:801-831 | A signature keeps nonces unique exactly when no in-flight row of either table holds its nonce. |
| Allocation.MarkUniqueIff | backend/app/emissions/router.py:147-157 | Marking a distribution sent keeps nonces unique exactly when it still holds its nonce, or no in-flight row of either table does. |
| Allocation.LateSentDuplicates | backend/app/emissions/router.py:140-157 | A repeat of a refused request marks its row sent after another distribution took the nonce: two in-flight rows hold it, whatever hypotheses hold. |
| Allocation.HeldNonces | backend/app/relayer/worker.py:170-187 | The two floor queries together read exactly the nonces the in-flight rows hold. |
| Gas.QuoteWellPriced | backend/app/relayer/gas.py:23-34 | Every fresh quote keeps tip <= max fee <= cap. |
| Gas.BumpRaises | backend/app/relayer/gas.py:37-55 | A replacement keeps that ordering and raises both fees by at least a tenth. |
| Gas.BumpExact | backend/app/relayer/gas.py:37-55 | A replacement is refused exactly when the least raise a node accepts is over the cap; otherwise the tip is the least such raise, and the max fee the least one too, lifted to a doubled base fee plus tip as far as the cap goes. |
| Gas.StoreReload | backend/app/relayer/worker.py:206-216 | Storing and reloading a well-priced quote loses nothing, legacy or not. |
| Gas.BumpChain | backend/app/relayer/worker.py:573-593 | Through any chain of quote, store, reload and bump the ordering holds, each step raises both fees by a tenth, and from a positive fee at most cap minus fee bumps succeed. |
| Gas.BumpStuckIff | backend/app/relayer/gas.py:37-55 | For every base fee: a replacement changes nothing exactly when the fee is zero and the quote is a legacy one, the base fee is missing or zero, or the cap is zero; a zero fee is otherwise replaced by twice the base fee, capped. |
| Gas.GasLimitCovers | backend/app/relayer/gas.py:58-63 | A limit comes out exactly for a positive estimate under the cap; it is the least one covering the estimate with its buffer, or the cap. |
| Matcher.Engine.Take | backend/app/orderbook/matcher.py:49-58 | The guarded update adds the quantity only to an open row with room, and refreshes the copy either way. |
| Matcher.Engine.GiveBack | backend/app/orderbook/matcher.py:61-68 | Undoes this session's own take exactly. |
| Matcher.Engine.FillOne | backend/app/orderbook/matcher.py:98-114 | At most two tries; a maker is passed over only when nothing was left by the rows as read or both tries were lost to others; both rows gain the same quantity or neither does, whoever else runs; alone it is the smaller remainder. |
| Matcher.Engine.Makers | backend/app/orderbook/matcher.py:89-93 | Exactly the eligible resting orders, stated in the columns of the rows: for a buyer the lower price first, for a seller the higher, at one price the lower id. |
| Matcher.Engine.TryMatch | backend/app/orderbook/matcher.py:71-149 | Whoever else runs, every locked row holds its fill at the lock plus this call's fills, never over its amount, and each fill has its own job. Alone, stated in raw prices, ids and quantities: a buyer's fills go by rising price, a seller's by falling, equal prices by rising id, nobody left out would have been served before any of them, and they end only when the taker or every eligible order is used up; the events and rows after are exactly those fills. |
| Matcher.AllocationMeaning | backend/app/orderbook/matcher.py:89-118 | All makers filled before the last are exhausted, every crossing maker not filled comes after all that were in the walk's order, and filling stopped because the taker or every crossing maker was exhausted. |
| Matcher.AllocationByPriority | backend/app/orderbook/matcher.py:89-118 | The same in raw prices, ids and quantities: each fill is on an eligible order, all but the last take its whole room, prices never get better along the fills, equal prices go by id, and no untouched eligible order would have come before a filled one. |
| Matcher.PriorityFillUnique | backend/app/orderbook/matcher.py:91-101 | Price priority with exhaustion determines every quantity: only the greedy allocation has it. |
| Matcher.GreedyIsPriority | backend/app/orderbook/matcher.py:91-101 | The greedy allocation never fills a worse maker while a better one has room, and exhausts the taker or the makers. |
| Matcher.FillIsEvent | backend/app/orderbook/matcher.py:30-46 | A fill between two open crossing orders is enabled as the machine's match event and has its effect. |
| Emissions.StepKeeps | backend/app/emissions/router.py:67-158 | Every event keeps: one live row per payload and key, and every transaction that landed or can land held by a live row of its payload. |
| Emissions.PaymentsWithinKeys | backend/app/emissions/router.py:312-386 | Over every run of requests, retries, polls, ambiguous broadcasts and failures, the landed payments of a payload never outnumber the keys under which it was requested and not given up, whatever bytes keys share. |
| Emissions.InvariantIffSafe | backend/app/emissions/router.py:67-158 | Under no hypothesis, the invariant holds in every state of a run if and only if each broadcast was of held bytes or a mined nonce, and each row given up was dead, held elsewhere, or confirmed under another row. |
| Emissions.SafePaysWithinKeys | backend/app/emissions/router.py:312-386 | As long as every step so far was such, payments never outnumber the keys, under no hypothesis. |
| Emissions.PaidTwiceShared | backend/app/emissions/router.py:321-343 | Two payments signed for one key imply that another key's live row holds the bytes of one of them. |
| Emissions.AtMostOnePayment | backend/app/emissions/router.py:312-386 | When keys share no bytes, at most one mined transaction pays a payload under one key, over every run of requests, retries, polls, ambiguous broadcasts and failures. |
| Emissions.InvariantIffSteady | backend/app/emissions/router.py:140-158 | Without the hypothesis on rebroadcasts, a run keeps the invariant in every state exactly when every broadcast was of bytes a live row holds or whose nonce is mined. |
| Emissions.SteadyPaysOnce | backend/app/emissions/router.py:140-158 | When keys share no bytes and every broadcast so far was such, no payload is paid twice under one key, without that hypothesis. |
| Emissions.BroadcastSafeIff | backend/app/emissions/router.py:147-151 | Broadcasting a row keeps the invariant if and only if its nonce is mined or a live row holds the same transaction. |
| Emissions.GiveUpSafeIff | backend/app/emissions/router.py:362-371 | Giving a row up keeps the invariant if and only if it was not live, its transaction neither landed nor can, or another live row holds it too. |
| Emissions.RetryOnlyWhenDead | backend/app/emissions/router.py:321-343 | A new row is recorded only when no earlier transaction of its payload and key landed or can land, except as the bytes of another key's live row. |
| Emissions.ExpireSafeIff | backend/app/emissions/router.py:85-88 | Giving a row up on its mined nonce keeps the invariant if and only if its own transaction is not what landed, or another live row holds it. |
| Emissions.LateReceiptPaysTwice | backend/app/emissions/router.py:85-88 | When a row is given up while its receipt was not seen, a run pays twice. |
| Emissions.LateRebroadcastPaysTwice | backend/app/emissions/router.py:147-151 | With a rebroadcast after a refusal, a run pays twice. |
| Emissions.RefusedBytesPayTwice | backend/app/emissions/router.py:357-361 | When a node keeps bytes it refused, a run pays twice. |
| Emissions.SharedKeysPayTwice | backend/app/emissions/router.py:326-343 | Two keys of one payload share bytes: one landing satisfies both, and a retry of the first key pays again. |
| Emissions.Distributor.Refresh | backend/app/emissions/router.py:67-90 | Moves exactly this row on, to the status its receipt or its mined nonce gives. |
| Emissions.Distributor.LiveRow | backend/app/emissions/router.py:121-137 | Answers the last row that is still live after the refresh, or none of the payload and key is; every row of the table becomes exactly what its receipt or mined nonce makes of it. |
| Emissions.Distributor.Duplicate | backend/app/emissions/router.py:140-158 | Answers by the status it read, signs nothing, and sends only the bytes of a row read as sending, others having run in between; the rows, the pool and the response are exactly what the node's answer makes of them. |
| Emissions.Distributor.SendRaw | backend/app/emissions/router.py:147-151 | The row's bytes reach a node; the run leaves the steady machine exactly when no live row holds them and their nonce is not mined. |
| Emissions.Distributor.MinedEarlier | backend/app/emissions/router.py:93-118 | Answers exactly the newest failed row of the payload with a successful receipt; it did land, and when none is found and receipts are current, no failed row of the payload landed. |
| Emissions.Distributor.FirstBroadcast | backend/app/emissions/router.py:352-384 | What each answer of the node, "nonce too low" from a pool's view included, makes of the recorded row, the response, the pool and the nonce cache, others having run since the commit, as a path of machine events; a status the unique index refuses is rolled back. |
| Emissions.Distributor.Locked | backend/app/emissions/router.py:315-351 | Under the lock: a row is recorded exactly when neither the check nor the insert met a live row of the payload and key; it carries this sender, payload, fee and the nonce reserved on the floor, and the response is the one the node's answer prescribes. A conflict means that a row of the payload and key is in the table. |
| Emissions.Distributor.ReserveNonce | backend/app/emissions/router.py:324-324 | The nonce is reserved on the floor over the in-flight rows of both tables, read under the same lock. |
| Emissions.Distributor.SignAndSend | backend/app/emissions/router.py:325-386 | Others having run since the check: the row is recorded exactly when the index admits it; otherwise the reserved nonce goes back, nothing is signed or sent, and a row of the payload and key is in the table. |
| Emissions.Distributor.Insert | backend/app/models.py:249-258 | The insert succeeds exactly when no live row of the payload and key exists. |
| Emissions.Distributor.Distribute | backend/app/emissions/router.py:263-386 | With others running before the lock, before the insert, before the node's answer and before a duplicate's send, the route is a path of machine events. When no live row of the payload and key shows up at its two checks and its insert, exactly one new row with this sender, payload and fee is recorded, and the response is what the node's answer prescribes; when nobody else runs that is whenever the table has no live row of payload and key; otherwise nothing is recorded, and a conflict implies a row of the payload and key. |
| Indexer.ResolveStartBlock | backend/app/indexer/listener.py:188-202 | A tick never starts at or before its checkpoint. |
| Indexer.SkipsIff | backend/app/indexer/listener.py:188-202 | A tick leaves blocks out exactly when the configured floor is ahead, or off anvil when the checkpoint is zero and the head past the lookback. |
| Indexer.PlanRanges | backend/app/indexer/listener.py:205-215 | Consecutive windows from the start, each full unless it ends at the end, up to the end or the chunk limit. |
| Indexer.StepKeeps | backend/app/indexer/listener.py:374-388 | Every event of any instance keeps: points are those of log entries, and every block behind the checkpoint or behind an instance's next window is complete or was skipped. |
| Indexer.NeverBack | backend/app/indexer/listener.py:374-388 | Over any run the checkpoint never moves back, not even for an instance that read an older one. |
| Indexer.IndexedExactly | backend/app/indexer/listener.py:526-608 | Between two blocks behind the checkpoint with none skipped between them, the table holds exactly the points of one pass over those blocks, for any number of racing instances, failures and crashes. |
| Indexer.EventStored | backend/app/indexer/listener.py:526-608 | Over every run, a readable event behind the checkpoint and outside the skipped blocks has its point: its block's time, one half for a seed, the pool's price at the end of the block for a swap. |
| Indexer.SkippedIff | backend/app/indexer/listener.py:331-371 | Under one configuration blocks are ever skipped exactly when some tick started from a checkpoint stuck at zero. |
| Indexer.NoAbiKeepsIff | backend/app/indexer/listener.py:440-445 | A window committed without the AMM contract keeps the checkpoint honest if and only if the table already has the key of every readable AMM log entry of the window outside the skipped blocks. |
| Indexer.HonestIffNothingLeft | backend/app/indexer/listener.py:440-445 | Over any run, ABI failures included, the checkpoint stays honest in every state exactly when no such window left a readable entry unstored. |
| Indexer.MissingAbiLeavesGap | backend/app/indexer/listener.py:245-251 | A run with one such window leaves an event behind the checkpoint without a point. |
| Indexer.StuckAtZeroLeavesGap | backend/app/indexer/listener.py:188-202 | A run whose first tick fails on a young chain never indexes block 1. |
| Indexer.Instance.IndexAmm | backend/app/indexer/listener.py:526-587 | Inserts the window's entries in order, all of them on success and a prefix on failure; it fails exactly when the node withholds logs, a block time or a pool price that an entry not yet stored needs. |
| Indexer.Instance.AdvanceCheckpoint | backend/app/indexer/listener.py:374-388 | The row moves forward to the block or stays. |
| Indexer.Instance.Window | backend/app/indexer/listener.py:300-309 | Succeeds exactly when the node answers all that the window needs; then points and checkpoint are in one commit, else what was stored so far is kept and the checkpoint held before the window; a path of machine events. |
| Indexer.Instance.IndexOnce | backend/app/indexer/listener.py:262-311 | A tick is a path of machine events with other instances between its commits. A leader with a known head on a healthy node succeeds; a tick without failure has the checkpoint at the head or a full window per allowed chunk further and doubles the window up to its maximum; a failed tick met a node failure in a planned window, with every window before it committed, and halves the window down to its minimum. |
| Fallback.SendsAgree | oracles/resolve/fallback.py:135-148 | All resolveFallback sends, by any ticks at any times, are for one outcome. |
| Fallback.OpposableIff | contracts/src/ConsensusOracle.vy:220-228 | An arbitration for an outcome can still meet two slots for the other one if and only if fewer than two slots on chain hold it. |
| Fallback.Oracle.SubmitAttestation | oracles/resolve/fallback.py:113-128 | A slot is written once; a filled one stays as it is. |
| Fallback.Oracle.ResolveFallback | oracles/resolve/fallback.py:144-148 | May only be called with two slots on chain already holding the outcome, and records such a send. |
| Fallback.AttestAll | oracles/resolve/fallback.py:93-130 | Afterwards every matching agent's slot is submitted, the supporters are exactly the matching agents whose slot on chain holds the outcome, in report order, and what was sent is attestations of that outcome alone, those mined being the ones it lists; it raises only over a call that was deferred or failed, or over a duplicate no re-read shows. |
| Fallback.ResolveSend | oracles/resolve/fallback.py:168-182 | Sends exactly one resolving call, of the kind asked for, and raises over a failed one only when no re-read says resolved; without an exception the market is resolved, by this send or by somebody else's. |
| Fallback.Decide | oracles/resolve/fallback.py:135-156 | The reason follows from the attestations in, the votes read at the start and the contract's preflight reason: conflict on two slots against, fallback on two slots for unless votes or preflight block it, arbitration exactly where policy and caller allow it and the blocker is a missing majority or opposing votes; and one resolving call is sent exactly for a resolved, an arbitrated or a lost one. |
| Fallback.ArbitratesIff | oracles/resolve/fallback.py:135-156 | A tick may arbitrate exactly when it is allowed to, no two slots oppose it, and there are no two slots for it, or two thirds of the votes oppose the agents, or the preflight call says one of these. |
| Fallback.ArbitratesOnVotes | oracles/resolve/fallback.py:144-152 | With a node that does not lag, a tick knowing two slots for its outcome arbitrates only on two thirds of the votes against the agents, read at the start or at the preflight call. |
| Fallback.MajoritySeen | contracts/src/ConsensusOracle.vy:197-218 | With two slots on chain for an outcome the contract's preflight never says that there is no majority, and says that votes oppose exactly on two thirds of them. |
| Fallback.RunFallback | oracles/resolve/fallback.py:48-156 | With other ticks between all calls it keeps the rule of `SendsAgree`, sends nothing before the window, on a resolved market or against a majority, attests only agents that matched the outcome, concludes only from slots on chain that include every matching agent's, reports exactly the supporters on chain, and the sends of its own are exactly those its answer names. |
| Fallback.ArbitrateIff | oracles/consensus/fallback.py:18-28 | Arbitration is forced exactly by two thirds of the votes against the agents. |
| Fallback.HoldingIsCount | oracles/consensus/fallback.py:6-15 | The majority's count over submitted outcomes is the number of slots holding the outcome. |
| Scout.SelectTargets | oracles/scores/job.py:120-172 | The filter, tier and selection loops compute the first `cap` wanted games of the recent tier followed by the rotated backlog. |
| Scout.TiersPartition | oracles/scores/job.py:139-150 | A card is in the first tier exactly when its market is listed and its kickoff recent or unknown, in the second exactly when it is listed and older, in terms of its own fields. |
| Scout.OldestFirst | oracles/scores/job.py:131-134 | Both tiers list the oldest games first, ties by id in alphabetical order. |
| Scout.RecentFirst | oracles/scores/job.py:149-172 | The cap holds, every selected game is listed and lacks a final or fresh score, and a backlog game is only selected when every recent game that needs a score is. |
| Scout.SparedCapTakesAll | oracles/scores/job.py:154-172 | A tick with cap to spare selects every listed game that needs a score. |
| Scout.EveryGameReached | oracles/scores/job.py:151-153 | Over one turn of the rotation, with the backlog fixed and a slot free after the recent tier, every backlog game that stays wanted is selected at some tick. |
| Schedule.AgreedGames | oracles/schedule/scout.py:147-169 | Publishes exactly the rows that are in every report and alone in their matchup, withholds exactly the other reported rows, each once and in schedule order, whatever order the set is walked in. |
| Schedule.PublishedIff | oracles/schedule/scout.py:157-166 | Field by field: a row is published exactly when every report has it and no other row that every report has is of the same season, week and teams. |
| Schedule.ListedInOrder | oracles/schedule/scout.py:143-144 | Both lists go by season, week, kickoff, away and home team, names in alphabetical order. |
| Schedule.PublishedUnambiguous | oracles/schedule/scout.py:150-151 | No two published rows share a matchup, and every published row is in every report. |
| Schedule.Partition | oracles/schedule/scout.py:166-168 | Every reported row is on exactly one of the two lists. |
| Schedule.OrderIndependent | oracles/schedule/scout.py:143-169 | Reports holding the same rows, in any order of reports and rows, publish the same list. |
| Usdc.RoundTrip | web/src/features/listing/listing.ts:105-121 | Every safe non-negative amount parses back from its printed form. |
| Usdc.PrintsApart | web/src/features/listing/listing.ts:115-121 | Corollary of the round trip: different safe amounts print differently. |
| Usdc.Canonical | web/src/features/listing/listing.ts:105-121 | Corollary of the round trip: any accepted text has the value of the canonical text printed for it. |
| Usdc.AcceptedIff | web/src/features/listing/listing.ts:105-113 | Of the texts made of digits, or of digits on either side of one dot, exactly those with a digit, at most six decimals and a safe value parse, to the value of their digits. |
| Usdc.AcceptedSplits | web/src/features/listing/listing.ts:107-108 | Every text that parses is of that form. |
| Usdc.FloatFloorExact | web/src/features/listing/listing.ts:117-117 | The floor of the rounded quotient is the exact one for every safe amount. |

## Left out

- Chain reorganisations: mined transactions stay mined; the required confirmation depth only delays confirming.
- Keccak, EIP-712, ECDSA, ABI encoding and JWTs: hashes are injective values, signatures are given.
- SQLAlchemy, Postgres and advisory-lock plumbing: a transaction or guarded update is one step, the leader lock one
  worker.
- The Vyper contracts: only the effects the preflight mirrors (filled counters, transfers, write-once slots).
- The tick loop, error texts, log lines and counters of the worker: only the fields that steer control flow are kept.
- Trade rows, and volume and fee in the matcher's fill summary: recomputed where money moves, so they carry no state.
- Order expiry, Exchange nonces, on-chain cancels, token approvals, resolution and trading halts: facts given to a
  step.
- Gas limits inside transaction bytes: part of what `freshBytes` is about; they do not steer any branch of the
  protocol.
- The post-revert preflight and the re-match after a retired side: the machine allows their events at any time, and
  `RetireSides` says when they are due; they are not chained into one method.
- Worker.RelayerWorker.Send: the checks up to preflight read one snapshot of rows and chain; the machine's `Prepare` is
  one step.
- Worker.RelayerWorker.Reconcile: the node's answers are about one state of the chain, except around a replacement's
  broadcast; that a job ends after finitely many ticks is not stated, only that its replacements are bounded.
- Matcher.Engine.TryMatch: other sessions' job rows are not in its job list, and a row this session has locked cannot
  be moved by others.
- Emissions.AtMostOnePayment: keys that share bytes are excluded here, as two such payments can be signed for one key
  (`SharedKeysPayTwice`); `PaymentsWithinKeys` is the statement without that condition.
- Allocation.TablesUnique: the allocator runs over both tables as one machine; the trails of `RelayerWorker` and
  `Distributor` are tied to the relay and emissions machines, and their allocator calls to the manager's contracts, not
  to one joint trail.
- Fallback.RunFallback: an RPC failure of a read, the preflight call included, ends the tick with that exception.
- Indexer: factory events, market rows and listing reviews; the pool price is an uninterpreted function of market and
  block (floating-point `pm_price_micros` included).
- Scout.SelectTargets: the clock is in whole seconds.
- Schedule.AgreedGames: the withheld list's order among rows that tie in the schedule order follows the reports and is
  not claimed to be independent of them.
- Usdc.RoundTrip: trimming of the input text and non-integral amounts are left out.
- Agent prompts, search, score extraction, redaction, authentication, KYC, ramps, user interface and deploy scripts.
