/**
 What one step of the relayer worker does to its job's row, to the pool and to both orders, as functions of the rows it
 read and of what the node said; and what these rows keep over many steps.
 */
module WorkerSpec {
  import opened Options
  import opened Relay
  import opened Preflight
  import Gas
  import Nonce

  /** Node's answer to a raw transaction, as classify_rpc_error sorts it. */
  datatype Reply = Taken | AlreadyKnown | TooLow | Underpriced | NoFunds | Unclear

  datatype Verdict = LandedBy(tx: Tx) | Maybe | Gone

  datatype Settings = Settings(
    maxAttempts: nat, resubmitAfter: nat, backoff: nat, poll: nat, confirmations: nat, fees: Gas.FeeSettings)

  datatype Estimate = GasOf(units: nat) | Reverts | Unavailable

  /**
   What the node says during one reconcile of one job. `None` is an RPC failure; `rebuildable` says that both order rows
   and the gas limit are on record.
   */
  datatype ReconcileView = ReconcileView(
    receipts: Option<set<Tx>>, reply: Reply, recheck: Option<set<Tx>>, depth: nat,
    latest: Option<nat>, logs: Option<seq<Tx>>, base: Option<Option<nat>>, rebuildable: bool)

  /**
   What the node says during one send. `dists` is what the floor query on the distributions returns, and `signs` whether
   the signing call succeeds.
   */
  datatype SendView = SendView(
    logs: Option<seq<Tx>>, halted: bool, preflightUp: bool, facts: Facts, estimate: Estimate,
    base: Option<nat>, tip: nat, gasPrice: Option<nat>, balance: Option<nat>,
    dists: seq<nat>, pending: nat, signs: bool, reply: Reply, recheck: Option<set<Tx>>, depth: nat)

  /** Receipts and logs a node shows are real; it may miss some. */
  predicate Genuine(s: State, receipts: Option<set<Tx>>) {
    receipts.Some? ==> forall tx :: tx in receipts.value ==> IsMined(s, tx)
  }

  predicate GenuineLogs(s: State, logs: Option<seq<Tx>>) {
    logs.Some? ==> forall tx :: tx in logs.value ==> Landed(s, tx)
  }

  /** No receipt of this job is missing. */
  predicate Complete(s: State, job: Job, receipts: Option<set<Tx>>) {
    receipts.Some? ==> forall tx :: tx in job.txs && IsMined(s, tx) ==> tx in receipts.value
  }

  // ------------------------------------------------------------------ conditions

  /** `tx` is the first of `hashes` with a receipt. */
  ghost predicate FirstIn(hashes: seq<Tx>, receipts: set<Tx>, tx: Tx) {
    && tx in receipts
    && exists k :: 0 <= k < |hashes| && hashes[k] == tx && forall i :: 0 <= i < k ==> hashes[i] !in receipts
  }

  /** One more hash: the same match on the same nonce, signed by `account` with `fee`. */
  ghost predicate Replaced(before: Job, after: Job, account: nat, fee: Fees) {
    && before.nonce.Some? && after.nonce == before.nonce
    && after.txs == before.txs + [MatchTx(before, account, before.nonce.value, fee)]
  }

  /** One more hash: this job's match, signed by `account` with `nonce` and `fee`. */
  ghost predicate SignedOne(before: Job, txs: seq<Tx>, account: nat, nonce: nat, fee: Fees) {
    txs == before.txs + [MatchTx(before, account, nonce, fee)]
  }

  /** Its nonce came from the allocator, raised to the floor over `held`, whatever the cache was by then. */
  ghost predicate SignedAbove(before: Job, txs: seq<Tx>, account: nat, held: set<nat>, pending: nat, fee: Fees) {
    exists next, f ::
      Nonce.IsFloor(held, f) && SignedOne(before, txs, account, Nonce.Reserved(next, f, pending), fee)
  }

  /** In flight under this sender: the rows the nonce floor counts. */
  predicate HoldsNonce(job: Job, sender: nat) {
    InFlight(job) && job.sender == sender && job.nonce.Some?
  }

  function JobNonces(jobs: seq<Job>, sender: nat): set<nat> {
    set i | 0 <= i < |jobs| && HoldsNonce(jobs[i], sender) :: jobs[i].nonce.value
  }

  lemma OneMoreNonce(jobs: seq<Job>, job: Job, sender: nat)
    ensures JobNonces(jobs + [job], sender) ==
      JobNonces(jobs, sender) + if HoldsNonce(job, sender) then {job.nonce.value} else {}
  {
    var all := jobs + [job];
    forall n | n in JobNonces(jobs, sender) ensures n in JobNonces(all, sender) {
      var i :| 0 <= i < |jobs| && HoldsNonce(jobs[i], sender) && jobs[i].nonce.value == n;
      assert all[i] == jobs[i];
    }
    if HoldsNonce(job, sender) {
      assert all[|jobs|] == job;
    }
  }

  /** A node shows a fill log of one of the job's own transactions. */
  predicate OwnLog(job: Job, logs: seq<Tx>) {
    exists tx :: tx in logs && tx in job.txs
  }

  /** A node shows a receipt of one of the job's own transactions. */
  predicate Shown(job: Job, receipts: Option<set<Tx>>) {
    receipts.Some? && exists tx :: tx in job.txs && tx in receipts.value
  }

  /** Both orders open, the market trading, and the chain covers the match on top of everything in flight. */
  predicate Passes(s: State, j: nat, v: SendView)
    requires j < |s.jobs| && |s.onchain| == |s.orders| && Sides(s, s.jobs[j].taker, s.jobs[j].maker)
  {
    && !s.orders[s.jobs[j].taker].cancelled && !s.orders[s.jobs[j].maker].cancelled
    && !v.halted && v.preflightUp && Fine(v.facts) && Affordable(s, j)
  }

  /** The relayer can price the transaction under its caps and pay for it. */
  predicate Payable(v: SendView, cfg: Settings) {
    && v.estimate.GasOf? && Gas.GasLimit(v.estimate.units, cfg.fees).Some?
    && (v.base.Some? || v.gasPrice.Some?) && Gas.QuoteFees(v.base, v.tip, v.gasPrice, cfg.fees).Some? && v.balance.Some?
    && var q := Gas.QuoteFees(v.base, v.tip, v.gasPrice, cfg.fees);
    v.balance.value >= Gas.GasLimit(v.estimate.units, cfg.fees).value * q.value.maxFee
  }

  /** Nothing shows that an earlier transaction of the job landed. */
  predicate Unlanded(s: State, j: nat, v: SendView)
    requires j < |s.jobs| && |s.onchain| == |s.orders|
  {
    s.jobs[j].txs != [] ==> v.logs.Some? && !OwnLog(s.jobs[j], v.logs.value) && Absent(s, j)
  }

  /** A stuck job's bytes are due for another broadcast. */
  predicate KeepAliveDue(book: Book, cfg: Settings, now: int) {
    now - TimeOf(book.sentAt) >= cfg.resubmitAfter && now >= book.nextAt
  }

  /** The write-ahead bytes of a claimed job are due for a rebroadcast. */
  predicate Unconfirmed(job: Job, now: int) {
    job.status == Sending && now >= job.book.nextAt
  }

  /** Sent, out of attempts, and due to be kept alive. */
  predicate Stuck(job: Job, cfg: Settings, now: int) {
    && job.status == Sent && job.consumedAt == None
    && job.book.attempts >= cfg.maxAttempts && KeepAliveDue(job.book, cfg, now)
  }

  /** What a visible receipt makes of its job. */
  function ReceiptStatus(s: State, tx: Tx, depth: nat, confirmations: nat): Status {
    if !Landed(s, tx) then Failed else if confirmations <= 1 || depth >= confirmations then Confirmed else Sent
  }

  /** The nonce went to someone else, for all the node shows: the window passed, it is mined, and the fill is absent. */
  predicate Settleable(s: State, j: nat, v: ReconcileView, window: nat, now: int)
    requires j < |s.jobs| && |s.onchain| == |s.orders|
  {
    var job := s.jobs[j];
    && job.status == Sent && job.consumedAt.Some? && now >= job.consumedAt.value + window
    && v.latest.Some? && job.nonce.Some? && v.latest.value > job.nonce.value
    && v.logs.Some? && !OwnLog(job, v.logs.value) && Absent(s, j)
  }

  /** Sent, timed out, attempts left, and the cap leaves room for a replacement. */
  predicate Replaceable(job: Job, v: ReconcileView, cfg: Settings, now: int) {
    && job.status == Sent && job.consumedAt == None && job.book.attempts < cfg.maxAttempts
    && now - TimeOf(job.book.sentAt) >= cfg.resubmitAfter
    && v.rebuildable && v.base.Some? && Gas.BumpFees(Gas.Reload(job.book.fees), cfg.fees, v.base.value).Some?
  }

  /** Pending, or cancelled by somebody else since this step read it pending. */
  predicate Unclaimed(job: Job) {
    job.status == Pending || job.status == Cancelled
  }

  /** `x or now` on a nullable time column: zero counts as unset. */
  function OrNow(t: Option<int>, now: int): int {
    if t.Some? && t.value != 0 then t.value else now
  }

  function SentAtOr(book: Book, now: int): Book {
    book.(sentAt := Some(OrNow(book.sentAt, now)))
  }

  /** `int(x or 0)` on a nullable time column. */
  function TimeOf(t: Option<int>): int {
    if t.Some? then t.value else 0
  }

  /** A null and a zero time both read as unset; a set one stays. */
  lemma UnsetTimes(book: Book, t: int, now: int)
    ensures OrNow(None, now) == now == OrNow(Some(0), now) && TimeOf(None) == 0 && TimeOf(Some(t)) == t
    ensures SentAtOr(book.(sentAt := None), now) == book.(sentAt := Some(now))
    ensures SentAtOr(book.(sentAt := Some(0)), now) == book.(sentAt := Some(now))
    ensures t != 0 ==> OrNow(Some(t), now) == t
    ensures t != 0 ==> SentAtOr(book.(sentAt := Some(t)), now) == book.(sentAt := Some(t))
  {
  }

  // ------------------------------------------------------------------ rows after a reconcile

  function FirstReceipt(hashes: seq<Tx>, receipts: Option<set<Tx>>): Option<Tx> {
    if receipts == None || hashes == [] then None
    else if hashes[0] in receipts.value then Some(hashes[0])
    else FirstReceipt(hashes[1..], receipts)
  }

  lemma {:induction false} FirstReceiptIs(hashes: seq<Tx>, receipts: Option<set<Tx>>)
    ensures FirstReceipt(hashes, receipts) == None <==>
      receipts == None || forall tx :: tx in hashes ==> tx !in receipts.value
    ensures receipts.Some? && FirstReceipt(hashes, receipts).Some? ==>
      FirstIn(hashes, receipts.value, FirstReceipt(hashes, receipts).value)
    decreases |hashes|
  {
    if receipts.Some? && hashes != [] {
      FirstReceiptIs(hashes[1..], receipts);
      if hashes[0] in receipts.value {
        assert hashes[0] == FirstReceipt(hashes, receipts).value;
      } else if FirstReceipt(hashes, receipts).Some? {
        var tx := FirstReceipt(hashes, receipts).value;
        var rest := hashes[1..];
        var k :| 0 <= k < |rest| && rest[k] == tx && forall i :: 0 <= i < k ==> rest[i] !in receipts.value;
        assert hashes[k + 1] == tx;
        forall i | 0 <= i < k + 1 ensures hashes[i] !in receipts.value {
          if i > 0 { assert hashes[i] == rest[i - 1]; }
        }
      } else {
        forall tx | tx in hashes ensures tx !in receipts.value {
          assert tx == hashes[0] || tx in hashes[1..];
        }
      }
    }
  }

  function ConfirmedRow(job: Job): Job {
    job.(status := Confirmed, consumedAt := None)
  }

  /** A visible receipt of `tx`. */
  function Received(s: State, j: nat, tx: Tx, depth: nat, cfg: Settings, now: int): State
    requires j < |s.jobs|
  {
    var job := s.jobs[j];
    var sent := if job.status == Sending then job.(status := Sent, book := SentAtOr(job.book, now)) else job;
    if !Landed(s, tx) then Rollback(s, j, Failed)
    else SetJob(s, j, if cfg.confirmations <= 1 || depth >= cfg.confirmations then ConfirmedRow(sent) else sent)
  }

  /** "nonce too low" for a transaction of this job. */
  function LowNonce(s: State, j: nat, recheck: Option<set<Tx>>, depth: nat, cfg: Settings, now: int): State
    requires j < |s.jobs|
  {
    var job, found := s.jobs[j], FirstReceipt(s.jobs[j].txs, recheck);
    if found.Some? then Received(s, j, found.value, depth, cfg, now)
    else
      var at := OrNow(job.consumedAt, now);
      SetJob(s, j, job.(status := Sent, consumedAt := Some(at), book := SentAtOr(job.book, now)))
  }

  /** Sent, its nonce reported consumed. */
  function Settled(s: State, j: nat, v: ReconcileView, cfg: Settings, now: int): State
    requires j < |s.jobs| && |s.onchain| == |s.orders|
  {
    var job := s.jobs[j];
    if job.consumedAt == None || now < job.consumedAt.value + cfg.resubmitAfter || v.latest == None then s
    else if job.nonce == None || v.latest.value <= job.nonce.value
    then SetJob(s, j, job.(consumedAt := None, book := job.book.(sentAt := Some(now))))
    else if v.logs == None then s
    else if OwnLog(job, v.logs.value) then SetJob(s, j, ConfirmedRow(job))
    else if Absent(s, j) then SetJob(s, j, BackToPending(job).(book := job.book.(nextAt := now)))
    else SetJob(s, j, job.(consumedAt := Some(now)))
  }

  /** The node's answer to bytes that went out again. */
  function ResentAnswer(s: State, j: nat, v: ReconcileView, cfg: Settings, now: int): State
    requires j < |s.jobs|
  {
    var job := s.jobs[j];
    match v.reply
    case TooLow => LowNonce(s, j, v.recheck, v.depth, cfg, now)
    case NoFunds => SetJob(s, j, job.(book := job.book.(nextAt := now + cfg.backoff)))
    case Unclear =>
      var n := job.book.attempts + 1;
      var book := job.book.(attempts := n, nextAt := now + cfg.backoff * n);
      SetJob(s, j,
        if n >= cfg.maxAttempts then job.(status := Sent, book := SentAtOr(book, now)) else job.(book := book))
    case _ => SetJob(s, j, job.(status := Sent, book := SentAtOr(job.book, now).(nextAt := 0)))
  }

  /** Sending: the recorded bytes go out again when they are due. */
  function Resent(s: State, j: nat, v: ReconcileView, cfg: Settings, now: int): State
    requires j < |s.jobs| && s.jobs[j].raw.Some?
  {
    if now < s.jobs[j].book.nextAt then s
    else ResentAnswer(s.(pool := s.pool + {s.jobs[j].raw.value}), j, v, cfg, now)
  }

  /** Sent, out of attempts. */
  function KeptAlive(s: State, j: nat, v: ReconcileView, cfg: Settings, now: int): State
    requires j < |s.jobs| && s.jobs[j].raw.Some?
  {
    var job := s.jobs[j];
    var sent := s.(pool := s.pool + {job.raw.value});
    var t := SetJob(sent, j, DeferredRow(job, now + cfg.resubmitAfter));
    if !KeepAliveDue(job.book, cfg, now) then s
    else if v.reply == TooLow then LowNonce(t, j, v.recheck, v.depth, cfg, now)
    else t
  }

  /** One more transaction on the same nonce, on record with its attempt, its time and its fee. */
  function BumpedRow(job: Job, account: nat, fee: Fees, now: int): Job
    requires job.nonce.Some?
  {
    var tx := MatchTx(job, account, job.nonce.value, fee);
    job.(raw := Some(tx), txs := job.txs + [tx],
         book := job.book.(attempts := job.book.attempts + 1, sentAt := Some(now), fees := fee))
  }

  /** The recorded replacement goes out. */
  function BumpSent(s: State, j: nat, v: ReconcileView, cfg: Settings, now: int): State
    requires j < |s.jobs| && s.jobs[j].raw.Some?
  {
    var t := s.(pool := s.pool + {s.jobs[j].raw.value});
    if v.reply == TooLow then LowNonce(t, j, v.recheck, v.depth, cfg, now) else t
  }

  /** This reconcile signs a replacement. */
  predicate Bumps(job: Job, v: ReconcileView, cfg: Settings, now: int) {
    v.receipts.Some? && !Shown(job, v.receipts) && Replaceable(job, v, cfg, now)
  }

  function BumpFeeOf(job: Job, v: ReconcileView, cfg: Settings): Fees
    requires v.base.Some? && Gas.BumpFees(Gas.Reload(job.book.fees), cfg.fees, v.base.value).Some?
  {
    Gas.Store(Gas.BumpFees(Gas.Reload(job.book.fees), cfg.fees, v.base.value).value)
  }

  /** No receipt is shown, and nothing is signed. */
  function Waited(s: State, j: nat, v: ReconcileView, cfg: Settings, now: int): State
    requires j < |s.jobs| && |s.onchain| == |s.orders| && s.jobs[j].raw.Some?
  {
    var job := s.jobs[j];
    if job.status == Sending then Resent(s, j, v, cfg, now)
    else if job.consumedAt.Some? then Settled(s, j, v, cfg, now)
    else if job.book.attempts >= cfg.maxAttempts then KeptAlive(s, j, v, cfg, now)
    else s
  }

  /** A reconcile that signs nothing. */
  function Reconciled(s: State, j: nat, v: ReconcileView, cfg: Settings, now: int): State
    requires j < |s.jobs| && |s.onchain| == |s.orders| && s.jobs[j].raw.Some?
  {
    var found := FirstReceipt(s.jobs[j].txs, v.receipts);
    if v.receipts == None then s
    else if found.Some? then Received(s, j, found.value, v.depth, cfg, now)
    else Waited(s, j, v, cfg, now)
  }

  /** This reconcile resyncs the allocator: "nonce too low" for bytes it sent, or a nonce lost to somebody else. */
  predicate Resyncs(s: State, j: nat, v: ReconcileView, cfg: Settings, now: int)
    requires j < |s.jobs| && |s.onchain| == |s.orders|
  {
    var job := s.jobs[j];
    && v.receipts.Some? && !Shown(job, v.receipts)
    && (Settleable(s, j, v, cfg.resubmitAfter, now)
        || (v.reply == TooLow && (Unconfirmed(job, now) || Stuck(job, cfg, now) || Replaceable(job, v, cfg, now))))
  }

  // ------------------------------------------------------------------ rows after a send

  /** The first broadcast's record: the claim, the bytes and the quote they were signed with. */
  function SignedRow(job: Job, tx: Tx): Job {
    Signed(job, tx).(book := job.book.(nextAt := 0, fees := tx.fee))
  }

  function DeferredRow(job: Job, at: int): Job {
    job.(book := job.book.(nextAt := at))
  }

  /** A failure ahead of the claim: one attempt, and the last one fails a job that is still pending. */
  function Retried(s: State, j: nat, cfg: Settings, now: int): State
    requires j < |s.jobs|
  {
    var n := s.jobs[j].book.attempts + 1;
    var t := SetJob(s, j, s.jobs[j].(book := s.jobs[j].book.(attempts := n)));
    if n < cfg.maxAttempts then SetJob(t, j, DeferredRow(t.jobs[j], now + cfg.backoff * n))
    else if s.jobs[j].status == Pending then Rollback(t, j, Failed)
    else t
  }

  /** A job that signed before, while the chain does not show that its fill is absent. */
  function Rechecked(s: State, j: nat, v: SendView, cfg: Settings, now: int): State
    requires j < |s.jobs| && |s.onchain| == |s.orders|
  {
    var job := s.jobs[j];
    if job.txs == [] then s
    else if v.logs == None then SetJob(s, j, DeferredRow(job, now + cfg.backoff))
    else if OwnLog(job, v.logs.value) then SetJob(s, j, ConfirmedRow(job))
    else if !Absent(s, j) then SetJob(s, j, DeferredRow(job, now + cfg.resubmitAfter))
    else s
  }

  /** The order, halt and preflight checks. */
  function Checked(s: State, j: nat, v: SendView, cfg: Settings, now: int): State
    requires j < |s.jobs| && |s.onchain| == |s.orders| && Sides(s, s.jobs[j].taker, s.jobs[j].maker)
  {
    var job := s.jobs[j];
    if s.orders[job.taker].cancelled || s.orders[job.maker].cancelled then Rollback(s, j, Cancelled)
    else if v.halted then Rollback(s, j, Failed)
    else if !v.preflightUp then Retried(s, j, cfg, now)
    else if !Fine(v.facts) || !Executable(s, job.taker, job.maker, job.fill) then Rollback(s, j, Failed)
    else if !Affordable(s, j) then SetJob(s, j, DeferredRow(job, now + if cfg.poll > 1 then cfg.poll else 1))
    else s
  }

  /** A send whose checks do not pass. */
  function Stopped(s: State, j: nat, v: SendView, cfg: Settings, now: int): State
    requires j < |s.jobs| && |s.onchain| == |s.orders| && Sides(s, s.jobs[j].taker, s.jobs[j].maker)
  {
    if Unlanded(s, j, v) then Checked(s, j, v, cfg, now) else Rechecked(s, j, v, cfg, now)
  }

  function Dropping(s: State, j: nat): State
    requires j < |s.jobs|
  {
    if s.jobs[j].status == Pending then Rollback(s, j, Failed) else s
  }

  /** A job that cannot be priced or paid for. */
  function Unpriced(s: State, j: nat, v: SendView, cfg: Settings, now: int): State
    requires j < |s.jobs|
  {
    if v.estimate.Reverts? then Dropping(s, j)
    else if v.estimate.Unavailable? then Retried(s, j, cfg, now)
    else if Gas.GasLimit(v.estimate.units, cfg.fees) == None then Dropping(s, j)
    else if v.base == None && v.gasPrice == None then Retried(s, j, cfg, now)
    else if Gas.QuoteFees(v.base, v.tip, v.gasPrice, cfg.fees) == None
    then SetJob(s, j, DeferredRow(s.jobs[j], now + cfg.backoff))
    else if v.balance == None then Retried(s, j, cfg, now)
    else SetJob(s, j, DeferredRow(s.jobs[j], now + cfg.backoff))
  }

  /** The first broadcast's answer. */
  function Answered(s: State, j: nat, reply: Reply, v: SendView, cfg: Settings, now: int): State
    requires j < |s.jobs| && s.jobs[j].raw.Some?
  {
    var job := s.jobs[j];
    var t := s.(pool := s.pool + {job.raw.value});
    match reply
    case Underpriced => SetJob(s, j, BackToPending(job).(book := job.book.(nextAt := now)))
    case NoFunds => SetJob(s, j, BackToPending(job).(book := job.book.(nextAt := now + cfg.backoff)))
    case TooLow => LowNonce(t, j, v.recheck, v.depth, cfg, now)
    case Unclear =>
      SetJob(t, j, job.(book := job.book.(attempts := job.book.attempts + 1, nextAt := now + cfg.backoff)))
    case _ =>
      SetJob(t, j, job.(status := Sent, book := job.book.(attempts := job.book.attempts + 1, sentAt := Some(now))))
  }

  /** The cache after a first broadcast with nonce `n`. */
  function CacheAfter(reply: Reply, n: nat, pending: nat): Option<nat> {
    match reply
    case NoFunds => Some(n)
    case Underpriced => Some(pending)
    case TooLow => Some(pending)
    case _ => Some(n + 1)
  }

  // ------------------------------------------------------------------ what the rows keep

  /** The last hash is the one in flight, and the fee columns hold exactly what it was signed with. */
  predicate Stored(job: Job, cap: nat) {
    InFlight(job) ==>
      && job.txs != [] && job.raw == Some(job.txs[|job.txs| - 1]) && job.raw.value.fee == job.book.fees
      && job.nonce == Some(job.raw.value.nonce) && Gas.WellPriced(Gas.Reload(job.book.fees), cap)
  }

  ghost predicate AllStored(s: State, cap: nat) {
    forall j :: 0 <= j < |s.jobs| ==> Stored(s.jobs[j], cap)
  }

  /** Nothing was signed, and what is in flight still is what it was. */
  predicate Carries(before: Job, after: Job) {
    && after.txs == before.txs && after.book.fees == before.book.fees && before.book.attempts <= after.book.attempts
    && (InFlight(after) ==> InFlight(before) && after.raw == before.raw && after.nonce == before.nonce)
  }

  /** Only row `j` changed, and it carries on. */
  ghost predicate CarriesOn(s: State, t: State, j: nat)
    requires j < |s.jobs|
  {
    && |t.jobs| == |s.jobs| && (forall i :: 0 <= i < |s.jobs| && i != j ==> t.jobs[i] == s.jobs[i])
    && Carries(s.jobs[j], t.jobs[j])
  }

  lemma CarriesStored(s: State, t: State, j: nat, cap: nat)
    requires j < |s.jobs| && CarriesOn(s, t, j) && AllStored(s, cap)
    ensures AllStored(t, cap)
  {
    forall i | 0 <= i < |t.jobs| ensures Stored(t.jobs[i], cap) {
      assert Stored(s.jobs[i], cap);
    }
  }

  lemma LowNonceCarries(s: State, j: nat, recheck: Option<set<Tx>>, depth: nat, cfg: Settings, now: int)
    requires j < |s.jobs| && InFlight(s.jobs[j])
    ensures CarriesOn(s, LowNonce(s, j, recheck, depth, cfg, now), j)
  {
  }

  lemma ResentCarries(s: State, j: nat, v: ReconcileView, cfg: Settings, now: int)
    requires j < |s.jobs| && s.jobs[j].raw.Some? && InFlight(s.jobs[j])
    ensures CarriesOn(s, Resent(s, j, v, cfg, now), j)
  {
    LowNonceCarries(s.(pool := s.pool + {s.jobs[j].raw.value}), j, v.recheck, v.depth, cfg, now);
  }

  lemma KeptAliveCarries(s: State, j: nat, v: ReconcileView, cfg: Settings, now: int)
    requires j < |s.jobs| && s.jobs[j].raw.Some? && InFlight(s.jobs[j])
    ensures CarriesOn(s, KeptAlive(s, j, v, cfg, now), j)
  {
    var sent := s.(pool := s.pool + {s.jobs[j].raw.value});
    LowNonceCarries(
      SetJob(sent, j, DeferredRow(s.jobs[j], now + cfg.resubmitAfter)), j, v.recheck, v.depth, cfg, now);
  }

  lemma WaitedCarries(s: State, j: nat, v: ReconcileView, cfg: Settings, now: int)
    requires j < |s.jobs| && |s.onchain| == |s.orders| && s.jobs[j].raw.Some? && InFlight(s.jobs[j])
    ensures CarriesOn(s, Waited(s, j, v, cfg, now), j)
  {
    ResentCarries(s, j, v, cfg, now);
    KeptAliveCarries(s, j, v, cfg, now);
  }

  lemma ReconciledCarries(s: State, j: nat, v: ReconcileView, cfg: Settings, now: int)
    requires j < |s.jobs| && |s.onchain| == |s.orders| && s.jobs[j].raw.Some? && InFlight(s.jobs[j])
    ensures CarriesOn(s, Reconciled(s, j, v, cfg, now), j)
  {
    if FirstReceipt(s.jobs[j].txs, v.receipts) == None {
      WaitedCarries(s, j, v, cfg, now);
    }
  }

  /** Whatever the node says to the replacement, its record stays: one attempt more, its time and its fee. */
  lemma BumpSentCarries(s: State, j: nat, v: ReconcileView, cfg: Settings, now: int)
    requires j < |s.jobs| && s.jobs[j].raw.Some? && InFlight(s.jobs[j])
    ensures CarriesOn(s, BumpSent(s, j, v, cfg, now), j)
    ensures s.jobs[j].book.sentAt == Some(now) ==> BumpSent(s, j, v, cfg, now).jobs[j].book == s.jobs[j].book
  {
    LowNonceCarries(s.(pool := s.pool + {s.jobs[j].raw.value}), j, v.recheck, v.depth, cfg, now);
  }

  predicate Raised(before: Fees, after: Fees) {
    && after.0 * 10 >= before.0 * 11 && Gas.Reload(after).tip * 10 >= Gas.Reload(before).tip * 11
    && (after.1 == None) == (before.1 == None)
  }

  /** The next replacement starts from the stored fee, so its fees are at least a tenth above the last hash's. */
  lemma BumpedStored(job: Job, v: ReconcileView, cfg: Settings, account: nat, now: int)
    requires InFlight(job) && Stored(job, cfg.fees.cap) && Replaceable(job, v, cfg, now)
    ensures var r := BumpedRow(job, account, BumpFeeOf(job, v, cfg), now);
      && Stored(r, cfg.fees.cap) && Raised(job.raw.value.fee, r.raw.value.fee)
      && r.book.attempts == job.book.attempts + 1 && r.book.sentAt == Some(now) && r.book.fees == r.raw.value.fee
  {
    var q, r := Gas.Reload(job.book.fees), Gas.BumpFees(Gas.Reload(job.book.fees), cfg.fees, v.base.value).value;
    Gas.BumpRaises(q, cfg.fees, v.base.value);
    Gas.StoreReload(r, cfg.fees.cap);
  }

  /** One more reconcile of a job that stays in flight. */
  ghost predicate Tick(before: Job, after: Job, cfg: Settings) {
    InFlight(after) && (Carries(before, after) ||
      exists v, account, now :: BumpTick(before, after, v, account, now, cfg))
  }

  ghost predicate BumpTick(before: Job, after: Job, v: ReconcileView, account: nat, now: int, cfg: Settings) {
    && InFlight(before) && Replaceable(before, v, cfg, now) && before.nonce.Some?
    && Carries(BumpedRow(before, account, BumpFeeOf(before, v, cfg), now), after)
  }

  ghost predicate Ticks(rows: seq<Job>, cfg: Settings) {
    rows != [] && InFlight(rows[0]) && forall i :: 0 <= i < |rows| - 1 ==> Tick(rows[i], rows[i + 1], cfg)
  }

  /** Every hash from the `n`-th on is under this nonce, and raises both fees of the one before it by a tenth. */
  ghost predicate Climbs(txs: seq<Tx>, n: nat, nonce: nat) {
    forall k :: n <= k < |txs| && k > 0 ==> txs[k].nonce == nonce && Raised(txs[k - 1].fee, txs[k].fee)
  }

  /**
   However often a job in flight is reconciled, its columns hold the fee of its last hash, all its new hashes are under
   one nonce and each raises both fees by a tenth, and there are never more of them than attempts were left.
   */
  lemma {:induction false} BumpLadder(rows: seq<Job>, cfg: Settings, k: nat)
    requires Ticks(rows, cfg) && Stored(rows[0], cfg.fees.cap) && k < |rows|
    ensures InFlight(rows[k]) && Stored(rows[k], cfg.fees.cap) && rows[k].nonce == rows[0].nonce
    ensures rows[0].txs <= rows[k].txs && Climbs(rows[k].txs, |rows[0].txs|, rows[0].nonce.value)
    ensures |rows[k].txs| - |rows[0].txs| <= rows[k].book.attempts - rows[0].book.attempts
    ensures |rows[k].txs| > |rows[0].txs| ==> |rows[k].txs| - |rows[0].txs| <= cfg.maxAttempts - rows[0].book.attempts
    decreases k
  {
    if k > 0 {
      BumpLadder(rows, cfg, k - 1);
      assert Tick(rows[k - 1], rows[k], cfg);
      OneTick(rows[0], rows[k - 1], rows[k], cfg);
    }
  }

  lemma OneTick(first: Job, before: Job, after: Job, cfg: Settings)
    requires InFlight(before) && Stored(before, cfg.fees.cap) && before.nonce == first.nonce && first.nonce.Some?
    requires first.txs <= before.txs && Climbs(before.txs, |first.txs|, first.nonce.value)
    requires |before.txs| - |first.txs| <= before.book.attempts - first.book.attempts
    requires |before.txs| > |first.txs| ==> |before.txs| - |first.txs| <= cfg.maxAttempts - first.book.attempts
    requires Tick(before, after, cfg)
    ensures InFlight(after) && Stored(after, cfg.fees.cap) && after.nonce == first.nonce
    ensures first.txs <= after.txs && Climbs(after.txs, |first.txs|, first.nonce.value)
    ensures |after.txs| - |first.txs| <= after.book.attempts - first.book.attempts
    ensures |after.txs| > |first.txs| ==> |after.txs| - |first.txs| <= cfg.maxAttempts - first.book.attempts
  {
    if !Carries(before, after) {
      var v, account, now :| BumpTick(before, after, v, account, now, cfg);
      BumpedStored(before, v, cfg, account, now);
      var n := |before.txs|;
      assert after.txs[n] == after.raw.value && after.txs[..n] == before.txs;
      forall k | |first.txs| <= k < |after.txs| && k > 0
        ensures after.txs[k].nonce == first.nonce.value && Raised(after.txs[k - 1].fee, after.txs[k].fee)
      {
        if k < n {
          assert after.txs[k] == before.txs[k] && after.txs[k - 1] == before.txs[k - 1];
        } else {
          assert after.txs[k - 1] == before.txs[n - 1] == before.raw.value;
        }
      }
    }
  }

  lemma StoppedCarries(s: State, j: nat, v: SendView, cfg: Settings, now: int)
    requires j < |s.jobs| && |s.onchain| == |s.orders| && Sides(s, s.jobs[j].taker, s.jobs[j].maker)
    ensures CarriesOn(s, Stopped(s, j, v, cfg, now), j)
  {
  }

  lemma UnpricedCarries(s: State, j: nat, v: SendView, cfg: Settings, now: int)
    requires j < |s.jobs|
    ensures CarriesOn(s, Unpriced(s, j, v, cfg, now), j)
  {
  }

  /** The first signature is stored with its quote. */
  lemma SignedStored(job: Job, account: nat, nonce: nat, q: Gas.FeeQuote, cap: nat)
    requires Gas.WellPriced(q, cap)
    ensures Stored(SignedRow(job, MatchTx(job, account, nonce, Gas.Store(q))), cap)
  {
    Gas.StoreReload(q, cap);
  }

  /** The node's answer leaves the stored fee alone; an accepted first broadcast costs one attempt, sent now. */
  lemma AnsweredCarries(s: State, j: nat, reply: Reply, v: SendView, cfg: Settings, now: int)
    requires j < |s.jobs| && s.jobs[j].raw.Some? && InFlight(s.jobs[j])
    ensures var t := Answered(s, j, reply, v, cfg, now);
      && CarriesOn(s, t, j)
      && (reply == Taken || reply == AlreadyKnown ==>
            && t.jobs[j].status == Sent && t.jobs[j].book.sentAt == Some(now)
            && t.jobs[j].book.attempts == s.jobs[j].book.attempts + 1)
  {
    LowNonceCarries(s.(pool := s.pool + {s.jobs[j].raw.value}), j, v.recheck, v.depth, cfg, now);
  }
}
