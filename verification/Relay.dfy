/**
 The CLOB relayer as a state machine: the committed database rows (orders, relay jobs), the chain they
 run against (mined transactions per sender, everything a node may have pooled, Exchange counters and
 funds) and the worker's volatile memory. Each event is one committed database transaction of the
 matcher, the cancel route or the worker, or one move of the environment.
 */
module Relay {
  import opened Options
  import opened Sums
  import opened Amounts

  // ------------------------------------------------------------------ data

  datatype Status = Pending | Sending | Sent | Confirmed | Failed | Cancelled

  /**
   A signed matchOrders transaction. Its value stands for its hash: two transactions have the same hash
   exactly when every signed field agrees, whichever job signed them.
   */
  datatype Tx = Tx(sender: nat, nonce: nat, taker: nat, maker: nat, fill: nat, fee: Fees)

  /** Fees as the job columns hold them: max fee, and the tip unless the transaction is a legacy one. */
  type Fees = (nat, Option<nat>)

  /** What consumed a nonce: one of our transactions (with its receipt) or somebody else's. */
  datatype Outcome = Filled | Reverted | NoFillLog
  datatype Mined = Ours(tx: Tx, outcome: Outcome) | Foreign

  /** `asset` is the (condition id, outcome) pair; `offchain` sums this order's offchain trades. */
  datatype Order = Order(
    maker: nat, isBuy: bool, asset: nat, price: nat, amount: nat,
    filled: nat, cancelled: bool, offchain: nat)

  /** Bookkeeping columns that steer when the worker acts, never what it may do. */
  datatype Book = Book(attempts: nat, sentAt: Option<int>, nextAt: int, fees: Fees)

  datatype Job = Job(
    taker: nat, maker: nat, fill: nat, status: Status, sender: nat,
    nonce: Option<nat>, txs: seq<Tx>, raw: Option<Tx>, consumedAt: Option<int>, book: Book)

  /** Exchange-relevant holdings: USDC and its allowance per address, outcome tokens per (address, asset). */
  datatype Funds = Funds(usdc: map<nat, nat>, allowance: map<nat, nat>, ctf: map<(nat, nat), nat>)

  datatype State = State(
    orders: seq<Order>, jobs: seq<Job>,
    lines: map<nat, seq<Mined>>, pool: set<Tx>, onchain: seq<nat>, funds: Funds,
    account: nat, prepared: Option<nat>)

  const NO_BOOK := Book(0, None, 0, (0, None))

  function Get<K>(m: map<K, nat>, k: K): nat {
    if k in m then m[k] else 0
  }

  // ------------------------------------------------------------------ chain reads

  /** Mined transactions of a sender, in nonce order: a nonce is consumed at most once, and in order. */
  function Line(s: State, sender: nat): seq<Mined> {
    if sender in s.lines then s.lines[sender] else []
  }

  predicate IsMined(s: State, tx: Tx) {
    var line := Line(s, tx.sender);
    tx.nonce < |line| && line[tx.nonce].Ours? && line[tx.nonce].tx == tx
  }

  predicate Landed(s: State, tx: Tx) {
    IsMined(s, tx) && Line(s, tx.sender)[tx.nonce].outcome == Filled
  }

  /** Some node may hold it and its nonce is still free. */
  predicate CanMine(s: State, tx: Tx) {
    tx in s.pool && |Line(s, tx.sender)| <= tx.nonce
  }

  predicate JobLanded(s: State, job: Job) {
    exists tx :: tx in job.txs && Landed(s, tx)
  }

  // ------------------------------------------------------------------ rows

  predicate InFlight(job: Job) {
    job.status == Sending || job.status == Sent
  }

  predicate Live(job: Job) {
    job.status == Pending || InFlight(job)
  }

  predicate Terminal(job: Job) {
    !Live(job)
  }

  predicate Touches(job: Job, o: nat) {
    job.taker == o || job.maker == o
  }

  function MatchTx(job: Job, sender: nat, nonce: nat, fee: Fees): Tx {
    Tx(sender, nonce, job.taker, job.maker, job.fill, fee)
  }

  function BackToPending(job: Job): Job {
    job.(status := Pending, nonce := None, raw := None, consumedAt := None)
  }

  /** The job's nonce has been mined, by whoever. */
  predicate NonceConsumed(s: State, job: Job) {
    job.nonce.Some? && job.nonce.value < |Line(s, job.sender)|
  }

  /** In flight and its nonce still free: the only jobs that can still spend. */
  predicate Open(s: State, job: Job) {
    InFlight(job) && !NonceConsumed(s, job)
  }

  // ------------------------------------------------------------------ amounts of a match

  predicate Sides(s: State, taker: nat, maker: nat) {
    taker < |s.orders| && maker < |s.orders| && taker != maker
  }

  function Buyer(s: State, taker: nat, maker: nat): nat
    requires Sides(s, taker, maker)
  {
    if s.orders[taker].isBuy then s.orders[taker].maker else s.orders[maker].maker
  }

  function Seller(s: State, taker: nat, maker: nat): nat
    requires Sides(s, taker, maker)
  {
    if s.orders[taker].isBuy then s.orders[maker].maker else s.orders[taker].maker
  }

  /** USDC the buyer pays: the taker pays the fee on top, a maker pays the bare volume. */
  function Spend(s: State, taker: nat, maker: nat, fill: nat): nat
    requires Sides(s, taker, maker)
  {
    var volume := Volume(fill, s.orders[maker].price);
    if s.orders[taker].isBuy then volume + Fee(volume, EXCHANGE_TAKER_FEE_BPS) else volume
  }

  /** The checks of Exchange.matchOrders that the worker's preflight mirrors. */
  predicate Executable(s: State, taker: nat, maker: nat, fill: nat) {
    && Sides(s, taker, maker) && |s.onchain| == |s.orders|
    && s.onchain[taker] + fill <= s.orders[taker].amount
    && s.onchain[maker] + fill <= s.orders[maker].amount
    && Spend(s, taker, maker, fill) <= Get(s.funds.usdc, Buyer(s, taker, maker))
    && Spend(s, taker, maker, fill) <= Get(s.funds.allowance, Buyer(s, taker, maker))
    && fill <= Get(s.funds.ctf, (Seller(s, taker, maker), s.orders[taker].asset))
  }

  /** Transfers of a landed match; the seller's proceeds and the vault's fee are credits. */
  function Transfer(s: State, taker: nat, maker: nat, fill: nat): Funds
    requires Executable(s, taker, maker, fill)
  {
    var buyer, seller := Buyer(s, taker, maker), Seller(s, taker, maker);
    var asset := s.orders[taker].asset;
    var spend := Spend(s, taker, maker, fill);
    var f := s.funds;
    var debit := f.usdc[buyer := Get(f.usdc, buyer) - spend];
    var tokens := f.ctf[(seller, asset) := Get(f.ctf, (seller, asset)) - fill];
    Funds(debit[seller := Get(debit, seller) + Volume(fill, s.orders[maker].price) - Withheld(s, taker, maker, fill)],
          f.allowance[buyer := Get(f.allowance, buyer) - spend],
          tokens[(buyer, asset) := Get(tokens, (buyer, asset)) + fill])
  }

  /** Fee withheld from a taker that sells. */
  function Withheld(s: State, taker: nat, maker: nat, fill: nat): (fee: nat)
    requires Sides(s, taker, maker)
    ensures fee <= Volume(fill, s.orders[maker].price)
  {
    var volume := Volume(fill, s.orders[maker].price);
    assert volume * EXCHANGE_TAKER_FEE_BPS / BPS <= volume;
    if s.orders[taker].isBuy then 0 else Fee(volume, EXCHANGE_TAKER_FEE_BPS)
  }

  /**
   A landed match between two traders: the tokens go from seller to buyer for the volume at the maker's price, and the
   taker alone bears the fee of 75 basis points, on top of what it pays or out of what it gets.
   */
  lemma MatchMoves(s: State, taker: nat, maker: nat, fill: nat, volume: nat, fee: nat, f: Funds)
    requires Executable(s, taker, maker, fill) && f == Transfer(s, taker, maker, fill)
    requires s.orders[taker].maker != s.orders[maker].maker
    requires volume == fill * s.orders[maker].price / 1_000_000 && fee == volume * 75 / 10_000
    ensures fee <= volume
    ensures var asset := s.orders[taker].asset;
      var t, m := s.orders[taker].maker, s.orders[maker].maker;
      if s.orders[taker].isBuy then
        && Get(f.usdc, t) == Get(s.funds.usdc, t) - volume - fee && Get(f.usdc, m) == Get(s.funds.usdc, m) + volume
        && Get(f.allowance, t) == Get(s.funds.allowance, t) - volume - fee
        && Get(f.allowance, m) == Get(s.funds.allowance, m)
        && Get(f.ctf, (t, asset)) == Get(s.funds.ctf, (t, asset)) + fill
        && Get(f.ctf, (m, asset)) == Get(s.funds.ctf, (m, asset)) - fill
      else
        && Get(f.usdc, t) == Get(s.funds.usdc, t) + volume - fee && Get(f.usdc, m) == Get(s.funds.usdc, m) - volume
        && Get(f.allowance, m) == Get(s.funds.allowance, m) - volume
        && Get(f.allowance, t) == Get(s.funds.allowance, t)
        && Get(f.ctf, (m, asset)) == Get(s.funds.ctf, (m, asset)) + fill
        && Get(f.ctf, (t, asset)) == Get(s.funds.ctf, (t, asset)) - fill
    ensures forall a :: a != s.orders[taker].maker && a != s.orders[maker].maker ==>
      Get(f.usdc, a) == Get(s.funds.usdc, a) && Get(f.allowance, a) == Get(s.funds.allowance, a)
    ensures forall a, k :: a != s.orders[taker].maker && a != s.orders[maker].maker ==>
      Get(f.ctf, (a, k)) == Get(s.funds.ctf, (a, k))
  {
    assert fee == Fee(volume, EXCHANGE_TAKER_FEE_BPS) && volume == Volume(fill, s.orders[maker].price);
  }

  // ------------------------------------------------------------------ tallies over the jobs

  datatype Measure =
    | LiveFill(order: nat)       // fill of live jobs on an order
    | ConfirmedFill(order: nat)  // fill of confirmed jobs on an order
    | LandedFill(order: nat)     // fill of jobs that landed on chain
    | BusyFill(order: nat)       // fill of in-flight jobs on an order
    | BusyUsdc(buyer: nat)       // USDC in-flight jobs will take from a buyer
    | BusyCtf(seller: nat, asset: nat)
    | OpenFill(order: nat)       // the same three, for jobs that can still mine or are about to be signed
    | OpenUsdc(buyer: nat)
    | OpenCtf(seller: nat, asset: nat)

  /** Signed and unmined, or cleared by preflight and about to be signed. */
  predicate Claims(s: State, j: nat)
    requires j < |s.jobs|
  {
    Open(s, s.jobs[j]) || (s.prepared == Some(j) && s.jobs[j].status == Pending)
  }

  function Charge(s: State, job: Job, m: Measure): nat {
    if !Sides(s, job.taker, job.maker) then 0
    else
      match m
      case LiveFill(o) => if Touches(job, o) then job.fill else 0
      case ConfirmedFill(o) => if Touches(job, o) then job.fill else 0
      case LandedFill(o) => if Touches(job, o) then job.fill else 0
      case BusyFill(o) => if Touches(job, o) then job.fill else 0
      case OpenFill(o) => if Touches(job, o) then job.fill else 0
      case BusyUsdc(a) => if Buyer(s, job.taker, job.maker) == a then Spend(s, job.taker, job.maker, job.fill) else 0
      case OpenUsdc(a) => if Buyer(s, job.taker, job.maker) == a then Spend(s, job.taker, job.maker, job.fill) else 0
      case BusyCtf(a, k) =>
        if Seller(s, job.taker, job.maker) == a && s.orders[job.taker].asset == k then job.fill else 0
      case OpenCtf(a, k) =>
        if Seller(s, job.taker, job.maker) == a && s.orders[job.taker].asset == k then job.fill else 0
  }

  predicate Counted(s: State, j: nat, m: Measure)
    requires j < |s.jobs|
  {
    match m
    case LiveFill(_) => Live(s.jobs[j])
    case ConfirmedFill(_) => s.jobs[j].status == Confirmed
    case LandedFill(_) => JobLanded(s, s.jobs[j])
    case BusyFill(_) => InFlight(s.jobs[j])
    case BusyUsdc(_) => InFlight(s.jobs[j])
    case BusyCtf(_, _) => InFlight(s.jobs[j])
    case OpenFill(_) => Claims(s, j)
    case OpenUsdc(_) => Claims(s, j)
    case OpenCtf(_, _) => Claims(s, j)
  }

  function Weight(s: State, j: nat, m: Measure): nat
    requires j < |s.jobs|
  {
    if Counted(s, j, m) then Charge(s, s.jobs[j], m) else 0
  }

  function Weights(s: State, m: Measure): (ws: seq<nat>)
    ensures |ws| == |s.jobs|
    ensures forall j :: 0 <= j < |ws| ==> ws[j] == Weight(s, j, m)
  {
    seq(|s.jobs|, j requires 0 <= j < |s.jobs| => Weight(s, j, m))
  }

  function Tally(s: State, m: Measure): nat {
    Sum(Weights(s, m))
  }

  /** Only job `j` changed its weight. */
  lemma TallyChange(s: State, t: State, j: nat, m: Measure)
    requires j < |s.jobs| == |t.jobs|
    requires forall i :: 0 <= i < |s.jobs| && i != j ==> Weight(t, i, m) == Weight(s, i, m)
    ensures Tally(t, m) + Weight(s, j, m) == Tally(s, m) + Weight(t, j, m)
  {
    assert Weights(t, m) == Weights(s, m)[j := Weight(t, j, m)];
    SumUpdate(Weights(s, m), j, Weight(t, j, m));
  }

  lemma TallyMono(s: State, t: State, m: Measure)
    requires |s.jobs| == |t.jobs|
    requires forall i :: 0 <= i < |s.jobs| ==> Weight(s, i, m) <= Weight(t, i, m)
    ensures Tally(s, m) <= Tally(t, m)
  {
    SumMono(Weights(s, m), Weights(t, m));
  }

  lemma TallySame(s: State, t: State, m: Measure)
    requires |s.jobs| == |t.jobs|
    requires forall i :: 0 <= i < |s.jobs| ==> Weight(s, i, m) == Weight(t, i, m)
    ensures Tally(s, m) == Tally(t, m)
  {
    assert Weights(s, m) == Weights(t, m);
  }

  lemma TallyAppend(s: State, t: State, m: Measure)
    requires |t.jobs| == |s.jobs| + 1
    requires forall i :: 0 <= i < |s.jobs| ==> Weight(t, i, m) == Weight(s, i, m)
    ensures Tally(t, m) == Tally(s, m) + Weight(t, |s.jobs|, m)
  {
    assert Weights(t, m) == Weights(s, m) + [Weight(t, |s.jobs|, m)];
    SumAppend(Weights(s, m), Weight(t, |s.jobs|, m));
  }

  /** Job `j` stops counting and no other job counts more. */
  lemma TallyDrop(s: State, t: State, j: nat, m: Measure)
    requires j < |s.jobs| == |t.jobs| && Weight(t, j, m) == 0
    requires forall i :: 0 <= i < |s.jobs| ==> Weight(t, i, m) <= Weight(s, i, m)
    ensures Tally(t, m) + Weight(s, j, m) <= Tally(s, m)
  {
    SumUpdate(Weights(s, m), j, 0);
    SumMono(Weights(t, m), Weights(s, m)[j := 0]);
  }

  lemma TallyAtLeast(s: State, j: nat, m: Measure)
    requires j < |s.jobs|
    ensures Weight(s, j, m) <= Tally(s, m)
  {
    SumAtLeast(Weights(s, m), j);
  }

  // ------------------------------------------------------------------ the two chain questions of the worker

  /** _fill_verdict's "absent": one side's on-chain fill has no room for this job beyond the confirmed jobs. */
  predicate Absent(s: State, j: nat)
    requires j < |s.jobs| && |s.onchain| == |s.orders|
  {
    var job := s.jobs[j];
    Sides(s, job.taker, job.maker) &&
    (s.onchain[job.taker] < Tally(s, ConfirmedFill(job.taker)) + job.fill ||
     s.onchain[job.maker] < Tally(s, ConfirmedFill(job.maker)) + job.fill)
  }

  /** USDC, allowance and tokens cover the match on top of everything in flight. */
  predicate Coverable(s: State, j: nat)
    requires j < |s.jobs| && Sides(s, s.jobs[j].taker, s.jobs[j].maker)
  {
    var job := s.jobs[j];
    var buyer, seller, asset :=
      Buyer(s, job.taker, job.maker), Seller(s, job.taker, job.maker), s.orders[job.taker].asset;
    var spend := Spend(s, job.taker, job.maker, job.fill);
    && spend + Tally(s, BusyUsdc(buyer)) <= Get(s.funds.usdc, buyer)
    && spend + Tally(s, BusyUsdc(buyer)) <= Get(s.funds.allowance, buyer)
    && job.fill + Tally(s, BusyCtf(seller, asset)) <= Get(s.funds.ctf, (seller, asset))
  }

  /** Preflight with Committed: the chain covers this job on top of everything in flight. */
  predicate Affordable(s: State, j: nat)
    requires j < |s.jobs| && |s.onchain| == |s.orders|
  {
    var job := s.jobs[j];
    && Sides(s, job.taker, job.maker)
    && s.onchain[job.taker] + Tally(s, BusyFill(job.taker)) + job.fill <= s.orders[job.taker].amount
    && s.onchain[job.maker] + Tally(s, BusyFill(job.maker)) + job.fill <= s.orders[job.maker].amount
    && Coverable(s, j)
  }

  // ------------------------------------------------------------------ events

  datatype Event =
    // order book
    | PostOrder(order: Order, onchain: nat)
    | Match(taker: nat, maker: nat, quantity: nat)
    | MatchOffchain(taker: nat, maker: nat, quantity: nat)
    | CancelOrder(o: nat, seen: nat)          // the cancel route, over the jobs with id below `seen`
    | RetireOrder(o: nat)                     // a culprit's cancelled flag
    | ResyncFilled(o: nat)
    // worker
    | Prepare(j: nat)                         // every check of _send before its claim
    | Sign(j: nat, nonce: nat, fee: Fees)      // conditional claim and write-ahead commit
    | Broadcast(j: nat)                       // the stored bytes reach a node
    | Accept(j: nat)
    | Refuse(j: nat)                          // first broadcast underpriced or out of funds
    | NonceLow(j: nat, at: int)
    | Reopen(j: nat)                          // the mined nonce the node shows is not past ours
    | Settle(j: nat)                          // a foreign transaction took the nonce: back to pending
    | Bump(j: nat, fee: Fees)                  // write-ahead commit of a replacement on the same nonce
    | Confirm(j: nat, tx: Tx)
    | FailReceipt(j: nat, tx: Tx)
    | Drop(j: nat, status: Status)            // rollback of a pending job
    | Note(j: nat, book: Book)
    | Crash
    // environment
    | Mine(tx: Tx, outcome: Outcome)
    | MineForeign(sender: nat)
    | ForeignFill(o: nat, quantity: nat)      // someone else submits a match on this order
    | MoveFunds(funds: Funds)
    | Rotate(account: nat)                    // RELAYER_PRIVATE_KEY replaced

  /**
   Environment hypotheses, one flag each. A theorem names the flags it needs; every other behaviour of
   the environment stays possible.
   */
  datatype Hyp = Hyp(
    steadyKey: bool,        // a replacement is signed with the key its job was sent with
    freshBytes: bool,       // two jobs never sign byte-identical transactions
    refusalFinal: bool,     // a first broadcast is only refused for bytes that no pool holds
    currentReceipts: bool)  // a nonce is only settled when no receipt of the job exists (no RPC lag)

  predicate FreshTx(s: State, j: nat, tx: Tx) {
    forall i :: 0 <= i < |s.jobs| && i != j ==> tx !in s.jobs[i].txs
  }

  predicate FundsGrow(f: Funds, g: Funds) {
    && (forall a :: a in f.usdc ==> f.usdc[a] <= Get(g.usdc, a))
    && (forall a :: a in f.allowance ==> f.allowance[a] <= Get(g.allowance, a))
    && (forall k :: k in f.ctf ==> f.ctf[k] <= Get(g.ctf, k))
  }

  predicate Crossing(s: State, taker: nat, maker: nat, quantity: nat) {
    && Sides(s, taker, maker) && quantity > 0
    && var t, m := s.orders[taker], s.orders[maker];
    && !t.cancelled && !m.cancelled
    && t.isBuy != m.isBuy && t.maker != m.maker && t.asset == m.asset
    && (if t.isBuy then t.price >= m.price else m.price >= t.price)
    && t.filled + quantity <= t.amount && m.filled + quantity <= m.amount
  }

  /** Every check of _send passed: payable, orders open, and no earlier transaction of the job landed. */
  predicate Ready(s: State, j: nat)
    requires j < |s.jobs| && |s.onchain| == |s.orders|
  {
    && s.jobs[j].status == Pending && Affordable(s, j)
    && !s.orders[s.jobs[j].taker].cancelled && !s.orders[s.jobs[j].maker].cancelled
    && (s.jobs[j].txs != [] ==> Absent(s, j))
  }

  predicate Enabled(h: Hyp, s: State, e: Event) {
    && |s.onchain| == |s.orders|
    && match e
       case PostOrder(o, x) => o.filled == 0 && o.offchain == 0 && !o.cancelled && x <= o.amount
       case Match(t, m, q) => Crossing(s, t, m, q)
       case MatchOffchain(t, m, q) => Crossing(s, t, m, q)
       case CancelOrder(o, seen) => o < |s.orders| && seen <= |s.jobs|
       case RetireOrder(o) => o < |s.orders|
       case ResyncFilled(o) => o < |s.orders|
       case Prepare(j) => j < |s.jobs| && Ready(s, j)
       case Sign(j, nonce, fee) =>
         && j < |s.jobs| && s.prepared == Some(j) && s.jobs[j].status == Pending
         && (h.freshBytes ==> FreshTx(s, j, MatchTx(s.jobs[j], s.account, nonce, fee)))
       case Broadcast(j) => j < |s.jobs| && InFlight(s.jobs[j]) && s.jobs[j].raw.Some?
       case Accept(j) => j < |s.jobs| && InFlight(s.jobs[j])
       case Refuse(j) =>
         && j < |s.jobs| && s.jobs[j].status == Sending && s.jobs[j].raw.Some?
         && (h.refusalFinal ==> s.jobs[j].raw.value !in s.pool)
       case NonceLow(j, _) => j < |s.jobs| && InFlight(s.jobs[j])
       case Reopen(j) => j < |s.jobs| && s.jobs[j].status == Sent
       case Settle(j) =>
         && j < |s.jobs| && s.jobs[j].status == Sent && s.jobs[j].consumedAt.Some?
         && NonceConsumed(s, s.jobs[j]) && Absent(s, j)
         && (h.currentReceipts ==> forall tx :: tx in s.jobs[j].txs ==> !IsMined(s, tx))
       case Bump(j, fee) =>
         && j < |s.jobs| && s.jobs[j].status == Sent && s.jobs[j].nonce.Some?
         && (h.steadyKey ==> s.account == s.jobs[j].sender)
         && (h.freshBytes ==> FreshTx(s, j, MatchTx(s.jobs[j], s.account, s.jobs[j].nonce.value, fee)))
       case Confirm(j, tx) => j < |s.jobs| && Live(s.jobs[j]) && tx in s.jobs[j].txs && Landed(s, tx)
       case FailReceipt(j, tx) =>
         j < |s.jobs| && InFlight(s.jobs[j]) && tx in s.jobs[j].txs && IsMined(s, tx) && !Landed(s, tx)
       case Drop(j, status) =>
         j < |s.jobs| && s.jobs[j].status == Pending && (status == Failed || status == Cancelled)
       case Note(j, _) => j < |s.jobs|
       case Crash => true
       case Mine(tx, outcome) =>
         CanMine(s, tx) && tx.nonce == |Line(s, tx.sender)| &&
         (outcome == Filled ==> Executable(s, tx.taker, tx.maker, tx.fill))
       case MineForeign(_) => true
       case ForeignFill(o, q) => o < |s.orders| && s.onchain[o] + q <= s.orders[o].amount
       case MoveFunds(f) => true
       case Rotate(_) => true
  }

  function SetJob(s: State, j: nat, job: Job): State
    requires j < |s.jobs|
  {
    s.(jobs := s.jobs[j := job])
  }

  /** rollback_job's clamp: filled - fill, never below zero. */
  function Lower(o: Order, fill: nat): Order {
    o.(filled := if o.filled > fill then o.filled - fill else 0)
  }

  function LowerBoth(orders: seq<Order>, taker: nat, maker: nat, fill: nat): (r: seq<Order>)
    ensures |r| == |orders|
  {
    seq(|orders|, i requires 0 <= i < |orders| =>
      if i == taker || i == maker then Lower(orders[i], fill) else orders[i])
  }

  /** Undo the optimistic fill of job `j` and make it terminal. */
  function Rollback(s: State, j: nat, status: Status): State
    requires j < |s.jobs|
  {
    var job := s.jobs[j];
    s.(jobs := s.jobs[j := job.(status := status)], orders := LowerBoth(s.orders, job.taker, job.maker, job.fill))
  }

  /** The cancel route's loop over this order's jobs: pending ones are rolled back, in id order. */
  function CancelJobs(s: State, o: nat, seen: nat): (t: State)
    requires seen <= |s.jobs|
    ensures |t.jobs| == |s.jobs| && |t.orders| == |s.orders|
    decreases seen
  {
    if seen == 0 then s
    else
      var t := CancelJobs(s, o, seen - 1);
      if t.jobs[seen - 1].status == Pending && Touches(t.jobs[seen - 1], o)
      then Rollback(t, seen - 1, Cancelled) else t
  }

  function Flag(s: State, o: nat): State
    requires o < |s.orders|
  {
    s.(orders := s.orders[o := s.orders[o].(cancelled := true)])
  }

  /** filled := on-chain fill plus live jobs, capped at the amount. */
  function Resynced(s: State, o: nat): nat
    requires o < |s.orders| == |s.onchain|
  {
    var target := s.onchain[o] + Tally(s, LiveFill(o));
    if target > s.orders[o].amount then s.orders[o].amount else target
  }

  function Taken(s: State, taker: nat, maker: nat, quantity: nat, offchain: nat): seq<Order>
    requires Sides(s, taker, maker)
  {
    var t, m := s.orders[taker], s.orders[maker];
    s.orders[taker := t.(filled := t.filled + quantity, offchain := t.offchain + offchain)]
            [maker := m.(filled := m.filled + quantity, offchain := m.offchain + offchain)]
  }

  function NewJob(taker: nat, maker: nat, quantity: nat): Job {
    Job(taker, maker, quantity, Pending, 0, None, [], None, None, NO_BOOK)
  }

  function Signed(job: Job, tx: Tx): Job {
    job.(status := Sending, sender := tx.sender, nonce := Some(tx.nonce), raw := Some(tx),
         txs := job.txs + [tx], consumedAt := None)
  }

  function AfterMine(s: State, tx: Tx, outcome: Outcome): State
    requires outcome == Filled ==> Executable(s, tx.taker, tx.maker, tx.fill)
  {
    var t := s.(lines := s.lines[tx.sender := Line(s, tx.sender) + [Ours(tx, outcome)]]);
    if outcome != Filled then t
    else t.(onchain := s.onchain[tx.taker := s.onchain[tx.taker] + tx.fill]
                                [tx.maker := s.onchain[tx.maker] + tx.fill],
            funds := Transfer(s, tx.taker, tx.maker, tx.fill))
  }

  function Next(h: Hyp, s: State, e: Event): State
    requires Enabled(h, s, e)
  {
    match e
    case PostOrder(o, x) => s.(orders := s.orders + [o], onchain := s.onchain + [x])
    case Match(t, m, q) => s.(orders := Taken(s, t, m, q, 0), jobs := s.jobs + [NewJob(t, m, q)])
    case MatchOffchain(t, m, q) => s.(orders := Taken(s, t, m, q, q))
    case CancelOrder(o, seen) => CancelJobs(Flag(s, o), o, seen)
    case RetireOrder(o) => Flag(s, o)
    case ResyncFilled(o) => s.(orders := s.orders[o := s.orders[o].(filled := Resynced(s, o))])
    case Prepare(j) => s.(prepared := Some(j))
    case Sign(j, nonce, fee) =>
      SetJob(s, j, Signed(s.jobs[j], MatchTx(s.jobs[j], s.account, nonce, fee))).(prepared := None)
    case Broadcast(j) => s.(pool := s.pool + {s.jobs[j].raw.value})
    case Accept(j) => SetJob(s, j, s.jobs[j].(status := Sent))
    case Refuse(j) => SetJob(s, j, BackToPending(s.jobs[j]))
    case NonceLow(j, at) => SetJob(s, j, s.jobs[j].(status := Sent, consumedAt := Some(at)))
    case Reopen(j) => SetJob(s, j, s.jobs[j].(consumedAt := None))
    case Settle(j) => SetJob(s, j, BackToPending(s.jobs[j]))
    case Bump(j, fee) =>
      var job := s.jobs[j];
      var tx := MatchTx(job, s.account, job.nonce.value, fee);
      SetJob(s, j, job.(raw := Some(tx), txs := job.txs + [tx]))
    case Confirm(j, _) => SetJob(s, j, s.jobs[j].(status := Confirmed, consumedAt := None))
    case FailReceipt(j, _) => Rollback(s, j, Failed)
    case Drop(j, status) => Rollback(s, j, status)
    case Note(j, book) => SetJob(s, j, s.jobs[j].(book := book))
    case Crash => s.(prepared := None)
    case Mine(tx, outcome) => AfterMine(s, tx, outcome)
    case MineForeign(a) => s.(lines := s.lines[a := Line(s, a) + [Foreign]])
    case ForeignFill(o, q) => s.(onchain := s.onchain[o := s.onchain[o] + q])
    case MoveFunds(f) => s.(funds := f)
    case Rotate(a) => s.(account := a)
  }

  // ------------------------------------------------------------------ runs

  /** An empty database; the sender's past transactions are nobody's jobs. */
  predicate Initial(s: State) {
    && s.orders == [] && s.jobs == [] && s.onchain == [] && s.pool == {} && s.prepared == None
    && forall a :: a in s.lines ==> forall n :: 0 <= n < |s.lines[a]| ==> s.lines[a][n] == Foreign
  }

  /** `ss` are the states before and after each event of `es`. */
  predicate Run(h: Hyp, es: seq<Event>, ss: seq<State>) {
    && |ss| == |es| + 1 && Initial(ss[0])
    && forall i :: 0 <= i < |es| ==> Enabled(h, ss[i], es[i]) && ss[i + 1] == Next(h, ss[i], es[i])
  }

  ghost predicate Reachable(h: Hyp, s: State) {
    exists es, ss :: Run(h, es, ss) && ss[|es|] == s
  }

  lemma Start(h: Hyp, s: State)
    requires Initial(s)
    ensures Reachable(h, s)
  {
    var es: seq<Event>, ss := [], [s];
    assert Run(h, es, ss) && ss[|es|] == s;
  }

  lemma Extend(h: Hyp, s: State, e: Event)
    requires Reachable(h, s) && Enabled(h, s, e)
    ensures Reachable(h, Next(h, s, e))
  {
    var es, ss :| Run(h, es, ss) && ss[|es|] == s;
    var t := Next(h, s, e);
    assert Run(h, es + [e], ss + [t]) && (ss + [t])[|es + [e]|] == t;
  }

  /** Consecutive events from one state to another. */
  predicate Path(h: Hyp, s: State, es: seq<Event>, t: State)
    decreases |es|
  {
    if es == [] then s == t
    else Enabled(h, s, es[0]) && Path(h, Next(h, s, es[0]), es[1..], t)
  }

  lemma {:induction false} PathAppend(h: Hyp, s: State, es: seq<Event>, t: State, e: Event)
    requires Path(h, s, es, t) && Enabled(h, t, e)
    ensures Path(h, s, es + [e], Next(h, t, e))
    decreases |es|
  {
    if es == [] {
      assert [e][1..] == [];
    } else {
      PathAppend(h, Next(h, s, es[0]), es[1..], t, e);
      assert (es + [e])[1..] == es[1..] + [e];
    }
  }
}
