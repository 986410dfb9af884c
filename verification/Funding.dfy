/**
 In-flight funding: preflight with Committed keeps every unmined in-flight job payable, so none of them
 can run another out of funds in whatever order they mine. Makers may move funds and third parties may fill orders;
 what of that keeps the backing is characterised exactly.
 */
module Funding {
  import opened Options
  import opened Relay
  import opened Sums
  import RelaySafety
  import opened Exactness

  ghost predicate PreparedOk(s: State) {
    s.prepared.Some? ==> s.prepared.value < |s.jobs| && !InFlight(s.jobs[s.prepared.value])
  }

  ghost predicate Backed(s: State) {
    && |s.onchain| == |s.orders| && PreparedOk(s)
    && (forall o :: 0 <= o < |s.orders| ==> s.onchain[o] + Tally(s, OpenFill(o)) <= s.orders[o].amount)
    && (forall a {:trigger OpenUsdc(a)} :: Tally(s, OpenUsdc(a)) <= Get(s.funds.usdc, a)
                                      && Tally(s, OpenUsdc(a)) <= Get(s.funds.allowance, a))
    && (forall a, k {:trigger OpenCtf(a, k)} :: Tally(s, OpenCtf(a, k)) <= Get(s.funds.ctf, (a, k)))
  }

  predicate Claim(m: Measure) {
    m.OpenFill? || m.OpenUsdc? || m.OpenCtf?
  }

  /** Nobody's claim grows and nobody's backing shrinks. */
  lemma Relax(s: State, t: State)
    requires Backed(s) && |t.jobs| == |s.jobs| && PreparedOk(t)
    requires |t.orders| == |s.orders| == |t.onchain| && t.onchain == s.onchain && FundsGrow(s.funds, t.funds)
    requires forall o :: 0 <= o < |s.orders| ==> t.orders[o].amount == s.orders[o].amount
    requires forall i, m :: 0 <= i < |s.jobs| && Claim(m) ==> Weight(t, i, m) <= Weight(s, i, m)
    ensures Backed(t)
  {
    forall o | 0 <= o < |t.orders| ensures t.onchain[o] + Tally(t, OpenFill(o)) <= t.orders[o].amount {
      TallyMono(t, s, OpenFill(o));
    }
    forall a
      ensures Tally(t, OpenUsdc(a)) <= Get(t.funds.usdc, a) && Tally(t, OpenUsdc(a)) <= Get(t.funds.allowance, a)
    {
      TallyMono(t, s, OpenUsdc(a));
    }
    forall a, k ensures Tally(t, OpenCtf(a, k)) <= Get(t.funds.ctf, (a, k)) {
      TallyMono(t, s, OpenCtf(a, k));
    }
  }

  ghost predicate SameTerms(s: State, t: State) {
    |t.orders| == |s.orders| && forall o :: 0 <= o < |s.orders| ==>
      && t.orders[o].maker == s.orders[o].maker && t.orders[o].isBuy == s.orders[o].isBuy
      && t.orders[o].asset == s.orders[o].asset && t.orders[o].price == s.orders[o].price
      && t.orders[o].amount == s.orders[o].amount
  }

  lemma SameCharge(s: State, t: State, i: nat, m: Measure)
    requires SameTerms(s, t) && i < |s.jobs| && i < |t.jobs| && Claim(m)
    requires t.jobs[i].taker == s.jobs[i].taker && t.jobs[i].maker == s.jobs[i].maker
    requires t.jobs[i].fill == s.jobs[i].fill
    requires Claims(t, i) ==> Claims(s, i)
    ensures Weight(t, i, m) <= Weight(s, i, m)
  {
  }

  /** Same chain, same order terms, no new claim. */
  lemma NoNewClaim(s: State, t: State)
    requires Backed(s) && |t.jobs| == |s.jobs| && PreparedOk(t) && SameTerms(s, t)
    requires t.onchain == s.onchain && FundsGrow(s.funds, t.funds)
    requires forall i :: 0 <= i < |s.jobs| ==>
      t.jobs[i].taker == s.jobs[i].taker && t.jobs[i].maker == s.jobs[i].maker && t.jobs[i].fill == s.jobs[i].fill
    requires forall i :: 0 <= i < |s.jobs| && Claims(t, i) ==> Claims(s, i)
    ensures Backed(t)
  {
    forall i, m | 0 <= i < |s.jobs| && Claim(m) ensures Weight(t, i, m) <= Weight(s, i, m) {
      SameCharge(s, t, i, m);
    }
    Relax(s, t);
  }

  lemma RollbackBacked(s: State, j: nat, status: Status)
    requires Backed(s) && j < |s.jobs| && (status == Failed || status == Cancelled)
    ensures Backed(Rollback(s, j, status))
  {
    NoNewClaim(s, Rollback(s, j, status));
  }

  lemma {:induction false} CancelBacked(s: State, o: nat, seen: nat)
    requires Backed(s) && seen <= |s.jobs|
    ensures Backed(CancelJobs(s, o, seen))
    decreases seen
  {
    if seen > 0 {
      CancelBacked(s, o, seen - 1);
      RollbackBacked(CancelJobs(s, o, seen - 1), seen - 1, Cancelled);
    }
  }

  // ------------------------------------------------------------------ steps that add a claim

  function BusyOf(m: Measure): Measure
    requires Claim(m)
  {
    match m
    case OpenFill(o) => BusyFill(o)
    case OpenUsdc(a) => BusyUsdc(a)
    case OpenCtf(a, k) => BusyCtf(a, k)
  }

  /** After clearing job `j`, the claims are at most what is in flight plus this job. */
  lemma PreparedTally(s: State, t: State, j: nat, m: Measure)
    requires j < |s.jobs| && s.jobs[j].status == Pending && t == s.(prepared := Some(j)) && Claim(m)
    ensures Tally(t, m) <= Tally(s, BusyOf(m)) + Charge(s, s.jobs[j], m)
    ensures Charge(s, s.jobs[j], m) == 0 ==> Tally(t, m) <= Tally(s, m)
  {
    var busy, c := Weights(s, BusyOf(m)), Charge(s, s.jobs[j], m);
    SumUpdate(busy, j, c);
    SumMono(Weights(t, m), busy[j := c]);
    if c == 0 { TallyMono(t, s, m); }
  }

  lemma PrepareBacked(h: Hyp, s: State, j: nat)
    requires Backed(s) && Enabled(h, s, Prepare(j))
    ensures Backed(Next(h, s, Prepare(j)))
  {
    var t := Next(h, s, Prepare(j));
    forall o | 0 <= o < |t.orders| ensures t.onchain[o] + Tally(t, OpenFill(o)) <= t.orders[o].amount {
      PreparedTally(s, t, j, OpenFill(o));
    }
    forall a
      ensures Tally(t, OpenUsdc(a)) <= Get(t.funds.usdc, a) && Tally(t, OpenUsdc(a)) <= Get(t.funds.allowance, a)
    {
      PreparedTally(s, t, j, OpenUsdc(a));
    }
    forall a, k ensures Tally(t, OpenCtf(a, k)) <= Get(t.funds.ctf, (a, k)) {
      PreparedTally(s, t, j, OpenCtf(a, k));
    }
  }

  lemma MatchBacked(h: Hyp, s: State, e: Event)
    requires Backed(s) && Enabled(h, s, e) && e.Match?
    ensures Backed(Next(h, s, e))
  {
    var t := Next(h, s, e);
    assert SameTerms(s, t);
    forall i | 0 <= i < |s.jobs| ensures t.jobs[i] == s.jobs[i] && Claims(t, i) == Claims(s, i) { }
    assert !Claims(t, |s.jobs|);
    AppendBacked(s, t);
  }

  lemma AppendBacked(s: State, t: State)
    requires Backed(s) && SameTerms(s, t) && t.onchain == s.onchain && t.funds == s.funds && t.prepared == s.prepared
    requires |t.jobs| == |s.jobs| + 1 && !Claims(t, |s.jobs|)
    requires forall i :: 0 <= i < |s.jobs| ==> t.jobs[i] == s.jobs[i] && Claims(t, i) == Claims(s, i)
    ensures Backed(t)
  {
    forall m | Claim(m) ensures Tally(t, m) == Tally(s, m) {
      TallyAppend(s, t, m);
    }
    forall o | 0 <= o < |t.orders| ensures t.onchain[o] + Tally(t, OpenFill(o)) <= t.orders[o].amount { }
    forall a
      ensures Tally(t, OpenUsdc(a)) <= Get(t.funds.usdc, a) && Tally(t, OpenUsdc(a)) <= Get(t.funds.allowance, a)
    {
    }
    forall a, k ensures Tally(t, OpenCtf(a, k)) <= Get(t.funds.ctf, (a, k)) { }
  }

  lemma PostWeights(h: Hyp, s: State, e: Event, m: Measure)
    requires RelaySafety.Inv(s) && Enabled(h, s, e) && e.PostOrder? && Claim(m)
    ensures Tally(Next(h, s, e), m) == Tally(s, m)
  {
    var t := Next(h, s, e);
    forall i | 0 <= i < |s.jobs| ensures Weight(t, i, m) == Weight(s, i, m) {
      assert RelaySafety.JobOk(s, s.jobs[i]);
    }
    TallySame(s, t, m);
  }

  lemma PostBacked(h: Hyp, s: State, e: Event)
    requires RelaySafety.Inv(s) && Backed(s) && Enabled(h, s, e) && e.PostOrder?
    ensures Backed(Next(h, s, e))
  {
    var t := Next(h, s, e);
    forall m | Claim(m) ensures Tally(t, m) == Tally(s, m) {
      PostWeights(h, s, e, m);
    }
    NewOrderUnclaimed(s, |s.orders|);
    forall o | 0 <= o < |t.orders| ensures t.onchain[o] + Tally(t, OpenFill(o)) <= t.orders[o].amount { }
    forall a
      ensures Tally(t, OpenUsdc(a)) <= Get(t.funds.usdc, a) && Tally(t, OpenUsdc(a)) <= Get(t.funds.allowance, a)
    {
    }
    forall a, k ensures Tally(t, OpenCtf(a, k)) <= Get(t.funds.ctf, (a, k)) { }
  }

  lemma NewOrderUnclaimed(s: State, o: nat)
    requires RelaySafety.Inv(s) && o >= |s.orders|
    ensures Tally(s, OpenFill(o)) == 0
  {
    forall i | 0 <= i < |s.jobs| ensures Weight(s, i, OpenFill(o)) == 0 {
      assert RelaySafety.JobOk(s, s.jobs[i]);
    }
    AllZero(Weights(s, OpenFill(o)));
  }

  // ------------------------------------------------------------------ mining

  /** Whoever mines next is an open job, so its claim was counted. */
  lemma MinerOpen(s: State, tx: Tx) returns (j: nat)
    requires RelaySafety.Inv(s) && DroppedDead(s) && CanMine(s, tx)
    ensures j < |s.jobs| && tx in s.jobs[j].txs && Open(s, s.jobs[j])
    ensures Sides(s, tx.taker, tx.maker)
    ensures s.jobs[j].taker == tx.taker && s.jobs[j].maker == tx.maker && s.jobs[j].fill == tx.fill
  {
    var k :| 0 <= k < |s.jobs| && tx in s.jobs[k].txs;
    j := k;
    assert RelaySafety.JobOk(s, s.jobs[j]);
  }

  lemma MineBacked(h: Hyp, s: State, tx: Tx, outcome: Outcome)
    requires RelaySafety.Inv(s) && DroppedDead(s) && Backed(s) && Enabled(h, s, Mine(tx, outcome))
    ensures Backed(Next(h, s, Mine(tx, outcome)))
  {
    var t := Next(h, s, Mine(tx, outcome));
    var j := MinerOpen(s, tx);
    forall i | 0 <= i < |s.jobs| && Claims(t, i) ensures Claims(s, i) { }
    assert PreparedOk(t);
    if outcome != Filled {
      NoNewClaim(s, t);
    } else {
      forall i, m | 0 <= i < |s.jobs| && Claim(m) ensures Weight(t, i, m) <= Weight(s, i, m) {
        SameCharge(s, t, i, m);
      }
      LandBacked(s, t, j, tx);
    }
  }

  ghost predicate Lands(s: State, t: State, j: nat, tx: Tx) {
    && Backed(s) && j < |s.jobs| == |t.jobs| && Open(s, s.jobs[j]) && !Claims(t, j)
    && s.jobs[j].taker == tx.taker && s.jobs[j].maker == tx.maker && s.jobs[j].fill == tx.fill
    && Executable(s, tx.taker, tx.maker, tx.fill) && t == AfterMine(s, tx, Filled)
    && forall i, m :: 0 <= i < |s.jobs| && Claim(m) ==> Weight(t, i, m) <= Weight(s, i, m)
  }

  lemma LandUsdc(s: State, t: State, j: nat, tx: Tx, a: nat)
    requires Lands(s, t, j, tx)
    ensures Tally(t, OpenUsdc(a)) <= Get(t.funds.usdc, a) && Tally(t, OpenUsdc(a)) <= Get(t.funds.allowance, a)
  {
    TallyDrop(s, t, j, OpenUsdc(a));
    assert Tally(s, OpenUsdc(a)) <= Get(s.funds.usdc, a) && Tally(s, OpenUsdc(a)) <= Get(s.funds.allowance, a);
  }

  lemma LandCtf(s: State, t: State, j: nat, tx: Tx, a: nat, k: nat)
    requires Lands(s, t, j, tx)
    ensures Tally(t, OpenCtf(a, k)) <= Get(t.funds.ctf, (a, k))
  {
    TallyDrop(s, t, j, OpenCtf(a, k));
    assert Tally(s, OpenCtf(a, k)) <= Get(s.funds.ctf, (a, k));
  }

  lemma LandBacked(s: State, t: State, j: nat, tx: Tx)
    requires Lands(s, t, j, tx) && PreparedOk(t)
    ensures Backed(t)
  {
    forall o | 0 <= o < |t.orders| ensures t.onchain[o] + Tally(t, OpenFill(o)) <= t.orders[o].amount {
      TallyDrop(s, t, j, OpenFill(o));
    }
    forall a
      ensures Tally(t, OpenUsdc(a)) <= Get(t.funds.usdc, a) && Tally(t, OpenUsdc(a)) <= Get(t.funds.allowance, a)
    {
      LandUsdc(s, t, j, tx, a);
    }
    forall a, k ensures Tally(t, OpenCtf(a, k)) <= Get(t.funds.ctf, (a, k)) {
      LandCtf(s, t, j, tx, a, k);
    }
  }

  // ------------------------------------------------------------------ every step

  /** The new funds cover every open claim. */
  ghost predicate Covers(s: State, f: Funds)
    requires |s.onchain| == |s.orders|
  {
    && (forall a {:trigger OpenUsdc(a)} ::
          Tally(s, OpenUsdc(a)) <= Get(f.usdc, a) && Tally(s, OpenUsdc(a)) <= Get(f.allowance, a))
    && (forall a, k {:trigger OpenCtf(a, k)} :: Tally(s, OpenCtf(a, k)) <= Get(f.ctf, (a, k)))
  }

  /** What an event of the outside must leave: room for the open fills, and funds for the open claims. */
  ghost predicate Leaves(h: Hyp, s: State, e: Event)
    requires Enabled(h, s, e)
  {
    match e
    case ForeignFill(o, q) => s.onchain[o] + q + Tally(s, OpenFill(o)) <= s.orders[o].amount
    case MoveFunds(f) => Covers(s, f)
    case _ => true
  }

  /** An event keeps every open claim backed if and only if it leaves that much; only outside events can fail to. */
  lemma StepBackedIff(h: Hyp, s: State, e: Event)
    requires RelaySafety.Inv(s) && DroppedDead(s) && Backed(s) && Enabled(h, s, e)
    ensures Backed(Next(h, s, e)) <==> Leaves(h, s, e)
  {
    if e.PostOrder? {
      PostBacked(h, s, e);
    } else if e.Match? {
      MatchBacked(h, s, e);
    } else if e.CancelOrder? {
      NoNewClaim(s, Flag(s, e.o));
      CancelBacked(Flag(s, e.o), e.o, e.seen);
    } else if e.FailReceipt? {
      RollbackBacked(s, e.j, Failed);
    } else if e.Drop? {
      RollbackBacked(s, e.j, e.status);
    } else if e.Prepare? {
      PrepareBacked(h, s, e.j);
    } else if e.Mine? {
      MineBacked(h, s, e.tx, e.outcome);
    } else {
      OtherBackedIff(h, s, e);
    }
  }

  lemma OtherBackedIff(h: Hyp, s: State, e: Event)
    requires Backed(s) && Enabled(h, s, e) && ClaimFree(e)
    ensures Backed(Next(h, s, e)) <==> Leaves(h, s, e)
  {
    if e.ForeignFill? {
      ForeignBackedIff(h, s, e.o, e.quantity);
    } else if e.MoveFunds? {
      MoveBackedIff(h, s, e.funds);
    } else if RelaySafety.BookEvent(e) || RelaySafety.ChainEvent(e) {
      OutsideBacked(h, s, e);
    } else {
      WorkerBacked(h, s, e);
    }
  }

  lemma SameTallies(s: State, t: State)
    requires |s.onchain| == |s.orders| == |t.onchain| && t.jobs == s.jobs && t.orders == s.orders && t.lines == s.lines
    requires t.prepared == s.prepared
    ensures forall m {:trigger Tally(t, m)} :: Claim(m) ==> Tally(t, m) == Tally(s, m)
  {
    forall m | Claim(m) ensures Tally(t, m) == Tally(s, m) {
      forall i | 0 <= i < |s.jobs| ensures Weight(t, i, m) == Weight(s, i, m) { }
      TallySame(s, t, m);
    }
  }

  /** A third party's fill is safe exactly when the order keeps room for everything in flight on it. */
  lemma ForeignBackedIff(h: Hyp, s: State, o: nat, q: nat)
    requires Backed(s) && Enabled(h, s, ForeignFill(o, q))
    ensures Backed(Next(h, s, ForeignFill(o, q))) <==> s.onchain[o] + q + Tally(s, OpenFill(o)) <= s.orders[o].amount
  {
    var t := Next(h, s, ForeignFill(o, q));
    SameTallies(s, t);
    forall p | 0 <= p < |t.orders| ensures Tally(t, OpenFill(p)) == Tally(s, OpenFill(p)) { }
    forall a ensures Tally(t, OpenUsdc(a)) == Tally(s, OpenUsdc(a)) { }
    forall a, k ensures Tally(t, OpenCtf(a, k)) == Tally(s, OpenCtf(a, k)) { }
  }

  /** A move of funds is safe exactly when it covers every open claim. */
  lemma MoveBackedIff(h: Hyp, s: State, f: Funds)
    requires Backed(s) && Enabled(h, s, MoveFunds(f))
    ensures Backed(Next(h, s, MoveFunds(f))) <==> Covers(s, f)
  {
    var t := Next(h, s, MoveFunds(f));
    SameTallies(s, t);
    forall p | 0 <= p < |t.orders| ensures Tally(t, OpenFill(p)) == Tally(s, OpenFill(p)) { }
    forall a ensures Tally(t, OpenUsdc(a)) == Tally(s, OpenUsdc(a)) { }
    forall a, k ensures Tally(t, OpenCtf(a, k)) == Tally(s, OpenCtf(a, k)) { }
  }

  /** Makers who withdraw neither funds nor allowances leave every claim covered. */
  lemma PassiveCovers(s: State, f: Funds)
    requires Backed(s) && FundsGrow(s.funds, f)
    ensures Covers(s, f)
  {
    forall a ensures Tally(s, OpenUsdc(a)) <= Get(f.usdc, a) && Tally(s, OpenUsdc(a)) <= Get(f.allowance, a) {
      assert Tally(s, OpenUsdc(a)) <= Get(s.funds.usdc, a) && Tally(s, OpenUsdc(a)) <= Get(s.funds.allowance, a);
    }
    forall a, k ensures Tally(s, OpenCtf(a, k)) <= Get(f.ctf, (a, k)) {
      assert Tally(s, OpenCtf(a, k)) <= Get(s.funds.ctf, (a, k));
    }
  }

  predicate ClaimFree(e: Event) {
    !e.PostOrder? && !e.Match? && !e.CancelOrder? && !e.FailReceipt? && !e.Drop? && !e.Prepare? && !e.Mine?
  }

  /** One job's row is rewritten without giving it a claim it did not have. */
  lemma RewriteBacked(s: State, t: State, j: nat)
    requires Backed(s) && j < |s.jobs| && PreparedOk(t)
    requires |t.jobs| == |s.jobs| && t == s.(jobs := s.jobs[j := t.jobs[j]], prepared := t.prepared)
    requires t.prepared == s.prepared || t.prepared == None
    requires t.jobs[j].taker == s.jobs[j].taker && t.jobs[j].maker == s.jobs[j].maker
    requires t.jobs[j].fill == s.jobs[j].fill
    requires Claims(t, j) ==> Claims(s, j)
    ensures Backed(t)
  {
    forall i | 0 <= i < |s.jobs| && Claims(t, i) ensures Claims(s, i) {
      if i != j { assert t.jobs[i] == s.jobs[i]; }
    }
    NoNewClaim(s, t);
  }

  /** Events on one job, or on the worker's memory: the chain and the order table stay as they are. */
  lemma WorkerBacked(h: Hyp, s: State, e: Event)
    requires Backed(s) && Enabled(h, s, e) && ClaimFree(e)
    requires !RelaySafety.BookEvent(e) && !RelaySafety.ChainEvent(e)
    ensures Backed(Next(h, s, e))
  {
    var t := Next(h, s, e);
    if e.Crash? || e.Broadcast? {
      forall i | 0 <= i < |s.jobs| && Claims(t, i) ensures Claims(s, i) { }
      NoNewClaim(s, t);
    } else {
      RewriteBacked(s, t, e.j);
    }
  }

  /** Other events of the book or the environment: the jobs stay as they are and nobody loses backing. */
  lemma OutsideBacked(h: Hyp, s: State, e: Event)
    requires Backed(s) && Enabled(h, s, e) && ClaimFree(e) && !e.ForeignFill? && !e.MoveFunds?
    requires RelaySafety.BookEvent(e) || RelaySafety.ChainEvent(e)
    ensures Backed(Next(h, s, e))
  {
    var t := Next(h, s, e);
    assert t.jobs == s.jobs && t.prepared == s.prepared && SameTerms(s, t);
    forall i | 0 <= i < |s.jobs| && Claims(t, i) ensures Claims(s, i) { }
    NoNewClaim(s, t);
  }

  lemma InitialBacked(s: State)
    requires Initial(s)
    ensures Backed(s)
  {
    forall m ensures Tally(s, m) == 0 {
      assert Weights(s, m) == [];
    }
  }

  ghost predicate AllBacked(ss: seq<State>, n: nat)
    requires n < |ss|
  {
    forall i :: 0 <= i <= n ==> Backed(ss[i])
  }

  ghost predicate AllLeave(h: Hyp, es: seq<Event>, ss: seq<State>, n: nat)
    requires Run(h, es, ss) && n <= |es|
  {
    forall i :: 0 <= i < n ==> Leaves(h, ss[i], es[i])
  }

  /**
   Over any run, every open claim is backed in every state if and only if each third-party fill left room for the open
   fills and each move of funds covered the open claims. No job may be failed while it can still land.
   */
  lemma {:induction false} RunBackedIff(h: Hyp, es: seq<Event>, ss: seq<State>, n: nat)
    requires RelaySafety.Trusted(h) && Run(h, es, ss) && n <= |es| && AllFailsSafe(es, ss, n)
    ensures AllBacked(ss, n) <==> AllLeave(h, es, ss, n)
    decreases n
  {
    if n == 0 {
      InitialBacked(ss[0]);
    } else {
      RunBackedIff(h, es, ss, n - 1);
      assert AllBacked(ss, n) <==> AllBacked(ss, n - 1) && Backed(ss[n]);
      assert AllLeave(h, es, ss, n) <==> AllLeave(h, es, ss, n - 1) && Leaves(h, ss[n - 1], es[n - 1]);
      if Backed(ss[n - 1]) {
        BackedStep(h, es, ss, n);
      }
    }
  }

  lemma BackedStep(h: Hyp, es: seq<Event>, ss: seq<State>, n: nat)
    requires RelaySafety.Trusted(h) && Run(h, es, ss) && 0 < n <= |es| && AllFailsSafe(es, ss, n) && Backed(ss[n - 1])
    ensures Backed(ss[n]) <==> Leaves(h, ss[n - 1], es[n - 1])
  {
    RelaySafety.RunInv(h, es, ss, n - 1);
    DeadIffFailsSafe(h, es, ss, n);
    StepBackedIff(h, ss[n - 1], es[n - 1]);
  }

  /** Makers who never withdraw and fills that leave room are enough. */
  lemma {:induction false} PassiveLeaves(h: Hyp, es: seq<Event>, ss: seq<State>, n: nat)
    requires RelaySafety.Trusted(h) && Run(h, es, ss) && n <= |es| && AllFailsSafe(es, ss, n)
    requires forall i :: 0 <= i < n && es[i].MoveFunds? ==> FundsGrow(ss[i].funds, es[i].funds)
    requires forall i :: 0 <= i < n && es[i].ForeignFill? ==> Leaves(h, ss[i], es[i])
    ensures AllLeave(h, es, ss, n)
    decreases n
  {
    if n > 0 {
      PassiveLeaves(h, es, ss, n - 1);
      RunBackedIff(h, es, ss, n - 1);
      assert Backed(ss[n - 1]);
      if es[n - 1].MoveFunds? {
        PassiveCovers(ss[n - 1], es[n - 1].funds);
      }
    }
  }

  /**
   In such a run every transaction that can still mine passes the Exchange's funds and overfill checks, in every state.
   As mining is itself a step, this holds for each of them in whatever order they mine.
   */
  lemma AlwaysExecutable(h: Hyp, es: seq<Event>, ss: seq<State>, i: nat, tx: Tx)
    requires RelaySafety.Trusted(h) && Run(h, es, ss) && i <= |es|
    requires AllFailsSafe(es, ss, i) && AllLeave(h, es, ss, i)
    requires CanMine(ss[i], tx)
    ensures Executable(ss[i], tx.taker, tx.maker, tx.fill)
  {
    RunBackedIff(h, es, ss, i);
    RelaySafety.RunInv(h, es, ss, i);
    DeadIffFailsSafe(h, es, ss, i);
    BackedExecutable(ss[i], tx);
  }

  lemma BackedExecutable(s: State, tx: Tx)
    requires RelaySafety.Inv(s) && DroppedDead(s) && Backed(s) && CanMine(s, tx)
    ensures |s.onchain| == |s.orders| && Executable(s, tx.taker, tx.maker, tx.fill)
  {
    var j := MinerOpen(s, tx);
    var buyer, seller, asset := Buyer(s, tx.taker, tx.maker), Seller(s, tx.taker, tx.maker), s.orders[tx.taker].asset;
    TallyAtLeast(s, j, OpenFill(tx.taker));
    TallyAtLeast(s, j, OpenFill(tx.maker));
    TallyAtLeast(s, j, OpenUsdc(buyer));
    TallyAtLeast(s, j, OpenCtf(seller, asset));
    assert Tally(s, OpenUsdc(buyer)) <= Get(s.funds.usdc, buyer);
    assert Tally(s, OpenCtf(seller, asset)) <= Get(s.funds.ctf, (seller, asset));
  }
}
