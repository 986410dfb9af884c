/**
 The cancel route's answer: when it says no on-chain cancel is needed, the order's signature was never
 broadcast and never will be.
 */
module CancelExposure {
  import opened Options
  import opened Relay
  import RelaySafety
  import FillLedger
  import Sums

  /** Signed at some point, or claimed by the worker. */
  predicate ExposedJob(job: Job) {
    job.txs != [] || InFlight(job) || job.status == Confirmed
  }

  /** Fill of this order held by pending jobs that never signed anything, over the jobs below `seen`. */
  function Unsent(s: State, o: nat, seen: nat): nat
    requires seen <= |s.jobs|
  {
    if seen == 0 then 0
    else
      var job := s.jobs[seen - 1];
      Unsent(s, o, seen - 1) + if Touches(job, o) && job.status == Pending && job.txs == [] then job.fill else 0
  }

  /**
   The route's `onchainCancelRequired`, computed before its rollbacks. The route reads the order row first and
   locks the jobs it finds, so `filled` may be older than the jobs and jobs with id from `seen` on are unknown to it.
   */
  predicate OnchainCancelRequired(s: State, o: nat, seen: nat, filled: nat)
    requires o < |s.orders| && seen <= |s.jobs|
  {
    filled > Unsent(s, o, seen) ||
    exists j :: 0 <= j < seen && Touches(s.jobs[j], o) && ExposedJob(s.jobs[j])
  }

  /** Over a never-exposed order, what the pending jobs hold is all that is live on it, and nothing is confirmed. */
  lemma {:induction false} UnsentIsLive(s: State, o: nat, seen: nat)
    requires seen <= |s.jobs|
    requires forall j :: 0 <= j < seen ==> Sides(s, s.jobs[j].taker, s.jobs[j].maker)
    requires forall j :: 0 <= j < seen && Touches(s.jobs[j], o) ==> !ExposedJob(s.jobs[j])
    ensures Sums.Sum(Weights(s, LiveFill(o))[..seen]) == Unsent(s, o, seen)
    ensures Sums.Sum(Weights(s, ConfirmedFill(o))[..seen]) == 0
    decreases seen
  {
    if seen > 0 {
      UnsentIsLive(s, o, seen - 1);
      var live, done := Weights(s, LiveFill(o)), Weights(s, ConfirmedFill(o));
      Sums.SumAppend(live[..seen - 1], live[seen - 1]);
      Sums.SumAppend(done[..seen - 1], done[seen - 1]);
      assert live[..seen] == live[..seen - 1] + [live[seen - 1]];
      assert done[..seen] == done[..seen - 1] + [done[seen - 1]];
    }
  }

  /**
   Over a book that balances, and with every job read, an on-chain cancel is required exactly when the order traded
   off-chain or one of its jobs ever signed, is claimed or is confirmed.
   */
  lemma RequiredIff(s: State, o: nat)
    requires FillLedger.Ledger(true, s) && o < |s.orders|
    ensures OnchainCancelRequired(s, o, |s.jobs|, s.orders[o].filled) <==>
      || s.orders[o].offchain > 0
      || exists j :: 0 <= j < |s.jobs| && (s.jobs[j].taker == o || s.jobs[j].maker == o)
                     && (s.jobs[j].txs != [] || s.jobs[j].status in {Sending, Sent, Confirmed})
  {
    if forall j :: 0 <= j < |s.jobs| && Touches(s.jobs[j], o) ==> !ExposedJob(s.jobs[j]) {
      UnsentIsLive(s, o, |s.jobs|);
      assert Weights(s, LiveFill(o))[..|s.jobs|] == Weights(s, LiveFill(o));
      assert Weights(s, ConfirmedFill(o))[..|s.jobs|] == Weights(s, ConfirmedFill(o));
      assert FillLedger.Balanced(true, s, o);
    }
  }

  // ------------------------------------------------------------------ what the route does to the rows

  /** What the route gives back to order `k`: the fills of the pending jobs it reads that pair `o` with it. */
  function Freed(s: State, o: nat, k: nat, seen: nat): nat
    requires seen <= |s.jobs|
  {
    if seen == 0 then 0
    else
      var job := s.jobs[seen - 1];
      var paired := (job.taker == o || job.maker == o) && (job.taker == k || job.maker == k);
      Freed(s, o, k, seen - 1) + if paired && job.status == Pending then job.fill else 0
  }

  lemma {:induction false} FreedIsLive(s: State, o: nat, k: nat, seen: nat)
    requires seen <= |s.jobs| && forall j :: 0 <= j < |s.jobs| ==> Sides(s, s.jobs[j].taker, s.jobs[j].maker)
    ensures Freed(s, o, k, seen) <= Sums.Sum(Weights(s, LiveFill(k))[..seen])
    decreases seen
  {
    if seen > 0 {
      FreedIsLive(s, o, k, seen - 1);
      var live := Weights(s, LiveFill(k));
      Sums.SumAppend(live[..seen - 1], live[seen - 1]);
      assert live[..seen] == live[..seen - 1] + [live[seen - 1]];
    }
  }

  /** Every pending job read on the order ends cancelled and only those; each order gets back exactly their fills. */
  lemma {:induction false} CancelledRows(s: State, o: nat, seen: nat)
    requires seen <= |s.jobs|
    ensures var t := CancelJobs(s, o, seen);
      && t == s.(orders := t.orders, jobs := t.jobs)
      && (forall j :: 0 <= j < |s.jobs| ==>
            t.jobs[j] == if j < seen && s.jobs[j].status == Pending && (s.jobs[j].taker == o || s.jobs[j].maker == o)
                         then s.jobs[j].(status := Cancelled) else s.jobs[j])
      && (forall k :: 0 <= k < |s.orders| ==> t.orders[k] == Lower(s.orders[k], Freed(s, o, k, seen)))
    decreases seen
  {
    if seen > 0 {
      CancelledRows(s, o, seen - 1);
    }
  }

  /** Over a book that balances nothing is lost to the clamp: the whole of the cancelled fills is free again. */
  lemma CancelReturns(exact: bool, s: State, o: nat, seen: nat, k: nat)
    requires FillLedger.Ledger(exact, s) && o < |s.orders| && k < |s.orders| && seen <= |s.jobs|
    ensures Freed(s, o, k, seen) <= s.orders[k].filled
    ensures CancelJobs(Flag(s, o), o, seen).orders[k] ==
      s.orders[k].(filled := s.orders[k].filled - Freed(s, o, k, seen), cancelled := s.orders[k].cancelled || k == o)
  {
    var f := Flag(s, o);
    CancelledRows(f, o, seen);
    SameFreed(s, f, o, k, seen);
    FreedIsLive(s, o, k, seen);
    Sums.SumPrefix(Weights(s, LiveFill(k)), seen);
    assert FillLedger.Balanced(exact, s, k);
  }

  lemma {:induction false} SameFreed(s: State, t: State, o: nat, k: nat, seen: nat)
    requires s.jobs == t.jobs && seen <= |s.jobs|
    ensures Freed(s, o, k, seen) == Freed(t, o, k, seen)
    decreases seen
  {
    if seen > 0 {
      SameFreed(s, t, o, k, seen - 1);
    }
  }

  // ------------------------------------------------------------------ write-ahead

  ghost predicate CarriesOwnMatch(job: Job) {
    && (forall tx :: tx in job.txs ==> tx.taker == job.taker && tx.maker == job.maker)
    && (InFlight(job) ==> job.raw.Some? && job.raw.value in job.txs)
  }

  /** Every transaction any node ever saw is in the committed list of a job with that match. */
  ghost predicate WriteAhead(s: State) {
    && (forall j :: 0 <= j < |s.jobs| ==> CarriesOwnMatch(s.jobs[j]))
    && (forall tx :: tx in s.pool ==> exists j :: 0 <= j < |s.jobs| && tx in s.jobs[j].txs)
  }

  lemma {:induction false} CancelWriteAhead(s: State, o: nat, seen: nat)
    requires WriteAhead(s) && seen <= |s.jobs|
    ensures WriteAhead(CancelJobs(s, o, seen))
    decreases seen
  {
    if seen > 0 {
      CancelWriteAhead(s, o, seen - 1);
      var t := CancelJobs(s, o, seen - 1);
      var u := CancelJobs(s, o, seen);
      forall j | 0 <= j < |t.jobs| ensures u.jobs[j].txs == t.jobs[j].txs && CarriesOwnMatch(u.jobs[j]) {
        assert CarriesOwnMatch(t.jobs[j]);
      }
      forall tx | tx in u.pool ensures exists j :: 0 <= j < |u.jobs| && tx in u.jobs[j].txs {
        var j :| 0 <= j < |t.jobs| && tx in t.jobs[j].txs;
        assert tx in u.jobs[j].txs;
      }
    }
  }

  lemma StepWriteAhead(h: Hyp, s: State, e: Event)
    requires WriteAhead(s) && Enabled(h, s, e)
    ensures WriteAhead(Next(h, s, e))
  {
    var t := Next(h, s, e);
    if e.CancelOrder? {
      CancelWriteAhead(Flag(s, e.o), e.o, e.seen);
    } else {
      JobsCarry(h, s, e);
      forall tx | tx in t.pool ensures exists j :: 0 <= j < |t.jobs| && tx in t.jobs[j].txs {
        var j := Recorder(h, s, e, tx);
        assert tx in s.jobs[j].txs;
        RelaySafety.StepGrows(h, s, e, j);
        assert s.jobs[j].txs <= t.jobs[j].txs;
        assert tx in t.jobs[j].txs;
      }
    }
  }

  lemma Recorder(h: Hyp, s: State, e: Event, tx: Tx) returns (j: nat)
    requires WriteAhead(s) && Enabled(h, s, e) && !e.CancelOrder? && tx in Next(h, s, e).pool
    ensures j < |s.jobs| && tx in s.jobs[j].txs
  {
    if e.Broadcast? && tx == s.jobs[e.j].raw.value {
      assert CarriesOwnMatch(s.jobs[e.j]);
      j := e.j;
    } else {
      assert tx in s.pool;
      var k :| 0 <= k < |s.jobs| && tx in s.jobs[k].txs;
      j := k;
    }
  }

  lemma JobsCarry(h: Hyp, s: State, e: Event)
    requires WriteAhead(s) && Enabled(h, s, e) && !e.CancelOrder?
    ensures forall j :: 0 <= j < |Next(h, s, e).jobs| ==> CarriesOwnMatch(Next(h, s, e).jobs[j])
  {
    var t := Next(h, s, e);
    if e.Sign? || e.Bump? {
      SigningCarries(h, s, e);
    } else {
      forall j | 0 <= j < |t.jobs| ensures CarriesOwnMatch(t.jobs[j]) {
        if j < |s.jobs| { assert CarriesOwnMatch(s.jobs[j]); }
      }
    }
  }

  lemma SigningCarries(h: Hyp, s: State, e: Event)
    requires WriteAhead(s) && Enabled(h, s, e) && (e.Sign? || e.Bump?)
    ensures forall j :: 0 <= j < |Next(h, s, e).jobs| ==> CarriesOwnMatch(Next(h, s, e).jobs[j])
  {
    var t := Next(h, s, e);
    var tx := t.jobs[e.j].raw.value;
    assert forall u :: u in t.jobs[e.j].txs <==> u in s.jobs[e.j].txs || u == tx;
    assert CarriesOwnMatch(s.jobs[e.j]);
    forall j | 0 <= j < |t.jobs| && j != e.j ensures CarriesOwnMatch(t.jobs[j]) {
      assert t.jobs[j] == s.jobs[j] && CarriesOwnMatch(s.jobs[j]);
    }
  }

  // ------------------------------------------------------------------ what a cancelled order can still expose

  predicate Carries(tx: Tx, o: nat) {
    tx.taker == o || tx.maker == o
  }

  /** Some continuation of the run has a transaction carrying the order in a pool. */
  ghost predicate Exposable(h: Hyp, s: State, o: nat) {
    exists es, t, tx :: Path(h, s, es, t) && tx in t.pool && Carries(tx, o)
  }

  /** Cleared by the worker and about to be signed. */
  predicate Cleared(s: State, j: nat)
    requires j < |s.jobs|
  {
    s.jobs[j].status == Pending && s.prepared == Some(j)
  }

  /** Cancelled, with nothing of the order pooled, in flight or cleared for signing. */
  ghost predicate Unexposed(s: State, o: nat) {
    && o < |s.orders| && s.orders[o].cancelled
    && (forall tx :: tx in s.pool ==> !Carries(tx, o))
    && (forall j :: 0 <= j < |s.jobs| && Touches(s.jobs[j], o) ==> !InFlight(s.jobs[j]) && !Cleared(s, j))
  }

  lemma {:induction false} CancelPrefix(s: State, o: nat, k: nat, seen: nat)
    requires seen <= |s.jobs|
    ensures var t := CancelJobs(s, k, seen);
      && (o < |s.orders| ==> t.orders[o].cancelled == s.orders[o].cancelled)
      && (forall j :: 0 <= j < seen && t.jobs[j].status == Pending ==> !Touches(t.jobs[j], k))
      && (forall j :: seen <= j < |s.jobs| ==> t.jobs[j] == s.jobs[j])
    decreases seen
  {
    if seen > 0 {
      CancelPrefix(s, o, k, seen - 1);
    }
  }

  lemma {:induction false} OnlyPendingCancelled(s: State, o: nat, seen: nat, j: nat)
    requires seen <= |s.jobs| && j < |s.jobs|
    ensures var t := CancelJobs(s, o, seen);
      && t.jobs[j].txs == s.jobs[j].txs && (t.jobs[j] == s.jobs[j] || t.jobs[j] == s.jobs[j].(status := Cancelled))
    decreases seen
  {
    if seen > 0 {
      OnlyPendingCancelled(s, o, seen - 1, j);
    }
  }

  lemma CancelUnexposed(s: State, k: nat, seen: nat, o: nat)
    requires Unexposed(s, o) && k < |s.orders| && seen <= |s.jobs|
    ensures Unexposed(CancelJobs(Flag(s, k), k, seen), o)
  {
    var f, t := Flag(s, k), CancelJobs(Flag(s, k), k, seen);
    CancelPrefix(f, o, k, seen);
    RelaySafety.CancelLines(f, k, seen);
    forall j | 0 <= j < |t.jobs| && Touches(t.jobs[j], o) ensures !InFlight(t.jobs[j]) && !Cleared(t, j) {
      OnlyPendingCancelled(f, k, seen, j);
      assert !InFlight(s.jobs[j]) && !Cleared(s, j);
    }
  }

  /** Clearing and claiming need open orders, so a cancelled order stays unexposed. */
  lemma StepUnexposed(h: Hyp, s: State, e: Event, o: nat)
    requires WriteAhead(s) && Unexposed(s, o) && Enabled(h, s, e)
    ensures Unexposed(Next(h, s, e), o)
  {
    if e.CancelOrder? {
      CancelUnexposed(s, e.o, e.seen, o);
    } else {
      StepRows(h, s, e, o);
      StepPool(h, s, e, o);
    }
  }

  lemma StepRows(h: Hyp, s: State, e: Event, o: nat)
    requires Unexposed(s, o) && Enabled(h, s, e) && !e.CancelOrder?
    ensures var t := Next(h, s, e);
      && o < |t.orders| && t.orders[o].cancelled
      && (forall j :: 0 <= j < |t.jobs| && Touches(t.jobs[j], o) ==> !InFlight(t.jobs[j]) && !Cleared(t, j))
  {
    var t := Next(h, s, e);
    forall j | 0 <= j < |t.jobs| && Touches(t.jobs[j], o) ensures !InFlight(t.jobs[j]) && !Cleared(t, j) {
      if j < |s.jobs| {
        StepRow(h, s, e, o, j);
      }
    }
  }

  lemma StepRow(h: Hyp, s: State, e: Event, o: nat, j: nat)
    requires Unexposed(s, o) && Enabled(h, s, e) && !e.CancelOrder? && j < |s.jobs|
    requires Touches(Next(h, s, e).jobs[j], o)
    ensures !InFlight(Next(h, s, e).jobs[j]) && !Cleared(Next(h, s, e), j)
  {
    assert Touches(s.jobs[j], o) ==> !InFlight(s.jobs[j]) && !Cleared(s, j);
  }

  lemma StepPool(h: Hyp, s: State, e: Event, o: nat)
    requires WriteAhead(s) && Unexposed(s, o) && Enabled(h, s, e) && !e.CancelOrder?
    ensures forall tx :: tx in Next(h, s, e).pool ==> !Carries(tx, o)
  {
    if e.Broadcast? {
      assert CarriesOwnMatch(s.jobs[e.j]);
    }
  }

  lemma {:induction false} PathUnexposed(h: Hyp, s: State, es: seq<Event>, t: State, o: nat)
    requires WriteAhead(s) && Unexposed(s, o) && Path(h, s, es, t)
    ensures Unexposed(t, o)
    decreases |es|
  {
    if es != [] {
      StepUnexposed(h, s, es[0], o);
      StepWriteAhead(h, s, es[0]);
      PathUnexposed(h, Next(h, s, es[0]), es[1..], t, o);
    }
  }

  // ------------------------------------------------------------------ the other direction: an exposing continuation

  lemma {:induction false} NonceAbove(txs: seq<Tx>) returns (n: nat)
    ensures forall tx :: tx in txs ==> tx.nonce < n
  {
    if txs == [] {
      n := 0;
    } else {
      var last := txs[|txs| - 1];
      n := NonceAbove(txs[..|txs| - 1]);
      n := if n > last.nonce then n else last.nonce + 1;
      assert forall tx :: tx in txs ==> tx in txs[..|txs| - 1] || tx == last;
    }
  }

  lemma {:induction false} NonceAboveAll(jobs: seq<Job>) returns (n: nat)
    ensures forall j, tx :: 0 <= j < |jobs| && tx in jobs[j].txs ==> tx.nonce < n
  {
    if jobs == [] {
      n := 0;
    } else {
      var m := NonceAbove(jobs[|jobs| - 1].txs);
      n := NonceAboveAll(jobs[..|jobs| - 1]);
      n := if n > m then n else m;
    }
  }

  lemma BroadcastExposes(h: Hyp, s: State, j: nat, o: nat)
    requires j < |s.jobs| && CarriesOwnMatch(s.jobs[j]) && |s.onchain| == |s.orders|
    requires InFlight(s.jobs[j]) && Touches(s.jobs[j], o)
    ensures exists t, tx :: Path(h, s, [Broadcast(j)], t) && tx in t.pool && Carries(tx, o)
  {
    var t, tx := Next(h, s, Broadcast(j)), s.jobs[j].raw.value;
    assert [Broadcast(j)][1..] == [];
    assert Path(h, s, [Broadcast(j)], t) && tx in t.pool && Carries(tx, o);
  }

  lemma ClearedExposes(h: Hyp, s: State, j: nat, o: nat)
    requires j < |s.jobs| && CarriesOwnMatch(s.jobs[j]) && |s.onchain| == |s.orders|
    requires Cleared(s, j) && Touches(s.jobs[j], o)
    ensures Exposable(h, s, o)
  {
    var n := NonceAboveAll(s.jobs);
    var e := Sign(j, n, (0, None));
    var tx := MatchTx(s.jobs[j], s.account, n, (0, None));
    assert FreshTx(s, j, tx);
    var t := Next(h, s, e);
    assert t.jobs[j] == Signed(s.jobs[j], tx) && tx in t.jobs[j].txs;
    BroadcastExposes(h, t, j, o);
    var u, x :| Path(h, t, [Broadcast(j)], u) && x in u.pool && Carries(x, o);
    assert ([e] + [Broadcast(j)])[1..] == [Broadcast(j)];
    assert Path(h, s, [e] + [Broadcast(j)], u);
  }

  /** A cancelled order is exposed by some continuation exactly when it is not `Unexposed` already. */
  lemma ExposableIff(h: Hyp, s: State, o: nat)
    requires WriteAhead(s) && |s.onchain| == |s.orders| && o < |s.orders| && s.orders[o].cancelled
    ensures Exposable(h, s, o) <==> !Unexposed(s, o)
  {
    if Unexposed(s, o) {
      forall es, t, tx | Path(h, s, es, t) && tx in t.pool ensures !Carries(tx, o) {
        PathUnexposed(h, s, es, t, o);
      }
    } else if tx :| tx in s.pool && Carries(tx, o) {
      var none: seq<Event> := [];
      assert Path(h, s, none, s);
    } else {
      var j :| 0 <= j < |s.jobs| && Touches(s.jobs[j], o) && (InFlight(s.jobs[j]) || Cleared(s, j));
      assert CarriesOwnMatch(s.jobs[j]);
      if InFlight(s.jobs[j]) {
        BroadcastExposes(h, s, j, o);
      } else {
        ClearedExposes(h, s, j, o);
      }
    }
  }

  // ------------------------------------------------------------------ the route's answer

  /** A job the route did not read is in flight, cleared for signing, or already has a transaction in a pool. */
  predicate MissedExposure(s: State, o: nat, seen: nat) {
    exists j :: seen <= j < |s.jobs| && Touches(s.jobs[j], o)
      && (InFlight(s.jobs[j]) || Cleared(s, j) || exists tx :: tx in s.jobs[j].txs && tx in s.pool)
  }

  lemma AnswerUnexposedIff(h: Hyp, s: State, o: nat, seen: nat, filled: nat)
    requires WriteAhead(s) && Enabled(h, s, CancelOrder(o, seen)) && !OnchainCancelRequired(s, o, seen, filled)
    ensures Unexposed(Next(h, s, CancelOrder(o, seen)), o) <==> !MissedExposure(s, o, seen)
  {
    var f, t := Flag(s, o), Next(h, s, CancelOrder(o, seen));
    CancelPrefix(f, o, o, seen);
    RelaySafety.CancelLines(f, o, seen);
    forall j | 0 <= j < seen && Touches(s.jobs[j], o) ensures s.jobs[j].txs == [] && !InFlight(s.jobs[j]) {
      assert !ExposedJob(s.jobs[j]);
    }
    if !MissedExposure(s, o, seen) {
      forall j | 0 <= j < |t.jobs| && Touches(t.jobs[j], o) ensures !InFlight(t.jobs[j]) && !Cleared(t, j) {
        OnlyPendingCancelled(f, o, seen, j);
      }
      forall tx | tx in t.pool ensures !Carries(tx, o) {
        var j :| 0 <= j < |s.jobs| && tx in s.jobs[j].txs;
        assert CarriesOwnMatch(s.jobs[j]);
      }
    } else {
      var j :| seen <= j < |s.jobs| && Touches(s.jobs[j], o)
        && (InFlight(s.jobs[j]) || Cleared(s, j) || exists tx :: tx in s.jobs[j].txs && tx in s.pool);
      assert t.jobs[j] == s.jobs[j] && CarriesOwnMatch(s.jobs[j]);
    }
  }

  // ------------------------------------------------------------------ over runs

  lemma {:induction false} RunWriteAhead(h: Hyp, es: seq<Event>, ss: seq<State>, i: nat)
    requires Run(h, es, ss) && i < |ss|
    ensures WriteAhead(ss[i])
    decreases i
  {
    if i > 0 {
      RunWriteAhead(h, es, ss, i - 1);
      StepWriteAhead(h, ss[i - 1], es[i - 1]);
    }
  }

  lemma {:induction false} StaysUnexposed(h: Hyp, es: seq<Event>, ss: seq<State>, i: nat, k: nat, o: nat)
    requires Run(h, es, ss) && i <= k < |ss| && Unexposed(ss[i], o)
    ensures Unexposed(ss[k], o)
    decreases k - i
  {
    if i < k {
      StaysUnexposed(h, es, ss, i, k - 1, o);
      RunWriteAhead(h, es, ss, k - 1);
      StepUnexposed(h, ss[k - 1], es[k - 1], o);
    }
  }

  lemma {:induction false} PoolGrows(h: Hyp, es: seq<Event>, ss: seq<State>, i: nat, k: nat, tx: Tx)
    requires Run(h, es, ss) && i <= k < |ss| && tx in ss[i].pool
    ensures tx in ss[k].pool
    decreases k - i
  {
    if i < k {
      PoolGrows(h, es, ss, i, k - 1, tx);
      if es[k - 1].CancelOrder? {
        RelaySafety.CancelLines(Flag(ss[k - 1], es[k - 1].o), es[k - 1].o, es[k - 1].seen);
      }
    }
  }

  /**
   Exactly when the answer "not required" is wrong: after it, some continuation puts a transaction carrying the order
   in a pool if and only if a job the route did not read was in flight, cleared for signing or pooled already. A match
   that merely commits after the route's read is harmless, as the worker never clears a cancelled order.
   */
  lemma CancelExposesIff(h: Hyp, es: seq<Event>, ss: seq<State>, i: nat, filled: nat)
    requires Run(h, es, ss) && i < |es| && es[i].CancelOrder?
    requires !OnchainCancelRequired(ss[i], es[i].o, es[i].seen, filled)
    ensures Exposable(h, ss[i + 1], es[i].o) <==> MissedExposure(ss[i], es[i].o, es[i].seen)
  {
    RunWriteAhead(h, es, ss, i);
    RunWriteAhead(h, es, ss, i + 1);
    CancelPrefix(Flag(ss[i], es[i].o), es[i].o, es[i].o, es[i].seen);
    RelaySafety.CancelLines(Flag(ss[i], es[i].o), es[i].o, es[i].seen);
    AnswerUnexposedIff(h, ss[i], es[i].o, es[i].seen, filled);
    ExposableIff(h, ss[i + 1], es[i].o);
  }

  /**
   When the cancel of order `o` answers that no on-chain cancel is required, and no job it missed was exposed, no
   transaction carrying that order is ever in any pool: not before the answer, not after it.
   */
  lemma CancelAnswerSound(h: Hyp, es: seq<Event>, ss: seq<State>, i: nat, k: nat, filled: nat, tx: Tx)
    requires Run(h, es, ss) && i < |es| && es[i].CancelOrder? && k < |ss|
    requires !OnchainCancelRequired(ss[i], es[i].o, es[i].seen, filled) && !MissedExposure(ss[i], es[i].o, es[i].seen)
    requires tx in ss[k].pool
    ensures !Carries(tx, es[i].o)
  {
    RunWriteAhead(h, es, ss, i);
    AnswerUnexposedIff(h, ss[i], es[i].o, es[i].seen, filled);
    var last := if k <= i then i + 1 else k;
    PoolGrows(h, es, ss, k, last, tx);
    StaysUnexposed(h, es, ss, i + 1, last, es[i].o);
  }
}
