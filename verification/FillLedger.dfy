/**
 Conservation of Order.filled under every interleaving of matches, rollbacks, cancels, confirmations,
 resyncs and chain moves. Nothing is assumed about the environment. `exact` adds the ledger equation, which every
 event but a resync keeps.
 */
module FillLedger {
  import opened Relay
  import Sums

  ghost predicate Balanced(exact: bool, s: State, o: nat)
    requires o < |s.orders|
  {
    var order := s.orders[o];
    && Tally(s, LiveFill(o)) <= order.filled <= order.amount
    && (exact ==> order.filled == order.offchain + Tally(s, LiveFill(o)) + Tally(s, ConfirmedFill(o)))
  }

  ghost predicate Ledger(exact: bool, s: State) {
    && (forall j :: 0 <= j < |s.jobs| ==> Sides(s, s.jobs[j].taker, s.jobs[j].maker))
    && (forall o :: 0 <= o < |s.orders| ==> Balanced(exact, s, o))
  }

  /** A live job's fill is still inside both orders: rollback_job's clamp at zero never fires. */
  lemma ClampNeverFires(exact: bool, s: State, j: nat)
    requires Ledger(exact, s) && j < |s.jobs| && Live(s.jobs[j])
    ensures s.jobs[j].fill <= s.orders[s.jobs[j].taker].filled
    ensures s.jobs[j].fill <= s.orders[s.jobs[j].maker].filled
  {
    TallyAtLeast(s, j, LiveFill(s.jobs[j].taker));
    TallyAtLeast(s, j, LiveFill(s.jobs[j].maker));
    assert Balanced(exact, s, s.jobs[j].taker) && Balanced(exact, s, s.jobs[j].maker);
  }

  ghost predicate SameClass(a: Job, b: Job) {
    && a.taker == b.taker && a.maker == b.maker && a.fill == b.fill
    && Live(a) == Live(b) && (a.status == Confirmed) == (b.status == Confirmed)
  }

  /** No order's fill and no job's class changes; the order table may grow by unfilled orders. */
  lemma FrameLedger(exact: bool, s: State, t: State)
    requires Ledger(exact, s) && |t.jobs| == |s.jobs| && |s.orders| <= |t.orders|
    requires forall j :: 0 <= j < |s.jobs| ==> SameClass(s.jobs[j], t.jobs[j])
    requires forall o :: 0 <= o < |s.orders| ==>
      && t.orders[o].filled == s.orders[o].filled && t.orders[o].amount == s.orders[o].amount
      && t.orders[o].offchain == s.orders[o].offchain
    requires forall o :: |s.orders| <= o < |t.orders| ==> t.orders[o].filled == 0 == t.orders[o].offchain
    ensures Ledger(exact, t)
  {
    forall o | 0 <= o < |t.orders| ensures Balanced(exact, t, o) {
      if o < |s.orders| {
        assert Balanced(exact, s, o);
      } else {
        Untouched(s, o);
      }
      TallySame(s, t, LiveFill(o));
      TallySame(s, t, ConfirmedFill(o));
    }
  }

  lemma Untouched(s: State, o: nat)
    requires o >= |s.orders| && forall j :: 0 <= j < |s.jobs| ==> Sides(s, s.jobs[j].taker, s.jobs[j].maker)
    ensures Tally(s, LiveFill(o)) == 0 == Tally(s, ConfirmedFill(o))
  {
    Sums.AllZero(Weights(s, LiveFill(o)));
    Sums.AllZero(Weights(s, ConfirmedFill(o)));
  }

  lemma MatchBalances(exact: bool, h: Hyp, s: State, e: Event)
    requires Ledger(exact, s) && Enabled(h, s, e) && (e.Match? || e.MatchOffchain?)
    ensures Ledger(exact, Next(h, s, e))
  {
    var t := Next(h, s, e);
    forall o | 0 <= o < |t.orders| ensures Balanced(exact, t, o) {
      assert Balanced(exact, s, o);
      if e.Match? {
        TallyAppend(s, t, LiveFill(o));
        TallyAppend(s, t, ConfirmedFill(o));
      } else {
        TallySame(s, t, LiveFill(o));
        TallySame(s, t, ConfirmedFill(o));
      }
    }
  }

  /** Rolling a live job back returns exactly its fill to both orders. */
  lemma RollbackBalances(exact: bool, s: State, j: nat, status: Status)
    requires Ledger(exact, s) && j < |s.jobs| && Live(s.jobs[j]) && (status == Failed || status == Cancelled)
    ensures Ledger(exact, Rollback(s, j, status))
  {
    var t := Rollback(s, j, status);
    ClampNeverFires(exact, s, j);
    forall o | 0 <= o < |t.orders| ensures Balanced(exact, t, o) {
      assert Balanced(exact, s, o);
      TallyChange(s, t, j, LiveFill(o));
      TallyChange(s, t, j, ConfirmedFill(o));
    }
  }

  lemma {:induction false} CancelBalances(exact: bool, s: State, o: nat, seen: nat)
    requires Ledger(exact, s) && seen <= |s.jobs|
    ensures Ledger(exact, CancelJobs(s, o, seen))
    decreases seen
  {
    if seen > 0 {
      CancelBalances(exact, s, o, seen - 1);
      var t := CancelJobs(s, o, seen - 1);
      if t.jobs[seen - 1].status == Pending {
        RollbackBalances(exact, t, seen - 1, Cancelled);
      }
    }
  }

  lemma ConfirmBalances(exact: bool, h: Hyp, s: State, j: nat, tx: Tx)
    requires Ledger(exact, s) && Enabled(h, s, Confirm(j, tx))
    ensures Ledger(exact, Next(h, s, Confirm(j, tx)))
  {
    var t := Next(h, s, Confirm(j, tx));
    forall o | 0 <= o < |t.orders| ensures Balanced(exact, t, o) {
      assert Balanced(exact, s, o);
      TallyChange(s, t, j, LiveFill(o));
      TallyChange(s, t, j, ConfirmedFill(o));
    }
  }

  /** The resync leaves `filled` where it is: the chain holds what the ledger says, or the cap hides the difference. */
  predicate ResyncIdle(s: State, o: nat)
    requires o < |s.orders| == |s.onchain|
  {
    Resynced(s, o) == s.orders[o].filled
  }

  predicate Idle(s: State, e: Event) {
    e.ResyncFilled? && e.o < |s.orders| == |s.onchain| ==> ResyncIdle(s, e.o)
  }

  lemma ResyncBalances(h: Hyp, s: State, o: nat)
    requires Ledger(false, s) && Enabled(h, s, ResyncFilled(o))
    ensures Ledger(false, Next(h, s, ResyncFilled(o)))
  {
    var t := Next(h, s, ResyncFilled(o));
    forall k | 0 <= k < |t.orders| ensures Balanced(false, t, k) {
      assert Balanced(false, s, k);
      TallySame(s, t, LiveFill(k));
      TallySame(s, t, ConfirmedFill(k));
    }
  }

  /** A resync keeps the ledger equation if and only if it changes nothing. */
  lemma ResyncExactIff(h: Hyp, s: State, o: nat)
    requires Ledger(true, s) && Enabled(h, s, ResyncFilled(o))
    ensures Ledger(true, Next(h, s, ResyncFilled(o))) <==> ResyncIdle(s, o)
  {
    var t := Next(h, s, ResyncFilled(o));
    assert Balanced(true, s, o);
    TallySame(s, t, LiveFill(o));
    TallySame(s, t, ConfirmedFill(o));
    if ResyncIdle(s, o) {
      assert t.orders == s.orders;
      FrameLedger(true, s, t);
    } else {
      assert !Balanced(true, t, o);
    }
  }

  lemma StepBalances(exact: bool, h: Hyp, s: State, e: Event)
    requires Ledger(exact, s) && Enabled(h, s, e) && (exact ==> !e.ResyncFilled?)
    ensures Ledger(exact, Next(h, s, e))
  {
    if e.Match? || e.MatchOffchain? {
      MatchBalances(exact, h, s, e);
    } else if e.CancelOrder? {
      FrameLedger(exact, s, Flag(s, e.o));
      CancelBalances(exact, Flag(s, e.o), e.o, e.seen);
    } else if e.FailReceipt? {
      RollbackBalances(exact, s, e.j, Failed);
    } else if e.Drop? {
      RollbackBalances(exact, s, e.j, e.status);
    } else if e.Confirm? {
      ConfirmBalances(exact, h, s, e.j, e.tx);
    } else if e.ResyncFilled? {
      ResyncBalances(h, s, e.o);
    } else {
      FrameLedger(exact, s, Next(h, s, e));
    }
  }

  /** In every state of every run each order keeps live fills <= filled <= amount. */
  lemma {:induction false} FillConservation(h: Hyp, es: seq<Event>, ss: seq<State>, i: nat)
    requires Run(h, es, ss) && i < |ss|
    ensures Ledger(false, ss[i])
    decreases i
  {
    if i > 0 {
      FillConservation(h, es, ss, i - 1);
      StepBalances(false, h, ss[i - 1], es[i - 1]);
    }
  }

  ghost predicate AllExact(ss: seq<State>, n: nat)
    requires n < |ss|
  {
    forall i :: 0 <= i <= n ==> Ledger(true, ss[i])
  }

  ghost predicate AllIdle(es: seq<Event>, ss: seq<State>, n: nat)
    requires n <= |es| && n <= |ss|
  {
    forall i :: 0 <= i < n ==> Idle(ss[i], es[i])
  }

  /**
   Over any run, filled is exactly the offchain, live and confirmed fills in every state if and only if no resync
   changed anything.
   */
  lemma {:induction false} ExactIffIdle(h: Hyp, es: seq<Event>, ss: seq<State>, n: nat)
    requires Run(h, es, ss) && n <= |es|
    ensures AllExact(ss, n) <==> AllIdle(es, ss, n)
    decreases n
  {
    if n > 0 {
      ExactIffIdle(h, es, ss, n - 1);
      assert AllExact(ss, n) <==> AllExact(ss, n - 1) && Ledger(true, ss[n]);
      assert AllIdle(es, ss, n) <==> AllIdle(es, ss, n - 1) && Idle(ss[n - 1], es[n - 1]);
      if Ledger(true, ss[n - 1]) {
        if es[n - 1].ResyncFilled? {
          ResyncExactIff(h, ss[n - 1], es[n - 1].o);
        } else {
          StepBalances(true, h, ss[n - 1], es[n - 1]);
        }
      }
    }
  }
}
