/**
 Concrete runs in which the relayer breaks a promise: one for each hypothesis its theorems name (a replaced key, shared
 bytes, refused bytes, late receipts), for each outside event that `Funding.Leaves` excludes, for a resync that moves
 the ledger, and for a cancel that missed a job.
 */
module Counterexamples {
  import opened Options
  import opened Relay
  import Sums
  import RelaySafety
  import CancelExposure
  import FillLedger

  const ALL := Hyp(true, true, true, true)

  const LOW: Fees := (10, Some(1))
  const HIGH: Fees := (11, Some(2))

  const SELL := Order(1, false, 0, 500_000, 10, 0, false, 0)
  const BUY := Order(2, true, 0, 500_000, 10, 0, false, 0)
  const FUNDS := Funds(map[2 := 10], map[2 := 10], map[(1, 0) := 10])

  const MATCHED := [SELL.(filled := 5), BUY.(filled := 5)]
  const BOOKED := State(MATCHED, [NewJob(1, 0, 5)], map[], {}, [0, 0], FUNDS, 7, None)

  const EMPTY := State([], [], map[], {}, [], FUNDS, 7, None)
  const LISTED := State([SELL, BUY], [], map[], {}, [0, 0], FUNDS, 7, None)

  lemma Post(h: Hyp, s: State, o: Order)
    requires Reachable(h, s) && |s.onchain| == |s.orders| && o.filled == 0 == o.offchain && !o.cancelled
    ensures Reachable(h, s.(orders := s.orders + [o], onchain := s.onchain + [0]))
  {
    Extend(h, s, PostOrder(o, 0));
  }

  lemma Listed(h: Hyp)
    ensures Reachable(h, LISTED)
  {
    Start(h, EMPTY);
    Post(h, EMPTY, SELL);
    Post(h, EMPTY.(orders := [SELL], onchain := [0]), BUY);
    assert [] + [SELL] == [SELL] && [SELL] + [BUY] == [SELL, BUY];
    assert [0] + [0] == [0, 0];
  }

  /** Two crossing orders and one queued match of 5. */
  lemma Booked(h: Hyp)
    ensures Reachable(h, BOOKED)
  {
    Listed(h);
    assert Crossing(LISTED, 1, 0, 5);
    Extend(h, LISTED, Match(1, 0, 5));
    assert Next(h, LISTED, Match(1, 0, 5)) == BOOKED;
  }

  lemma NothingBusy(s: State, m: Measure)
    requires forall j :: 0 <= j < |s.jobs| ==> !InFlight(s.jobs[j])
    requires m.BusyFill? || m.BusyUsdc? || m.BusyCtf?
    ensures Tally(s, m) == 0
  {
    Sums.AllZero(Weights(s, m));
  }

  lemma NothingConfirmed(s: State, o: nat)
    requires forall j :: 0 <= j < |s.jobs| ==> s.jobs[j].status != Confirmed
    ensures Tally(s, ConfirmedFill(o)) == 0
  {
    Sums.AllZero(Weights(s, ConfirmedFill(o)));
  }

  /** With nothing in flight and nothing on chain, preflight clears any match of 5 between the two orders. */
  lemma Clears(s: State, j: nat)
    requires j < |s.jobs| && |s.orders| == 2 && s.onchain == [0, 0] && s.funds == FUNDS
    requires s.orders[0] == MATCHED[0] && s.orders[1] == MATCHED[1]
    requires s.jobs[j].taker == 1 && s.jobs[j].maker == 0 && s.jobs[j].fill == 5
    requires forall i :: 0 <= i < |s.jobs| ==> !InFlight(s.jobs[i])
    ensures Affordable(s, j)
  {
    NothingBusy(s, BusyFill(0));
    NothingBusy(s, BusyFill(1));
    NothingBusy(s, BusyUsdc(2));
    NothingBusy(s, BusyCtf(1, 0));
  }

  // ------------------------------------------------------------------ one event at a time

  lemma DoPrepare(h: Hyp, s: State, j: nat)
    requires Reachable(h, s) && Enabled(h, s, Prepare(j))
    ensures Reachable(h, s.(prepared := Some(j)))
  {
    Extend(h, s, Prepare(j));
  }

  function AfterSign(s: State, j: nat, nonce: nat): State
    requires j < |s.jobs|
  {
    s.(jobs := s.jobs[j := Signed(s.jobs[j], MatchTx(s.jobs[j], s.account, nonce, LOW))], prepared := None)
  }

  lemma DoSign(h: Hyp, s: State, j: nat, nonce: nat)
    requires Reachable(h, s) && |s.onchain| == |s.orders| && j < |s.jobs| && s.prepared == Some(j)
    requires s.jobs[j].status == Pending && (h.freshBytes ==> FreshTx(s, j, MatchTx(s.jobs[j], s.account, nonce, LOW)))
    ensures Reachable(h, AfterSign(s, j, nonce))
  {
    Extend(h, s, Sign(j, nonce, LOW));
  }

  lemma DoBroadcast(h: Hyp, s: State, j: nat)
    requires Reachable(h, s) && |s.onchain| == |s.orders| && j < |s.jobs| && InFlight(s.jobs[j]) && s.jobs[j].raw.Some?
    ensures Reachable(h, s.(pool := s.pool + {s.jobs[j].raw.value}))
  {
    Extend(h, s, Broadcast(j));
  }

  lemma DoMine(h: Hyp, s: State, tx: Tx, outcome: Outcome)
    requires Reachable(h, s) && |s.onchain| == |s.orders| && CanMine(s, tx) && tx.nonce == |Line(s, tx.sender)|
    requires outcome == Filled ==> Executable(s, tx.taker, tx.maker, tx.fill)
    ensures Reachable(h, AfterMine(s, tx, outcome))
  {
    Extend(h, s, Mine(tx, outcome));
  }

  lemma DoJob(h: Hyp, s: State, e: Event)
    requires Reachable(h, s) && Enabled(h, s, e)
    requires e.Accept? || e.NonceLow? || e.Settle? || e.Refuse? || e.Confirm?
    ensures var job := s.jobs[e.j];
      Reachable(h, SetJob(s, e.j,
        if e.Accept? then job.(status := Sent)
        else if e.NonceLow? then job.(status := Sent, consumedAt := Some(e.at))
        else if e.Confirm? then job.(status := Confirmed, consumedAt := None)
        else BackToPending(job)))
  {
    Extend(h, s, e);
  }

  // ------------------------------------------------------------------ a replaced relayer key

  const TX7 := Tx(7, 0, 1, 0, 5, LOW)
  const SIGNED := AfterSign(BOOKED.(prepared := Some(0)), 0, 0)

  lemma FirstSend(h: Hyp)
    ensures Reachable(h, SIGNED)
    ensures SIGNED.jobs == [Signed(NewJob(1, 0, 5), TX7)]
  {
    Booked(h);
    Clears(BOOKED, 0);
    DoPrepare(h, BOOKED, 0);
    DoSign(h, BOOKED.(prepared := Some(0)), 0, 0);
  }

  const POOLED := SIGNED.(pool := {TX7})

  lemma FirstPooled(h: Hyp)
    ensures Reachable(h, POOLED)
  {
    FirstSend(h);
    DoBroadcast(h, SIGNED, 0);
    assert SIGNED.pool + {TX7} == {TX7};
  }

  /**
   _bump signs the stored nonce with the current key. If RELAYER_PRIVATE_KEY was replaced while the job was
   in flight, the replacement competes for nothing: both transactions of the job land.
   */
  lemma RotatedKeyLandsTwice(h: Hyp)
    returns (s: State, tx: Tx, other: Tx)
    requires h == ALL.(steadyKey := false)
    ensures Reachable(h, s) && |s.jobs| == 1
    ensures tx != other && tx in s.jobs[0].txs && other in s.jobs[0].txs && Landed(s, tx) && Landed(s, other)
  {
    FirstPooled(h);
    DoJob(h, POOLED, Accept(0));
    var s1 := SetJob(POOLED, 0, POOLED.jobs[0].(status := Sent));
    Extend(h, s1, Rotate(8));
    var s2 := s1.(account := 8);
    Extend(h, s2, Bump(0, HIGH));
    tx, other := TX7, Tx(8, 0, 1, 0, 5, HIGH);
    var s3 := SetJob(s2, 0, s2.jobs[0].(raw := Some(other), txs := s2.jobs[0].txs + [other]));
    DoBroadcast(h, s3, 0);
    s := BothLand(h, s3.(pool := s3.pool + {other}), tx, other);
  }

  lemma BothLand(h: Hyp, s: State, tx: Tx, other: Tx) returns (t: State)
    requires Reachable(h, s) && |s.onchain| == |s.orders| && CanMine(s, tx) && CanMine(s, other)
    requires s.lines == map[] && tx.nonce == 0 == other.nonce && tx.sender != other.sender
    requires tx.taker == other.taker == 1 && tx.maker == other.maker == 0 && tx.fill == other.fill == 5
    requires s.orders == MATCHED && s.onchain == [0, 0] && s.funds == FUNDS
    ensures Reachable(h, t) && t.jobs == s.jobs && Landed(t, tx) && Landed(t, other)
  {
    DoMine(h, s, tx, Filled);
    var m := AfterMine(s, tx, Filled);
    assert m.onchain == [5, 5];
    assert Executable(m, 1, 0, 5);
    DoMine(h, m, other, Filled);
    t := AfterMine(m, other, Filled);
  }

  /**
   Exactly when one bump is safe: broadcasting the replacement leaves only the job's own nonce able to mine if and
   only if it is signed by the job's sender, or the new key has already used up that nonce.
   */
  lemma BumpSafeIff(h: Hyp, s: State, j: nat, fee: Fees)
    requires Enabled(h, s, Bump(j, fee)) && RelaySafety.OnlyCurrent(s, s.jobs[j])
    requires !IsMined(s, MatchTx(s.jobs[j], s.account, s.jobs[j].nonce.value, fee))
    ensures var t := Next(h, s, Bump(j, fee));
      var u := t.(pool := t.pool + {t.jobs[j].raw.value});
      RelaySafety.OnlyCurrent(u, u.jobs[j]) <==>
        (s.account == s.jobs[j].sender || s.jobs[j].nonce.value < |Line(s, s.account)|)
  {
    var tx := MatchTx(s.jobs[j], s.account, s.jobs[j].nonce.value, fee);
    var t := Next(h, s, Bump(j, fee));
    var u := t.(pool := t.pool + {tx});
    assert tx in u.jobs[j].txs;
    assert forall x :: x in u.jobs[j].txs <==> x in s.jobs[j].txs || x == tx;
    forall x
      ensures Landed(u, x) == Landed(s, x)
      ensures (CanMine(u, x) <==> CanMine(s, x) || (x == tx && tx.nonce >= |Line(s, tx.sender)|))
    {
    }
  }

  // ------------------------------------------------------------------ two jobs, one set of bytes

  const TWO := State(
    [SELL.(filled := 10), BUY.(filled := 10)], [NewJob(1, 0, 5), NewJob(1, 0, 5)], map[], {}, [0, 0], FUNDS, 7, None)

  lemma BookedTwice(h: Hyp)
    ensures Reachable(h, TWO)
  {
    Booked(h);
    assert Crossing(BOOKED, 1, 0, 5);
    Extend(h, BOOKED, Match(1, 0, 5));
    assert Next(h, BOOKED, Match(1, 0, 5)) == TWO;
  }

  lemma ClearsTwo(s: State, j: nat)
    requires j < |s.jobs| && s.orders == TWO.orders && s.onchain == [0, 0] && s.funds == FUNDS
    requires s.jobs[j].taker == 1 && s.jobs[j].maker == 0 && s.jobs[j].fill == 5
    requires forall i :: 0 <= i < |s.jobs| ==> !InFlight(s.jobs[i])
    ensures Affordable(s, j)
  {
    NothingBusy(s, BusyFill(0));
    NothingBusy(s, BusyFill(1));
    NothingBusy(s, BusyUsdc(2));
    NothingBusy(s, BusyCtf(1, 0));
  }

  const RETURNED := TWO.(jobs := [NewJob(1, 0, 5).(txs := [TX7], sender := 7), NewJob(1, 0, 5)])

  /** The first job's send is refused and its nonce handed back. */
  lemma Returned(h: Hyp)
    requires h == ALL.(freshBytes := false)
    ensures Reachable(h, RETURNED)
  {
    BookedTwice(h);
    ClearsTwo(TWO, 0);
    DoPrepare(h, TWO, 0);
    DoSign(h, TWO.(prepared := Some(0)), 0, 0);
    var s1 := AfterSign(TWO.(prepared := Some(0)), 0, 0);
    assert NewJob(1, 0, 5).txs + [TX7] == [TX7];
    assert s1.jobs == [Signed(NewJob(1, 0, 5), TX7), NewJob(1, 0, 5)];
    DoJob(h, s1, Refuse(0));
    assert SetJob(s1, 0, BackToPending(s1.jobs[0])) == RETURNED;
  }

  /** The second job signs the same match with the returned nonce: the same bytes. */
  lemma SignedTwice(h: Hyp) returns (s: State)
    requires h == ALL.(freshBytes := false)
    ensures Reachable(h, s) && s == TWO.(jobs := s.jobs, pool := {TX7}) && |s.jobs| == 2
    ensures s.jobs[0] == RETURNED.jobs[0] && s.jobs[1] == Signed(NewJob(1, 0, 5), TX7)
  {
    Returned(h);
    ClearsTwo(RETURNED, 1);
    DoPrepare(h, RETURNED, 1);
    var s2 := RETURNED.(prepared := Some(1));
    DoSign(h, s2, 1, 0);
    DoBroadcast(h, AfterSign(s2, 1, 0), 1);
    s := AfterSign(s2, 1, 0).(pool := {} + {TX7});
  }

  lemma LandedShared(h: Hyp) returns (s: State)
    requires h == ALL.(freshBytes := false)
    ensures Reachable(h, s) && |s.jobs| == 2 && |s.orders| == 2 && s.onchain == [5, 5] && Landed(s, TX7)
    ensures s.jobs[0] == NewJob(1, 0, 5).(txs := [TX7], sender := 7) && s.jobs[1] == Signed(NewJob(1, 0, 5), TX7)
  {
    var s0 := SignedTwice(h);
    assert Executable(s0, 1, 0, 5);
    DoMine(h, s0, TX7, Filled);
    s := AfterMine(s0, TX7, Filled);
  }

  /**
   Two jobs on one pair with equal fill can sign byte-identical transactions (same released nonce, same
   fees). One landing then confirms both: the confirmed fill exceeds what the Exchange filled.
   */
  lemma SharedBytesConfirmTwice(h: Hyp) returns (s: State)
    requires h == ALL.(freshBytes := false)
    ensures Reachable(h, s) && |s.onchain| == 2
    ensures s.onchain[0] < Tally(s, ConfirmedFill(0))
  {
    var s1 := LandedShared(h);
    DoJob(h, s1, Confirm(1, TX7));
    var s2 := SetJob(s1, 1, s1.jobs[1].(status := Confirmed, consumedAt := None));
    assert s2.jobs[0] == s1.jobs[0];
    DoJob(h, s2, Confirm(0, TX7));
    s := SetJob(s2, 0, s2.jobs[0].(status := Confirmed, consumedAt := None));
    assert s.jobs[1] == s2.jobs[1];
    ConfirmedTen(s);
  }

  lemma ConfirmedTen(s: State)
    requires |s.jobs| == 2 && |s.orders| == 2
    requires forall j :: 0 <= j < 2 ==>
      s.jobs[j].taker == 1 && s.jobs[j].maker == 0 && s.jobs[j].fill == 5 && s.jobs[j].status == Confirmed
    ensures Tally(s, ConfirmedFill(0)) == 10
  {
    assert Weights(s, ConfirmedFill(0)) == [5, 5];
    assert Sums.Sum([5, 5]) == 10 by { assert [5, 5][..1] == [5] && [5][..0] == []; }
  }

  // ------------------------------------------------------------------ a late receipt

  const REVERTED := POOLED.(lines := map[7 := [Ours(TX7, Reverted)]])
  const DOUBTED := SetJob(REVERTED, 0, REVERTED.jobs[0].(status := Sent, consumedAt := Some(100)))

  lemma RevertedUnseen(h: Hyp)
    ensures Reachable(h, REVERTED)
  {
    FirstPooled(h);
    DoMine(h, POOLED, TX7, Reverted);
    assert [] + [Ours(TX7, Reverted)] == [Ours(TX7, Reverted)];
    assert AfterMine(POOLED, TX7, Reverted) == REVERTED;
  }

  lemma Doubted(h: Hyp)
    ensures Reachable(h, DOUBTED)
    ensures DOUBTED.jobs[0] == Signed(NewJob(1, 0, 5), TX7).(status := Sent, consumedAt := Some(100))
  {
    RevertedUnseen(h);
    DoJob(h, REVERTED, NonceLow(0, 100));
  }

  /** The first transaction reverted, its receipt lags, and the job was settled back to pending. */
  lemma SettledBlind(h: Hyp) returns (s: State)
    requires h == ALL.(currentReceipts := false)
    ensures Reachable(h, s) && s == BOOKED.(jobs := s.jobs, pool := {TX7}, lines := map[7 := [Ours(TX7, Reverted)]])
    ensures s.jobs == [NewJob(1, 0, 5).(txs := [TX7], sender := 7)]
  {
    Doubted(h);
    DoubtAbsent();
    assert NewJob(1, 0, 5).txs + [TX7] == [TX7];
    Extend(h, DOUBTED, Settle(0));
    s := SetJob(DOUBTED, 0, BackToPending(DOUBTED.jobs[0]));
  }

  lemma DoubtAbsent()
    ensures Absent(DOUBTED, 0) && NonceConsumed(DOUBTED, DOUBTED.jobs[0])
  {
    NothingConfirmed(DOUBTED, 0);
    NothingConfirmed(DOUBTED, 1);
  }

  const TX71 := Tx(7, 1, 1, 0, 5, LOW)

  lemma Resent(h: Hyp) returns (s: State)
    requires h == ALL.(currentReceipts := false)
    ensures Reachable(h, s)
    ensures s == BOOKED.(jobs := s.jobs, pool := {TX7, TX71}, lines := map[7 := [Ours(TX7, Reverted)]])
    ensures |s.jobs| == 1 && s.jobs[0].txs == [TX7, TX71] && s.jobs[0].status == Sending
  {
    var s0 := SettledBlind(h);
    Clears(s0, 0);
    NothingConfirmed(s0, 0);
    NothingConfirmed(s0, 1);
    DoPrepare(h, s0, 0);
    DoSign(h, s0.(prepared := Some(0)), 0, 1);
    var s1 := AfterSign(s0.(prepared := Some(0)), 0, 1);
    DoBroadcast(h, s1, 0);
    s := s1.(pool := s1.pool + {TX71});
  }

  lemma ResentAndLanded(h: Hyp) returns (s: State)
    requires h == ALL.(currentReceipts := false)
    ensures Reachable(h, s) && |s.onchain| == |s.orders| && |s.jobs| == 1 && InFlight(s.jobs[0])
    ensures s.jobs[0].txs == [TX7, TX71] && Landed(s, TX71) && IsMined(s, TX7) && !Landed(s, TX7)
  {
    var s2 := Resent(h);
    assert Executable(s2, 1, 0, 5);
    DoMine(h, s2, TX71, Filled);
    s := AfterMine(s2, TX71, Filled);
  }

  /**
   _find_receipt returns the first hash with a receipt. When the receipt of an older, reverted transaction only
   shows up after the job was settled and resent, the job fails although its new transaction landed.
   */
  lemma LateReceiptFailsLandedJob(h: Hyp) returns (s: State)
    requires h == ALL.(currentReceipts := false)
    ensures Reachable(h, s) && |s.jobs| == 1 && s.jobs[0].status == Failed
    ensures TX71 in s.jobs[0].txs && Landed(s, TX71)
  {
    var s0 := ResentAndLanded(h);
    Extend(h, s0, FailReceipt(0, TX7));
    s := Rollback(s0, 0, Failed);
    assert TX71 in s0.jobs[0].txs;
  }

  // ------------------------------------------------------------------ refused bytes that live on

  const TAKEN_BACK := POOLED.(jobs := [NewJob(1, 0, 5).(txs := [TX7], sender := 7)])

  /** The node refuses the first broadcast, yet keeps the bytes. */
  lemma TakenBack(h: Hyp)
    requires h == ALL.(refusalFinal := false)
    ensures Reachable(h, TAKEN_BACK)
  {
    FirstPooled(h);
    assert POOLED.jobs == [Signed(NewJob(1, 0, 5), TX7)];
    assert NewJob(1, 0, 5).txs + [TX7] == [TX7];
    DoJob(h, POOLED, Refuse(0));
    assert SetJob(POOLED, 0, BackToPending(POOLED.jobs[0])) == TAKEN_BACK;
  }

  /** The job goes back to pending and is sent again under the next nonce: both transactions land. */
  lemma RefusedBytesLandTwice(h: Hyp) returns (s: State)
    requires h == ALL.(refusalFinal := false)
    ensures Reachable(h, s) && |s.jobs| == 1
    ensures TX7 in s.jobs[0].txs && TX71 in s.jobs[0].txs && Landed(s, TX7) && Landed(s, TX71)
  {
    TakenBack(h);
    Clears(TAKEN_BACK, 0);
    NothingConfirmed(TAKEN_BACK, 0);
    NothingConfirmed(TAKEN_BACK, 1);
    DoPrepare(h, TAKEN_BACK, 0);
    DoSign(h, TAKEN_BACK.(prepared := Some(0)), 0, 1);
    var s1 := AfterSign(TAKEN_BACK.(prepared := Some(0)), 0, 1);
    DoBroadcast(h, s1, 0);
    s := BothMine(h, s1.(pool := s1.pool + {TX71}));
  }

  /** Two transactions of the match for 5, on free nonces, land one after the other. */
  lemma BothMine(h: Hyp, s: State) returns (t: State)
    requires Reachable(h, s) && TX7 in s.pool && TX71 in s.pool && s.lines == map[]
    requires s.orders == MATCHED && s.onchain == [0, 0] && s.funds == FUNDS
    ensures Reachable(h, t) && t.jobs == s.jobs && Landed(t, TX7) && Landed(t, TX71)
  {
    var m := OneMines(h, s);
    DoMine(h, m, TX71, Filled);
    t := AfterMine(m, TX71, Filled);
  }

  lemma OneMines(h: Hyp, s: State) returns (m: State)
    requires Reachable(h, s) && TX7 in s.pool && s.lines == map[]
    requires s.orders == MATCHED && s.onchain == [0, 0] && s.funds == FUNDS
    ensures Reachable(h, m) && m == s.(onchain := [5, 5], funds := m.funds, lines := map[7 := [Ours(TX7, Filled)]])
    ensures Executable(m, 1, 0, 5)
  {
    DoMine(h, s, TX7, Filled);
    m := AfterMine(s, TX7, Filled);
    assert m.onchain == [5, 5];
    assert [] + [Ours(TX7, Filled)] == [Ours(TX7, Filled)];
  }

  // ------------------------------------------------------------------ outsiders and resyncs

  /**
   The Exchange lets anyone submit a match, and the pooled transaction published both signatures: a third party fills 6
   of the maker's 10 while a job of 5 is in a pool. Nobody moved any funds, and the job can no longer execute.
   */
  lemma OutsideFillStrands(h: Hyp) returns (s: State)
    requires h == ALL
    ensures Reachable(h, s) && s.funds == FUNDS && |s.onchain| == |s.orders| && CanMine(s, TX7)
    ensures !Executable(s, TX7.taker, TX7.maker, TX7.fill)
  {
    FirstPooled(h);
    Extend(h, POOLED, ForeignFill(0, 6));
    s := POOLED.(onchain := [6, 0]);
    assert POOLED.onchain[0 := 6] == [6, 0];
  }

  /** The buyer withdraws its allowance while the job is in a pool. */
  lemma WithdrawalStrands(h: Hyp) returns (s: State)
    requires h == ALL
    ensures Reachable(h, s) && |s.onchain| == |s.orders| && CanMine(s, TX7)
    ensures !Executable(s, TX7.taker, TX7.maker, TX7.fill)
  {
    FirstPooled(h);
    var bare := FUNDS.(allowance := map[]);
    Extend(h, POOLED, MoveFunds(bare));
    s := POOLED.(funds := bare);
  }

  /** After a third party's fill of 3, a resync counts it into `filled` on top of the live job's 5. */
  lemma ResyncMovesLedger(h: Hyp) returns (s: State)
    requires h == ALL
    ensures Reachable(h, s) && !FillLedger.Ledger(true, s)
  {
    Booked(h);
    Extend(h, BOOKED, ForeignFill(0, 3));
    assert BOOKED.onchain[0 := 3] == [3, 0];
    s := ResyncedToEight(h, BOOKED.(onchain := [3, 0]));
    LiveFive(s);
    NothingConfirmed(s, 0);
    assert !FillLedger.Balanced(true, s, 0);
  }

  lemma ResyncedToEight(h: Hyp, t: State) returns (s: State)
    requires Reachable(h, t) && t == BOOKED.(onchain := [3, 0])
    ensures Reachable(h, s) && s == t.(orders := [SELL.(filled := 8), BUY.(filled := 5)])
  {
    LiveFive(t);
    Extend(h, t, ResyncFilled(0));
    s := t.(orders := t.orders[0 := t.orders[0].(filled := 8)]);
  }

  lemma LiveFive(s: State)
    requires s.jobs == [NewJob(1, 0, 5)] && |s.orders| == 2
    ensures Tally(s, LiveFill(0)) == 5
  {
    assert Weights(s, LiveFill(0)) == [5];
    assert Sums.Sum([5]) == 5 by { assert [5][..0] == []; }
  }

  // ------------------------------------------------------------------ a cancel that missed a match

  const MISSED := AfterSign(Flag(BOOKED.(prepared := Some(0)), 0), 0, 0)

  /**
   The cancel route reads the order and its jobs before a concurrent match commits: it answers that nothing is
   exposed, yet the job it missed, already cleared by preflight, is signed and broadcast afterwards.
   */
  lemma StaleCancelExposes(h: Hyp) returns (es: seq<Event>, u: State)
    requires h == ALL
    ensures Reachable(h, LISTED)
    ensures !CancelExposure.OnchainCancelRequired(LISTED, 0, |LISTED.jobs|, LISTED.orders[0].filled)
    ensures Path(h, LISTED, es, u) && CancelOrder(0, |LISTED.jobs|) in es
    ensures exists tx :: tx in u.pool && tx.maker == 0
  {
    Listed(h);
    var es1 := ClearedPath(h);
    es, u := StaleCancelRest(h, es1, BOOKED.(prepared := Some(0)));
  }

  lemma ClearedPath(h: Hyp) returns (es: seq<Event>)
    requires h == ALL
    ensures Path(h, LISTED, es, BOOKED.(prepared := Some(0)))
  {
    es := [];
    assert Crossing(LISTED, 1, 0, 5);
    PathAppend(h, LISTED, es, LISTED, Match(1, 0, 5));
    es := es + [Match(1, 0, 5)];
    assert Next(h, LISTED, Match(1, 0, 5)) == BOOKED;
    Clears(BOOKED, 0);
    PathAppend(h, LISTED, es, BOOKED, Prepare(0));
    es := es + [Prepare(0)];
  }

  lemma StaleCancelRest(h: Hyp, es1: seq<Event>, s1: State) returns (es: seq<Event>, u: State)
    requires h == ALL && s1 == BOOKED.(prepared := Some(0)) && Path(h, LISTED, es1, s1)
    ensures Path(h, LISTED, es, u) && CancelOrder(0, 0) in es
    ensures exists tx :: tx in u.pool && tx.maker == 0
  {
    PathAppend(h, LISTED, es1, s1, CancelOrder(0, 0));
    assert Next(h, s1, CancelOrder(0, 0)) == Flag(s1, 0);
    var es2 := es1 + [CancelOrder(0, 0)];
    PathAppend(h, LISTED, es2, Flag(s1, 0), Sign(0, 0, LOW));
    var es3 := es2 + [Sign(0, 0, LOW)];
    assert Next(h, Flag(s1, 0), Sign(0, 0, LOW)) == MISSED;
    PathAppend(h, LISTED, es3, MISSED, Broadcast(0));
    es, u := es3 + [Broadcast(0)], Next(h, MISSED, Broadcast(0));
    assert CancelOrder(0, 0) in es2 && TX7 in u.pool && TX7.maker == 0;
  }
}
