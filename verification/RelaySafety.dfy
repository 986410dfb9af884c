/**
 Exactly-once landing, terminal soundness and fill-verdict soundness of the relayer, over every run.
 */
module RelaySafety {
  import opened Options
  import opened Relay
  import Sums

  // ------------------------------------------------------------------ invariant

  /** A job's row: its transactions carry its own match, and an in-flight job holds its current bytes. */
  ghost predicate RowOk(s: State, job: Job) {
    && Sides(s, job.taker, job.maker)
    && (forall tx :: tx in job.txs ==> tx.taker == job.taker && tx.maker == job.maker && tx.fill == job.fill)
    && (InFlight(job) ==>
          && job.raw.Some? && job.raw.value in job.txs
          && job.nonce == Some(job.raw.value.nonce) && job.sender == job.raw.value.sender)
  }

  /**
   Of everything a job ever signed, only its current nonce has landed or can still mine; a pending job has nothing.
   */
  ghost predicate OnlyCurrent(s: State, job: Job) {
    forall tx :: tx in job.txs && (Landed(s, tx) || CanMine(s, tx)) ==>
      job.status != Pending && job.nonce == Some(tx.nonce) && job.sender == tx.sender
  }

  /** While the write-ahead record is unbroadcast or in doubt, nothing but those bytes can mine. */
  ghost predicate OnlyRaw(s: State, job: Job) {
    job.status == Sending ==>
      forall tx :: tx in job.txs && (Landed(s, tx) || CanMine(s, tx)) ==> job.raw == Some(tx)
  }

  ghost predicate JobOk(s: State, job: Job) {
    RowOk(s, job) && OnlyCurrent(s, job) && OnlyRaw(s, job) && (job.status == Confirmed ==> JobLanded(s, job))
  }

  /** Nothing the job signed has landed or can still mine. */
  ghost predicate Dead(s: State, job: Job) {
    forall tx :: tx in job.txs ==> !Landed(s, tx) && !CanMine(s, tx)
  }

  ghost predicate Disjoint(s: State) {
    forall i, k, tx :: 0 <= i < |s.jobs| && 0 <= k < |s.jobs| && tx in s.jobs[i].txs && tx in s.jobs[k].txs ==> i == k
  }

  /** Nothing was ever broadcast that a job has not recorded first, and only broadcast transactions mine. */
  ghost predicate Recorded(s: State) {
    && (forall tx :: tx in s.pool ==> exists j :: 0 <= j < |s.jobs| && tx in s.jobs[j].txs)
    && (forall tx :: IsMined(s, tx) ==> tx in s.pool)
  }

  /** The Exchange counters cover every landed job, each once. */
  ghost predicate Covered(s: State) {
    |s.onchain| == |s.orders| && forall o :: 0 <= o < |s.orders| ==> Tally(s, LandedFill(o)) <= s.onchain[o]
  }

  ghost predicate Inv(s: State) {
    (forall j :: 0 <= j < |s.jobs| ==> JobOk(s, s.jobs[j])) && Disjoint(s) && Recorded(s) && Covered(s)
  }

  ghost predicate Trusted(h: Hyp) {
    h.steadyKey && h.freshBytes && h.refusalFinal
  }

  // ------------------------------------------------------------------ frames

  /** A step that rewrites one job, keeps its transactions, and leaves the chain alone. */
  lemma RewriteJob(s: State, t: State, j: nat)
    requires Inv(s) && j < |s.jobs| == |t.jobs| && |t.orders| == |s.orders|
    requires t.lines == s.lines && t.pool == s.pool && t.onchain == s.onchain
    requires t.jobs == s.jobs[j := t.jobs[j]] && t.jobs[j].txs == s.jobs[j].txs
    requires t.jobs[j].taker == s.jobs[j].taker && t.jobs[j].maker == s.jobs[j].maker
    requires t.jobs[j].fill == s.jobs[j].fill
    requires JobOk(t, t.jobs[j])
    ensures Inv(t)
  {
    forall tx
      ensures Landed(t, tx) == Landed(s, tx) && CanMine(t, tx) == CanMine(s, tx) && IsMined(t, tx) == IsMined(s, tx)
    {
    }
    forall i | 0 <= i < |t.jobs| ensures JobOk(t, t.jobs[i]) {
      assert JobOk(s, s.jobs[i]);
      assert i != j ==> t.jobs[i] == s.jobs[i];
    }
    forall i | 0 <= i < |t.jobs| ensures t.jobs[i].txs == s.jobs[i].txs {
    }
    forall o | 0 <= o < |t.orders| ensures Tally(t, LandedFill(o)) == Tally(s, LandedFill(o)) {
      LandedSame(s, t, o);
    }
  }

  lemma LandedSame(s: State, t: State, o: nat)
    requires |t.jobs| == |s.jobs| && |t.orders| >= |s.orders| && t.lines == s.lines
    requires forall i :: 0 <= i < |s.jobs| ==>
      Sides(s, s.jobs[i].taker, s.jobs[i].maker) && t.jobs[i].txs == s.jobs[i].txs && t.jobs[i].taker == s.jobs[i].taker
      && t.jobs[i].maker == s.jobs[i].maker && t.jobs[i].fill == s.jobs[i].fill
    ensures Tally(t, LandedFill(o)) == Tally(s, LandedFill(o))
  {
    forall i | 0 <= i < |s.jobs| ensures Weight(t, i, LandedFill(o)) == Weight(s, i, LandedFill(o)) {
      forall tx ensures Landed(t, tx) == Landed(s, tx) { }
    }
    TallySame(s, t, LandedFill(o));
  }

  /** A step that leaves jobs and transactions alone; counters and the order table may grow. */
  lemma KeepJobs(s: State, t: State)
    requires Inv(s) && t.jobs == s.jobs && t.lines == s.lines && t.pool == s.pool
    requires |s.orders| <= |t.orders| == |t.onchain|
    requires forall o :: 0 <= o < |s.onchain| ==> s.onchain[o] <= t.onchain[o]
    ensures Inv(t)
  {
    forall tx
      ensures Landed(t, tx) == Landed(s, tx) && CanMine(t, tx) == CanMine(s, tx) && IsMined(t, tx) == IsMined(s, tx)
    {
    }
    forall i | 0 <= i < |t.jobs| ensures JobOk(t, t.jobs[i]) {
      assert JobOk(s, s.jobs[i]);
    }
    forall o | 0 <= o < |t.orders| ensures Tally(t, LandedFill(o)) <= t.onchain[o] {
      LandedSame(s, t, o);
      if o >= |s.orders| {
        NobodyTouches(s, o);
      }
    }
  }

  lemma NobodyTouches(s: State, o: nat)
    requires o >= |s.orders| && forall j :: 0 <= j < |s.jobs| ==> RowOk(s, s.jobs[j])
    ensures Tally(s, LandedFill(o)) == 0
  {
    forall j | 0 <= j < |s.jobs| ensures Weight(s, j, LandedFill(o)) == 0 {
      assert RowOk(s, s.jobs[j]);
    }
    Sums.AllZero(Weights(s, LandedFill(o)));
  }

  // ------------------------------------------------------------------ fill verdict

  /**
   If this job landed, both counters hold its fill on top of every confirmed job's: "absent" is impossible,
   whatever receipts and logs the RPC has missed.
   */
  lemma VerdictSound(s: State, j: nat)
    requires Inv(s) && j < |s.jobs| && s.jobs[j].status != Confirmed && JobLanded(s, s.jobs[j])
    ensures !Absent(s, j)
  {
    var job := s.jobs[j];
    assert JobOk(s, job);
    SideCovered(s, j, job.taker);
    SideCovered(s, j, job.maker);
  }

  lemma SideCovered(s: State, j: nat, o: nat)
    requires Inv(s) && j < |s.jobs| && s.jobs[j].status != Confirmed && JobLanded(s, s.jobs[j])
    requires Touches(s.jobs[j], o)
    ensures o < |s.orders| && Tally(s, ConfirmedFill(o)) + s.jobs[j].fill <= s.onchain[o]
  {
    assert JobOk(s, s.jobs[j]);
    var conf, land := Weights(s, ConfirmedFill(o)), Weights(s, LandedFill(o));
    assert conf[j] == 0 && land[j] == s.jobs[j].fill;
    Sums.SumUpdate(conf, j, s.jobs[j].fill);
    forall i | 0 <= i < |s.jobs| ensures conf[j := s.jobs[j].fill][i] <= land[i] {
      assert JobOk(s, s.jobs[i]);
    }
    Sums.SumMono(conf[j := s.jobs[j].fill], land);
    assert Tally(s, LandedFill(o)) <= s.onchain[o];
  }

  /** The Exchange's counters hold at least every confirmed job's fill. */
  lemma ConfirmedCovered(h: Hyp, es: seq<Event>, ss: seq<State>, i: nat, o: nat)
    requires Trusted(h) && Run(h, es, ss) && i < |ss| && o < |ss[i].orders|
    ensures |ss[i].onchain| == |ss[i].orders| && Tally(ss[i], ConfirmedFill(o)) <= ss[i].onchain[o]
  {
    RunInv(h, es, ss, i);
    CoveredState(ss[i], o);
  }

  lemma CoveredState(s: State, o: nat)
    requires Inv(s) && o < |s.orders|
    ensures |s.onchain| == |s.orders| && Tally(s, ConfirmedFill(o)) <= s.onchain[o]
  {
    forall j | 0 <= j < |s.jobs| ensures Weight(s, j, ConfirmedFill(o)) <= Weight(s, j, LandedFill(o)) {
      assert JobOk(s, s.jobs[j]);
    }
    Sums.SumMono(Weights(s, ConfirmedFill(o)), Weights(s, LandedFill(o)));
  }

  /** A receipt of the job's current nonce is proof: nothing the job signed has landed or can still mine. */
  lemma CurrentReceiptKills(s: State, j: nat, tx: Tx)
    requires Inv(s) && j < |s.jobs| && InFlight(s.jobs[j]) && tx in s.jobs[j].txs && IsMined(s, tx) && !Landed(s, tx)
    requires s.jobs[j].nonce == Some(tx.nonce) && s.jobs[j].sender == tx.sender
    ensures Dead(s, s.jobs[j])
  {
    assert JobOk(s, s.jobs[j]);
  }

  // ------------------------------------------------------------------ one step

  lemma MatchKeeps(h: Hyp, s: State, taker: nat, maker: nat, q: nat)
    requires Inv(s) && Enabled(h, s, Match(taker, maker, q))
    ensures Inv(Next(h, s, Match(taker, maker, q)))
  {
    var t := Next(h, s, Match(taker, maker, q));
    forall tx
      ensures Landed(t, tx) == Landed(s, tx) && CanMine(t, tx) == CanMine(s, tx) && IsMined(t, tx) == IsMined(s, tx)
    {
    }
    forall i | 0 <= i < |t.jobs| ensures JobOk(t, t.jobs[i]) {
      if i < |s.jobs| { assert JobOk(s, s.jobs[i]); }
    }
    forall tx | tx in t.pool ensures exists j :: 0 <= j < |t.jobs| && tx in t.jobs[j].txs {
      var j :| 0 <= j < |s.jobs| && tx in s.jobs[j].txs;
      assert tx in t.jobs[j].txs;
    }
    forall o | 0 <= o < |t.orders| ensures Tally(t, LandedFill(o)) <= t.onchain[o] {
      forall i | 0 <= i < |s.jobs| ensures Weight(t, i, LandedFill(o)) == Weight(s, i, LandedFill(o)) {
        assert JobOk(s, s.jobs[i]);
      }
      TallyAppend(s, t, LandedFill(o));
    }
  }

  lemma RollbackKeeps(s: State, j: nat, status: Status)
    requires Inv(s) && j < |s.jobs| && (status == Failed || status == Cancelled)
    ensures Inv(Rollback(s, j, status))
    requires s.jobs[j].status == Pending || InFlight(s.jobs[j])
  {
    var t := Rollback(s, j, status);
    assert JobOk(s, s.jobs[j]);
    forall tx ensures Landed(t, tx) == Landed(s, tx) && CanMine(t, tx) == CanMine(s, tx) { }
    RewriteJob(s, t, j);
  }

  lemma {:induction false} CancelKeeps(s: State, o: nat, seen: nat)
    requires Inv(s) && seen <= |s.jobs|
    ensures Inv(CancelJobs(s, o, seen))
    decreases seen
  {
    if seen > 0 {
      CancelKeeps(s, o, seen - 1);
      var t := CancelJobs(s, o, seen - 1);
      if t.jobs[seen - 1].status == Pending && Touches(t.jobs[seen - 1], o) {
        RollbackKeeps(t, seen - 1, Cancelled);
      }
    }
  }

  /** A job that stays in flight on the same nonce, or only updates its bookkeeping. */
  lemma WaitKeeps(h: Hyp, s: State, e: Event)
    requires Inv(s) && Enabled(h, s, e)
    requires e.Accept? || e.NonceLow? || e.Reopen? || e.Note?
    ensures Inv(Next(h, s, e))
  {
    var t := Next(h, s, e);
    assert JobOk(s, s.jobs[e.j]);
    SameAnswers(s, t);
    RewriteJob(s, t, e.j);
  }

  lemma SameAnswers(s: State, t: State)
    requires t.lines == s.lines && t.pool == s.pool
    ensures forall tx ::
      Landed(t, tx) == Landed(s, tx) && CanMine(t, tx) == CanMine(s, tx) && IsMined(t, tx) == IsMined(s, tx)
  {
  }

  /** Back to pending only when nothing of the current nonce has landed or can mine. */
  lemma PendingKeeps(s: State, j: nat)
    requires Inv(s) && j < |s.jobs| && InFlight(s.jobs[j]) && Dead(s, s.jobs[j])
    ensures Inv(SetJob(s, j, BackToPending(s.jobs[j])))
  {
    var t := SetJob(s, j, BackToPending(s.jobs[j]));
    assert JobOk(s, s.jobs[j]);
    SameAnswers(s, t);
    RewriteJob(s, t, j);
  }

  lemma StatusKeeps(h: Hyp, s: State, e: Event)
    requires Inv(s) && Trusted(h) && Enabled(h, s, e)
    requires e.Refuse? || e.Settle? || e.Confirm?
    ensures Inv(Next(h, s, e))
  {
    var t := Next(h, s, e);
    assert JobOk(s, s.jobs[e.j]);
    if e.Confirm? {
      SameAnswers(s, t);
      RewriteJob(s, t, e.j);
    } else {
      if e.Settle? && JobLanded(s, s.jobs[e.j]) { VerdictSound(s, e.j); }
      PendingKeeps(s, e.j);
    }
  }

  /** Recording one more transaction that no other job holds and that has not been pooled for anybody else. */
  lemma AddTx(s: State, t: State, j: nat, tx: Tx)
    requires Inv(s) && j < |s.jobs| == |t.jobs| && FreshTx(s, j, tx)
    requires t.orders == s.orders && t.lines == s.lines && t.pool == s.pool
    requires t.onchain == s.onchain
    requires t.jobs == s.jobs[j := t.jobs[j]] && t.jobs[j].txs == s.jobs[j].txs + [tx]
    requires t.jobs[j].taker == s.jobs[j].taker && t.jobs[j].maker == s.jobs[j].maker
    requires t.jobs[j].fill == s.jobs[j].fill
    requires JobOk(t, t.jobs[j])
    ensures Inv(t)
  {
    forall u ensures Landed(t, u) == Landed(s, u) && CanMine(t, u) == CanMine(s, u) && IsMined(t, u) == IsMined(s, u) {
    }
    assert forall u :: u in t.jobs[j].txs <==> u in s.jobs[j].txs || u == tx;
    assert Landed(s, tx) ==> tx in s.jobs[j].txs by { OwnIfPooled(s, j, tx); }
    forall i | 0 <= i < |t.jobs| ensures JobOk(t, t.jobs[i]) {
      if i != j { assert JobOk(s, s.jobs[i]) && t.jobs[i] == s.jobs[i]; }
    }
    forall u | u in t.pool ensures exists k :: 0 <= k < |t.jobs| && u in t.jobs[k].txs {
      var k :| 0 <= k < |s.jobs| && u in s.jobs[k].txs;
      assert u in t.jobs[k].txs;
    }
    forall o | 0 <= o < |t.orders| ensures Tally(t, LandedFill(o)) == Tally(s, LandedFill(o)) {
      forall i | 0 <= i < |s.jobs| ensures Weight(t, i, LandedFill(o)) == Weight(s, i, LandedFill(o)) {
        SignedLanded(s, t, i, j, tx);
      }
      TallySame(s, t, LandedFill(o));
    }
  }

  lemma OwnIfPooled(s: State, j: nat, tx: Tx)
    requires Inv(s) && j < |s.jobs| && FreshTx(s, j, tx)
    ensures tx in s.pool ==> tx in s.jobs[j].txs
    ensures Landed(s, tx) ==> tx in s.jobs[j].txs
  {
    if tx in s.pool {
      var k :| 0 <= k < |s.jobs| && tx in s.jobs[k].txs;
      assert k == j;
    }
  }

  /** Signing a fresh nonce: only a pending job does it, so none of its earlier transactions can mine or has landed. */
  lemma SignKeeps(h: Hyp, s: State, j: nat, nonce: nat, fee: Fees)
    requires Inv(s) && Trusted(h) && Enabled(h, s, Sign(j, nonce, fee))
    ensures Inv(Next(h, s, Sign(j, nonce, fee)))
  {
    var t := Next(h, s, Sign(j, nonce, fee));
    var tx := MatchTx(s.jobs[j], s.account, nonce, fee);
    assert JobOk(s, s.jobs[j]);
    OwnIfPooled(s, j, tx);
    assert forall u :: u in t.jobs[j].txs <==> u in s.jobs[j].txs || u == tx;
    forall u ensures Landed(t, u) == Landed(s, u) && CanMine(t, u) == CanMine(s, u) { }
    AddTx(s, t, j, tx);
  }

  /** A replacement reuses the job's own nonce. */
  lemma BumpKeeps(h: Hyp, s: State, j: nat, fee: Fees)
    requires Inv(s) && Trusted(h) && Enabled(h, s, Bump(j, fee))
    ensures Inv(Next(h, s, Bump(j, fee)))
  {
    var t := Next(h, s, Bump(j, fee));
    var tx := MatchTx(s.jobs[j], s.account, s.jobs[j].nonce.value, fee);
    assert JobOk(s, s.jobs[j]);
    assert forall u :: u in t.jobs[j].txs <==> u in s.jobs[j].txs || u == tx;
    forall u ensures Landed(t, u) == Landed(s, u) && CanMine(t, u) == CanMine(s, u) { }
    AddTx(s, t, j, tx);
  }

  lemma SignedLanded(s: State, t: State, i: nat, j: nat, tx: Tx)
    requires i < |s.jobs| == |t.jobs| && t.lines == s.lines
    requires i != j ==> t.jobs[i] == s.jobs[i]
    requires i == j ==> t.jobs[i].txs == s.jobs[i].txs + [tx]
    requires Landed(s, tx) && i == j ==> tx in s.jobs[i].txs
    ensures JobLanded(t, t.jobs[i]) == JobLanded(s, s.jobs[i])
  {
    forall u ensures Landed(t, u) == Landed(s, u) { }
    if JobLanded(s, s.jobs[i]) {
      var u :| u in s.jobs[i].txs && Landed(s, u);
      assert u in t.jobs[i].txs;
    }
    if JobLanded(t, t.jobs[i]) {
      var u :| u in t.jobs[i].txs && Landed(t, u);
      assert u in s.jobs[i].txs;
    }
  }

  lemma BroadcastKeeps(h: Hyp, s: State, j: nat)
    requires Inv(s) && Trusted(h) && Enabled(h, s, Broadcast(j))
    ensures Inv(Next(h, s, Broadcast(j)))
  {
    var t := Next(h, s, Broadcast(j));
    var raw := s.jobs[j].raw.value;
    assert JobOk(s, s.jobs[j]);
    forall u
      ensures Landed(t, u) == Landed(s, u) && IsMined(t, u) == IsMined(s, u)
      ensures (CanMine(t, u) ==> CanMine(s, u) || u == raw)
    {
    }
    forall i | 0 <= i < |t.jobs| ensures JobOk(t, t.jobs[i]) {
      assert JobOk(s, s.jobs[i]);
      if i != j { assert raw !in s.jobs[i].txs; }
    }
    forall o | 0 <= o < |t.orders| ensures Tally(t, LandedFill(o)) == Tally(s, LandedFill(o)) {
      LandedSame(s, t, o);
    }
  }

  lemma MineForeignKeeps(h: Hyp, s: State, a: nat)
    requires Inv(s) && Enabled(h, s, MineForeign(a))
    ensures Inv(Next(h, s, MineForeign(a)))
  {
    var t := Next(h, s, MineForeign(a));
    forall u
      ensures Landed(t, u) == Landed(s, u) && IsMined(t, u) == IsMined(s, u) && (CanMine(t, u) ==> CanMine(s, u))
    {
    }
    forall i | 0 <= i < |t.jobs| ensures JobOk(t, t.jobs[i]) {
      assert JobOk(s, s.jobs[i]);
    }
    forall o | 0 <= o < |t.orders| ensures Tally(t, LandedFill(o)) == Tally(s, LandedFill(o)) {
      forall i | 0 <= i < |s.jobs| ensures Weight(t, i, LandedFill(o)) == Weight(s, i, LandedFill(o)) { }
      TallySame(s, t, LandedFill(o));
    }
  }

  /** What mining does to the three chain questions. */
  lemma MineEffect(s: State, tx: Tx, outcome: Outcome, u: Tx)
    requires CanMine(s, tx) && tx.nonce == |Line(s, tx.sender)|
    requires outcome == Filled ==> Executable(s, tx.taker, tx.maker, tx.fill)
    ensures var t := AfterMine(s, tx, outcome);
      && IsMined(t, u) == (IsMined(s, u) || u == tx)
      && Landed(t, u) == (Landed(s, u) || (u == tx && outcome == Filled))
      && (CanMine(t, u) ==> CanMine(s, u) && u != tx)
  {
  }

  lemma MineJobOk(s: State, job: Job, tx: Tx, outcome: Outcome)
    requires CanMine(s, tx) && tx.nonce == |Line(s, tx.sender)|
    requires outcome == Filled ==> Executable(s, tx.taker, tx.maker, tx.fill)
    requires JobOk(s, job)
    ensures JobOk(AfterMine(s, tx, outcome), job)
  {
    var t := AfterMine(s, tx, outcome);
    forall u | u in job.txs ensures
      && Landed(t, u) == (Landed(s, u) || (u == tx && outcome == Filled))
      && (CanMine(t, u) ==> CanMine(s, u) && u != tx)
    {
      MineEffect(s, tx, outcome, u);
    }
  }

  /** The mined transaction belongs to exactly one job, which had not landed before. */
  lemma MineKeeps(h: Hyp, s: State, tx: Tx, outcome: Outcome)
    requires Inv(s) && Enabled(h, s, Mine(tx, outcome))
    ensures Inv(Next(h, s, Mine(tx, outcome)))
  {
    var t := Next(h, s, Mine(tx, outcome));
    forall i | 0 <= i < |t.jobs| ensures JobOk(t, t.jobs[i]) {
      assert JobOk(s, s.jobs[i]);
      MineJobOk(s, s.jobs[i], tx, outcome);
    }
    forall u
      ensures IsMined(t, u) == (IsMined(s, u) || u == tx)
      ensures Landed(t, u) == (Landed(s, u) || (u == tx && outcome == Filled))
    {
      MineEffect(s, tx, outcome, u);
    }
    assert Recorded(t);
    var j :| 0 <= j < |s.jobs| && tx in s.jobs[j].txs;
    forall o | 0 <= o < |t.orders| ensures Tally(t, LandedFill(o)) <= t.onchain[o] {
      MineCovers(s, t, j, tx, outcome, o);
    }
  }

  lemma MineCovers(s: State, t: State, j: nat, tx: Tx, outcome: Outcome, o: nat)
    requires Inv(s) && j < |s.jobs| && tx in s.jobs[j].txs && CanMine(s, tx) && o < |s.orders|
    requires outcome == Filled ==> Executable(s, tx.taker, tx.maker, tx.fill)
    requires t == AfterMine(s, tx, outcome)
    requires forall u :: Landed(t, u) == (Landed(s, u) || (u == tx && outcome == Filled))
    ensures Tally(t, LandedFill(o)) <= t.onchain[o]
  {
    assert JobOk(s, s.jobs[j]);
    forall i | 0 <= i < |s.jobs| && i != j ensures Weight(t, i, LandedFill(o)) == Weight(s, i, LandedFill(o)) {
      assert tx !in s.jobs[i].txs;
    }
    TallyChange(s, t, j, LandedFill(o));
    assert !JobLanded(s, s.jobs[j]);
  }

  predicate BookEvent(e: Event) {
    e.PostOrder? || e.Match? || e.MatchOffchain? || e.CancelOrder? || e.RetireOrder? || e.ResyncFilled?
  }

  predicate ChainEvent(e: Event) {
    e.Mine? || e.MineForeign? || e.ForeignFill? || e.MoveFunds? || e.Rotate?
  }

  lemma BookKeeps(h: Hyp, s: State, e: Event)
    requires Inv(s) && Trusted(h) && Enabled(h, s, e) && BookEvent(e)
    ensures Inv(Next(h, s, e))
  {
    if e.Match? {
      MatchKeeps(h, s, e.taker, e.maker, e.quantity);
    } else if e.CancelOrder? {
      KeepJobs(s, Flag(s, e.o));
      CancelKeeps(Flag(s, e.o), e.o, e.seen);
    } else {
      KeepJobs(s, Next(h, s, e));
    }
  }

  lemma ChainKeeps(h: Hyp, s: State, e: Event)
    requires Inv(s) && Trusted(h) && Enabled(h, s, e) && ChainEvent(e)
    ensures Inv(Next(h, s, e))
  {
    if e.Mine? {
      MineKeeps(h, s, e.tx, e.outcome);
    } else if e.MineForeign? {
      MineForeignKeeps(h, s, e.sender);
    } else {
      KeepJobs(s, Next(h, s, e));
    }
  }

  lemma WorkerKeeps(h: Hyp, s: State, e: Event)
    requires Inv(s) && Trusted(h) && Enabled(h, s, e) && !BookEvent(e) && !ChainEvent(e)
    ensures Inv(Next(h, s, e))
  {
    if e.Prepare? || e.Crash? {
      KeepJobs(s, Next(h, s, e));
    } else if e.Sign? {
      SignKeeps(h, s, e.j, e.nonce, e.fee);
    } else if e.Broadcast? {
      BroadcastKeeps(h, s, e.j);
    } else if e.Bump? {
      BumpKeeps(h, s, e.j, e.fee);
    } else if e.FailReceipt? {
      RollbackKeeps(s, e.j, Failed);
    } else if e.Drop? {
      RollbackKeeps(s, e.j, e.status);
    } else if e.Refuse? || e.Settle? || e.Confirm? {
      StatusKeeps(h, s, e);
    } else {
      WaitKeeps(h, s, e);
    }
  }

  /** Every event keeps the invariant, however far receipts lag. */
  lemma StepKeeps(h: Hyp, s: State, e: Event)
    requires Inv(s) && Trusted(h) && Enabled(h, s, e)
    ensures Inv(Next(h, s, e))
  {
    if BookEvent(e) { BookKeeps(h, s, e); }
    else if ChainEvent(e) { ChainKeeps(h, s, e); }
    else { WorkerKeeps(h, s, e); }
  }

  lemma {:induction false} RunInv(h: Hyp, es: seq<Event>, ss: seq<State>, i: nat)
    requires Trusted(h) && Run(h, es, ss) && i < |ss|
    ensures Inv(ss[i])
    decreases i
  {
    if i > 0 {
      RunInv(h, es, ss, i - 1);
      StepKeeps(h, ss[i - 1], es[i - 1]);
    }
  }

  // ------------------------------------------------------------------ exactly once

  /**
   Over every run of sends, crashes, rebroadcasts, bumps, settlements and lagging receipts, at most one of the
   transactions a job ever signed lands: its fill reaches the Exchange at most once.
   */
  lemma ExactlyOnce(h: Hyp, es: seq<Event>, ss: seq<State>, i: nat, j: nat, tx: Tx, other: Tx)
    requires Trusted(h) && Run(h, es, ss) && i < |ss| && j < |ss[i].jobs|
    requires tx in ss[i].jobs[j].txs && Landed(ss[i], tx)
    requires other in ss[i].jobs[j].txs && (Landed(ss[i], other) || CanMine(ss[i], other))
    ensures other == tx && !CanMine(ss[i], other)
  {
    RunInv(h, es, ss, i);
    assert JobOk(ss[i], ss[i].jobs[j]);
  }

  /** A job is signed under a new nonce only when nothing it signed before has landed or can still mine. */
  lemma SignsOnlyWhenDead(h: Hyp, es: seq<Event>, ss: seq<State>, i: nat, tx: Tx)
    requires Trusted(h) && Run(h, es, ss) && i < |es| && es[i].Sign?
    requires tx in ss[i].jobs[es[i].j].txs
    ensures !Landed(ss[i], tx) && !CanMine(ss[i], tx)
  {
    RunInv(h, es, ss, i);
    assert JobOk(ss[i], ss[i].jobs[es[i].j]);
  }

  // ------------------------------------------------------------------ terminal soundness

  /** What no event undoes: a job keeps its match and its hashes, and a terminal job keeps its status. */
  ghost predicate Grows(before: Job, after: Job) {
    && after.taker == before.taker && after.maker == before.maker && after.fill == before.fill
    && before.txs <= after.txs
    && (Terminal(before) ==> after.status == before.status && after.txs == before.txs)
  }

  lemma {:induction false} CancelGrows(s: State, o: nat, seen: nat, j: nat)
    requires seen <= |s.jobs| && j < |s.jobs|
    ensures Grows(s.jobs[j], CancelJobs(s, o, seen).jobs[j])
    decreases seen
  {
    if seen > 0 {
      CancelGrows(s, o, seen - 1, j);
    }
  }

  lemma StepGrows(h: Hyp, s: State, e: Event, j: nat)
    requires Enabled(h, s, e) && j < |s.jobs|
    ensures |s.jobs| <= |Next(h, s, e).jobs| && Grows(s.jobs[j], Next(h, s, e).jobs[j])
  {
    if e.CancelOrder? {
      CancelGrows(Flag(s, e.o), e.o, e.seen, j);
    }
  }

  /** Terminal states are absorbing and the recorded hashes never shrink, over any stretch of any run. */
  lemma {:induction false} TerminalAbsorbing(h: Hyp, es: seq<Event>, ss: seq<State>, i: nat, k: nat, j: nat)
    requires Run(h, es, ss) && i <= k < |ss| && j < |ss[i].jobs|
    ensures j < |ss[k].jobs| && Grows(ss[i].jobs[j], ss[k].jobs[j])
    decreases k - i
  {
    if i < k {
      TerminalAbsorbing(h, es, ss, i, k - 1, j);
      StepGrows(h, ss[k - 1], es[k - 1], j);
    }
  }

  /** A confirmed job has a landed transaction among its own hashes, and only one. */
  lemma ConfirmedLandedOnce(h: Hyp, es: seq<Event>, ss: seq<State>, i: nat, j: nat)
    requires Trusted(h) && Run(h, es, ss) && i < |ss| && j < |ss[i].jobs| && ss[i].jobs[j].status == Confirmed
    ensures exists tx :: tx in ss[i].jobs[j].txs && Landed(ss[i], tx)
              && forall u :: u in ss[i].jobs[j].txs && (Landed(ss[i], u) || CanMine(ss[i], u)) ==> u == tx
  {
    RunInv(h, es, ss, i);
    assert JobOk(ss[i], ss[i].jobs[j]);
    var tx :| tx in ss[i].jobs[j].txs && Landed(ss[i], tx);
    forall u | u in ss[i].jobs[j].txs && (Landed(ss[i], u) || CanMine(ss[i], u)) ensures u == tx {
      ExactlyOnce(h, es, ss, i, j, tx, u);
    }
  }

  /** With current receipts nothing of an older nonce has mined at all, and a dropped job is dead for good. */
  ghost predicate NoStale(s: State, job: Job) {
    && (forall tx :: tx in job.txs && IsMined(s, tx) ==>
          job.status != Pending && job.nonce == Some(tx.nonce) && job.sender == tx.sender
          && (job.status == Sending ==> job.raw == Some(tx)))
    && (job.status == Failed || job.status == Cancelled ==> Dead(s, job))
  }

  ghost predicate Clean(s: State) {
    Inv(s) && forall j :: 0 <= j < |s.jobs| ==> NoStale(s, s.jobs[j])
  }

  lemma RollbackClean(s: State, j: nat, status: Status)
    requires Clean(s) && j < |s.jobs| && (status == Failed || status == Cancelled)
    requires Live(s.jobs[j]) && Dead(s, s.jobs[j])
    ensures Clean(Rollback(s, j, status))
  {
    var t := Rollback(s, j, status);
    RollbackKeeps(s, j, status);
    SameAnswers(s, t);
    forall i | 0 <= i < |t.jobs| ensures NoStale(t, t.jobs[i]) {
      assert NoStale(s, s.jobs[i]);
      assert i != j ==> t.jobs[i] == s.jobs[i];
    }
  }

  /** A pending job is dead; so is one whose nonce went to its own reverted transaction. */
  lemma DeadJob(s: State, j: nat)
    requires Clean(s) && j < |s.jobs|
    ensures s.jobs[j].status == Pending ==> Dead(s, s.jobs[j])
    ensures forall tx :: tx in s.jobs[j].txs && IsMined(s, tx) && !Landed(s, tx) ==> Dead(s, s.jobs[j])
  {
    assert JobOk(s, s.jobs[j]) && NoStale(s, s.jobs[j]);
  }

  lemma {:induction false} CancelClean(s: State, o: nat, seen: nat)
    requires Clean(s) && seen <= |s.jobs|
    ensures Clean(CancelJobs(s, o, seen))
    decreases seen
  {
    if seen > 0 {
      CancelClean(s, o, seen - 1);
      CancelOneClean(s, o, seen);
    }
  }

  lemma CancelOneClean(s: State, o: nat, seen: nat)
    requires 0 < seen <= |s.jobs| && Clean(CancelJobs(s, o, seen - 1))
    ensures Clean(CancelJobs(s, o, seen))
  {
    var t := CancelJobs(s, o, seen - 1);
    if t.jobs[seen - 1].status == Pending && Touches(t.jobs[seen - 1], o) {
      DeadJob(t, seen - 1);
      RollbackClean(t, seen - 1, Cancelled);
      assert CancelJobs(s, o, seen) == Rollback(t, seen - 1, Cancelled);
    } else {
      assert CancelJobs(s, o, seen) == t;
    }
  }

  lemma FlagClean(s: State, o: nat)
    requires Clean(s) && o < |s.orders|
    ensures Clean(Flag(s, o))
  {
    var t := Flag(s, o);
    KeepJobs(s, t);
    forall i | 0 <= i < |t.jobs| ensures NoStale(t, t.jobs[i]) {
      assert NoStale(s, s.jobs[i]);
      SameAnswers(s, t);
    }
  }

  lemma BroadcastClean(h: Hyp, s: State, j: nat)
    requires Clean(s) && Trusted(h) && Enabled(h, s, Broadcast(j))
    ensures Clean(Next(h, s, Broadcast(j)))
  {
    BroadcastKeeps(h, s, j);
    PooledClean(s, Next(h, s, Broadcast(j)), j);
  }

  lemma PooledClean(s: State, t: State, j: nat)
    requires Clean(s) && Inv(t) && j < |s.jobs| && InFlight(s.jobs[j]) && s.jobs[j].raw.Some?
    requires t == s.(pool := s.pool + {s.jobs[j].raw.value})
    ensures Clean(t)
  {
    assert JobOk(s, s.jobs[j]);
    forall tx ensures IsMined(t, tx) == IsMined(s, tx) && Landed(t, tx) == Landed(s, tx) { }
    forall i | 0 <= i < |t.jobs| ensures NoStale(t, t.jobs[i]) {
      assert NoStale(s, s.jobs[i]);
      assert i != j ==> s.jobs[j].raw.value !in s.jobs[i].txs;
    }
  }

  lemma MineForeignClean(h: Hyp, s: State, a: nat)
    requires Clean(s) && Trusted(h) && Enabled(h, s, MineForeign(a))
    ensures Clean(Next(h, s, MineForeign(a)))
  {
    var t := Next(h, s, MineForeign(a));
    MineForeignKeeps(h, s, a);
    forall tx
      ensures IsMined(t, tx) == IsMined(s, tx) && Landed(t, tx) == Landed(s, tx) && (CanMine(t, tx) ==> CanMine(s, tx))
    {
    }
    forall i | 0 <= i < |t.jobs| ensures NoStale(t, t.jobs[i]) {
      assert NoStale(s, s.jobs[i]);
    }
  }

  lemma MineClean(h: Hyp, s: State, tx: Tx, outcome: Outcome)
    requires Clean(s) && Trusted(h) && Enabled(h, s, Mine(tx, outcome))
    ensures Clean(Next(h, s, Mine(tx, outcome)))
  {
    var t := Next(h, s, Mine(tx, outcome));
    MineKeeps(h, s, tx, outcome);
    forall i | 0 <= i < |t.jobs| ensures NoStale(t, t.jobs[i]) {
      assert NoStale(s, s.jobs[i]) && JobOk(s, s.jobs[i]) && t.jobs[i] == s.jobs[i];
      MineNoStale(s, s.jobs[i], tx, outcome);
    }
  }

  lemma MineNoStale(s: State, job: Job, tx: Tx, outcome: Outcome)
    requires CanMine(s, tx) && tx.nonce == |Line(s, tx.sender)|
    requires outcome == Filled ==> Executable(s, tx.taker, tx.maker, tx.fill)
    requires NoStale(s, job) && JobOk(s, job)
    ensures NoStale(AfterMine(s, tx, outcome), job)
  {
    forall u | u in job.txs ensures
      var t := AfterMine(s, tx, outcome);
      && IsMined(t, u) == (IsMined(s, u) || u == tx)
      && Landed(t, u) == (Landed(s, u) || (u == tx && outcome == Filled))
      && (CanMine(t, u) ==> CanMine(s, u) && u != tx)
    {
      MineEffect(s, tx, outcome, u);
    }
  }

  /** A step on the job table that keeps the chain: every job but `j` is untouched. */
  lemma RewriteClean(h: Hyp, s: State, e: Event, t: State, j: nat)
    requires Clean(s) && Trusted(h) && Enabled(h, s, e) && t == Next(h, s, e) && j < |s.jobs|
    requires t.lines == s.lines && t.pool == s.pool && |t.jobs| == |s.jobs| && NoStale(t, t.jobs[j])
    requires forall i :: 0 <= i < |s.jobs| && i != j ==> t.jobs[i] == s.jobs[i]
    ensures Clean(t)
  {
    StepKeeps(h, s, e);
    SameAnswers(s, t);
    forall i | 0 <= i < |t.jobs| ensures NoStale(t, t.jobs[i]) {
      assert NoStale(s, s.jobs[i]);
    }
  }

  /** The worker's writes to one job that leave it live or confirmed. */
  predicate RewritesJob(e: Event) {
    e.Sign? || e.Bump? || e.Accept? || e.Refuse? || e.NonceLow? || e.Reopen? || e.Settle? || e.Confirm? || e.Note?
  }

  lemma JobClean(h: Hyp, s: State, e: Event)
    requires Clean(s) && Trusted(h) && h.currentReceipts && Enabled(h, s, e)
    requires RewritesJob(e)
    ensures Clean(Next(h, s, e))
  {
    var t, j := Next(h, s, e), e.j;
    assert NoStale(s, s.jobs[j]) && JobOk(s, s.jobs[j]);
    SameAnswers(s, t);
    if e.Sign? || e.Bump? {
      var tx := t.jobs[j].raw.value;
      OwnIfPooled(s, j, tx);
      assert forall u :: u in t.jobs[j].txs <==> u in s.jobs[j].txs || u == tx;
    }
    RewriteClean(h, s, e, t, j);
  }

  lemma StepClean(h: Hyp, s: State, e: Event)
    requires Clean(s) && Trusted(h) && h.currentReceipts && Enabled(h, s, e)
    ensures Clean(Next(h, s, e))
  {
    if e.CancelOrder? {
      FlagClean(s, e.o);
      CancelClean(Flag(s, e.o), e.o, e.seen);
    } else if e.FailReceipt? {
      DeadJob(s, e.j);
      RollbackClean(s, e.j, Failed);
    } else if e.Drop? {
      DeadJob(s, e.j);
      RollbackClean(s, e.j, e.status);
    } else if e.Mine? {
      MineClean(h, s, e.tx, e.outcome);
    } else if e.MineForeign? {
      MineForeignClean(h, s, e.sender);
    } else if e.Broadcast? {
      BroadcastClean(h, s, e.j);
    } else if RewritesJob(e) {
      JobClean(h, s, e);
    } else {
      QuietClean(h, s, e);
    }
  }

  lemma QuietClean(h: Hyp, s: State, e: Event)
    requires Clean(s) && Trusted(h) && Enabled(h, s, e)
    requires e.PostOrder? || e.Match? || e.MatchOffchain? || e.RetireOrder? || e.ResyncFilled? || e.Prepare? || e.Crash?
      || e.ForeignFill? || e.MoveFunds? || e.Rotate?
    ensures Clean(Next(h, s, e))
  {
    StepKeeps(h, s, e);
    QuietFrame(h, s, e);
    FrameClean(s, Next(h, s, e));
  }

  /** No old row, transaction or receipt changed; new rows signed nothing. */
  ghost predicate QuietRows(s: State, t: State) {
    && t.lines == s.lines && t.pool == s.pool && |s.jobs| <= |t.jobs|
    && (forall i :: 0 <= i < |s.jobs| ==> t.jobs[i] == s.jobs[i])
    && (forall i :: |s.jobs| <= i < |t.jobs| ==> t.jobs[i].txs == [] && t.jobs[i].status == Pending)
  }

  lemma QuietFrame(h: Hyp, s: State, e: Event)
    requires Enabled(h, s, e)
    requires e.PostOrder? || e.Match? || e.MatchOffchain? || e.RetireOrder? || e.ResyncFilled? || e.Prepare? || e.Crash?
      || e.ForeignFill? || e.MoveFunds? || e.Rotate?
    ensures QuietRows(s, Next(h, s, e))
  {
  }

  lemma FrameClean(s: State, t: State)
    requires Clean(s) && Inv(t) && QuietRows(s, t)
    ensures Clean(t)
  {
    SameAnswers(s, t);
    forall i | 0 <= i < |t.jobs| ensures NoStale(t, t.jobs[i]) {
      if i < |s.jobs| { assert NoStale(s, s.jobs[i]); }
    }
  }

  lemma {:induction false} RunClean(h: Hyp, es: seq<Event>, ss: seq<State>, i: nat)
    requires Trusted(h) && h.currentReceipts && Run(h, es, ss) && i < |ss|
    ensures Clean(ss[i])
    decreases i
  {
    if i > 0 {
      RunClean(h, es, ss, i - 1);
      StepClean(h, ss[i - 1], es[i - 1]);
    }
  }

  /**
   No transaction of a failed or cancelled job ever lands: not before it became terminal, not later in the run.
   */
  lemma DroppedNeverLands(h: Hyp, es: seq<Event>, ss: seq<State>, i: nat, k: nat, j: nat, tx: Tx)
    requires Trusted(h) && h.currentReceipts && Run(h, es, ss) && i < |ss| && k < |ss| && j < |ss[i].jobs|
    requires ss[i].jobs[j].status == Failed || ss[i].jobs[j].status == Cancelled
    requires j < |ss[k].jobs| && tx in ss[k].jobs[j].txs
    ensures !Landed(ss[k], tx)
  {
    if i <= k {
      TerminalAbsorbing(h, es, ss, i, k, j);
      RunClean(h, es, ss, k);
      assert NoStale(ss[k], ss[k].jobs[j]);
    } else {
      TerminalAbsorbing(h, es, ss, k, i, j);
      RunClean(h, es, ss, i);
      assert NoStale(ss[i], ss[i].jobs[j]);
      LandedStays(h, es, ss, k, i, tx);
    }
  }

  /** The chain never forgets. */
  lemma {:induction false} LandedStays(h: Hyp, es: seq<Event>, ss: seq<State>, i: nat, k: nat, tx: Tx)
    requires Run(h, es, ss) && i <= k < |ss|
    ensures Landed(ss[i], tx) ==> Landed(ss[k], tx)
    decreases k - i
  {
    if i < k {
      LandedStays(h, es, ss, i, k - 1, tx);
      StepLandedStays(h, ss[k - 1], es[k - 1], ss[k], tx);
    }
  }

  lemma {:induction false} CancelLines(s: State, o: nat, seen: nat)
    requires seen <= |s.jobs|
    ensures var t := CancelJobs(s, o, seen);
      t.lines == s.lines && t.pool == s.pool && t.onchain == s.onchain && t.funds == s.funds
      && t.account == s.account && t.prepared == s.prepared
    decreases seen
  {
    if seen > 0 { CancelLines(s, o, seen - 1); }
  }

  lemma StepLandedStays(h: Hyp, s: State, e: Event, t: State, tx: Tx)
    requires Enabled(h, s, e) && t == Next(h, s, e)
    ensures Landed(s, tx) ==> Landed(t, tx)
  {
    if e.CancelOrder? { CancelLines(Flag(s, e.o), e.o, e.seen); }
  }
}
