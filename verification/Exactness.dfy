/**
 Exactly when the relayer keeps what its counterexamples break: shared bytes, a replaced key, refused bytes that live
 on, and a job failed on an older receipt. Nothing here assumes any of the environment hypotheses, unless a lemma names
 one.
 */
module Exactness {
  import opened Options
  import opened Relay
  import opened RelaySafety

  // ------------------------------------------------------------------ fresh bytes, own key, final refusals

  /** The same hypotheses without those on the signatures, which are facts of a run and not of a step. */
  function Lax(h: Hyp): Hyp {
    h.(freshBytes := false, steadyKey := false)
  }

  /** What an event records as signed bytes, if it signs any. */
  function Recording(s: State, e: Event): Option<(nat, Tx)>
    requires e.Sign? ==> e.j < |s.jobs|
    requires e.Bump? ==> e.j < |s.jobs| && s.jobs[e.j].nonce.Some?
  {
    match e
    case Sign(j, nonce, fee) => Some((j, MatchTx(s.jobs[j], s.account, nonce, fee)))
    case Bump(j, fee) => Some((j, MatchTx(s.jobs[j], s.account, s.jobs[j].nonce.value, fee)))
    case _ => None
  }

  /**
   No other row lists the bytes this event signs, and a replacement is signed with the key its job was sent with: things
   the worker can look up before its commit. And bytes that were refused have not landed and cannot.
   */
  ghost predicate StepSound(h: Hyp, s: State, e: Event)
    requires Enabled(h, s, e)
  {
    var r := Recording(s, e);
    && (r.Some? ==> FreshTx(s, r.value.0, r.value.1))
    && (e.Bump? ==> s.account == s.jobs[e.j].sender)
    && (e.Refuse? ==> !Landed(s, s.jobs[e.j].raw.value) && !CanMine(s, s.jobs[e.j].raw.value))
  }

  lemma SoundStep(h: Hyp, s: State, e: Event)
    requires Enabled(Lax(h), s, e) && StepSound(Lax(h), s, e)
    ensures Enabled(h, s, e) && Next(h, s, e) == Next(Lax(h), s, e)
  {
  }

  /** Runs without the hypotheses on signatures are runs under them whenever every step was sound. */
  lemma SoundRun(h: Hyp, es: seq<Event>, ss: seq<State>)
    requires Run(Lax(h), es, ss)
    requires forall i :: 0 <= i < |es| ==> StepSound(Lax(h), ss[i], es[i])
    ensures Run(h, es, ss)
  {
    forall i | 0 <= i < |es| ensures Enabled(h, ss[i], es[i]) && ss[i + 1] == Next(h, ss[i], es[i]) {
      SoundStep(h, ss[i], es[i]);
    }
  }

  /** Bytes another row already lists are then listed twice. */
  lemma SharedBreaks(s: State, t: State, i: nat, j: nat, tx: Tx)
    requires i < |s.jobs| && j < |s.jobs| == |t.jobs| && i != j && tx in s.jobs[i].txs
    requires t.jobs[i] == s.jobs[i] && tx in t.jobs[j].txs
    ensures !Disjoint(t)
  {
  }

  /** Signing keeps the invariant if and only if no other row lists the same bytes. */
  lemma SignSafeIff(h: Hyp, s: State, j: nat, nonce: nat, fee: Fees)
    requires Inv(s) && Enabled(h, s, Sign(j, nonce, fee))
    ensures Inv(Next(h, s, Sign(j, nonce, fee))) <==> FreshTx(s, j, MatchTx(s.jobs[j], s.account, nonce, fee))
  {
    var e := Sign(j, nonce, fee);
    var t, tx := Next(h, s, e), MatchTx(s.jobs[j], s.account, nonce, fee);
    if FreshTx(s, j, tx) {
      var g := h.(steadyKey := true, freshBytes := true, refusalFinal := true);
      SignKeeps(g, s, j, nonce, fee);
      assert t == Next(g, s, e);
    } else {
      var i :| 0 <= i < |s.jobs| && i != j && tx in s.jobs[i].txs;
      assert t.jobs[j].txs == s.jobs[j].txs + [tx];
      SharedBreaks(s, t, i, j, tx);
    }
  }

  /** So does a replacement, if and only if it is also signed with the key its job was sent with. */
  lemma BumpFreshIff(h: Hyp, s: State, j: nat, fee: Fees)
    requires Inv(s) && Enabled(h, s, Bump(j, fee))
    ensures Inv(Next(h, s, Bump(j, fee))) <==>
      (s.account == s.jobs[j].sender && FreshTx(s, j, MatchTx(s.jobs[j], s.account, s.jobs[j].nonce.value, fee)))
  {
    var e := Bump(j, fee);
    var t, tx := Next(h, s, e), MatchTx(s.jobs[j], s.account, s.jobs[j].nonce.value, fee);
    if s.account != s.jobs[j].sender {
      assert !RowOk(t, t.jobs[j]);
    } else if FreshTx(s, j, tx) {
      var g := h.(steadyKey := true, freshBytes := true, refusalFinal := true);
      BumpKeeps(g, s, j, fee);
      assert t == Next(g, s, e);
    } else {
      var i :| 0 <= i < |s.jobs| && i != j && tx in s.jobs[i].txs;
      assert t.jobs[j].txs == s.jobs[j].txs + [tx];
      SharedBreaks(s, t, i, j, tx);
    }
  }

  /** Taking a refused job back is safe if and only if its bytes have not landed and cannot. */
  lemma RefuseSafeIff(h: Hyp, s: State, j: nat)
    requires Inv(s) && Enabled(h, s, Refuse(j))
    ensures Inv(Next(h, s, Refuse(j))) <==>
      (!Landed(s, s.jobs[j].raw.value) && !CanMine(s, s.jobs[j].raw.value))
  {
    var t, raw := Next(h, s, Refuse(j)), s.jobs[j].raw.value;
    assert JobOk(s, s.jobs[j]);
    if !Landed(s, raw) && !CanMine(s, raw) {
      PendingKeeps(s, j);
    } else {
      SameAnswers(s, t);
      assert raw in t.jobs[j].txs && !OnlyCurrent(t, t.jobs[j]);
      assert !JobOk(t, t.jobs[j]);
    }
  }

  lemma StepSoundIff(h: Hyp, s: State, e: Event)
    requires Inv(s) && Enabled(h, s, e)
    ensures Inv(Next(h, s, e)) <==> StepSound(h, s, e)
  {
    if e.Sign? {
      SignSafeIff(h, s, e.j, e.nonce, e.fee);
    } else if e.Bump? {
      BumpFreshIff(h, s, e.j, e.fee);
    } else if e.Refuse? {
      RefuseSafeIff(h, s, e.j);
    } else {
      var g := h.(freshBytes := true, steadyKey := true, refusalFinal := true);
      assert Enabled(g, s, e) && Next(g, s, e) == Next(h, s, e);
      StepKeeps(g, s, e);
    }
  }

  /** Each of the first `n` steps was sound: fresh signatures, own key, dead refusals. */
  ghost predicate AllSound(h: Hyp, es: seq<Event>, ss: seq<State>, n: nat)
    requires Run(h, es, ss) && n <= |es|
  {
    forall i :: 0 <= i < n ==> StepSound(h, ss[i], es[i])
  }

  /** Over any run, key replacements included, the invariant holds throughout exactly when every step was sound. */
  lemma {:induction false} InvariantIffSound(h: Hyp, es: seq<Event>, ss: seq<State>, n: nat)
    requires Run(h, es, ss) && n <= |es|
    ensures (forall i :: 0 <= i <= n ==> Inv(ss[i])) <==> AllSound(h, es, ss, n)
    decreases n
  {
    if n == 0 {
      RunInv(h.(freshBytes := true, steadyKey := true, refusalFinal := true), [], [ss[0]], 0);
    } else {
      InvariantIffSound(h, es, ss, n - 1);
      if forall i :: 0 <= i <= n - 1 ==> Inv(ss[i]) {
        StepSoundIff(h, ss[n - 1], es[n - 1]);
        assert ss[n] == Next(h, ss[n - 1], es[n - 1]);
      }
    }
  }

  /** While the steps are sound, confirmed fills never outgrow the Exchange's counters, hypothesis or not. */
  lemma SoundCovers(h: Hyp, es: seq<Event>, ss: seq<State>, n: nat, o: nat)
    requires Run(h, es, ss) && n <= |es| && AllSound(h, es, ss, n) && o < |ss[n].orders|
    ensures |ss[n].onchain| == |ss[n].orders| && Tally(ss[n], ConfirmedFill(o)) <= ss[n].onchain[o]
  {
    InvariantIffSound(h, es, ss, n);
    CoveredState(ss[n], o);
  }

  // ------------------------------------------------------------------ failing on a receipt

  /** One of the job's own transactions took its nonce and filled: what the receipt of that nonce would show. */
  predicate FilledOwn(s: State, job: Job) {
    NonceConsumed(s, job) &&
    var m := Line(s, job.sender)[job.nonce.value];
    m.Ours? && m.tx in job.txs && m.tx.sender == job.sender && m.tx.nonce == job.nonce.value && m.outcome == Filled
  }

  /** A node may hold one of the job's transactions on its current nonce. */
  predicate PooledOwn(s: State, job: Job) {
    exists tx :: tx in job.txs && tx in s.pool && job.nonce == Some(tx.nonce) && job.sender == tx.sender
  }

  /** What of an in-flight job can still matter: only its current nonce, however far receipts lag. */
  lemma DeadIff(s: State, job: Job)
    requires JobOk(s, job) && InFlight(job)
    ensures Dead(s, job) <==> !FilledOwn(s, job) && (NonceConsumed(s, job) || !PooledOwn(s, job))
  {
    if !FilledOwn(s, job) && (NonceConsumed(s, job) || !PooledOwn(s, job)) {
      forall tx | tx in job.txs ensures !Landed(s, tx) && !CanMine(s, tx) {
      }
    }
    if FilledOwn(s, job) {
      var tx := Line(s, job.sender)[job.nonce.value].tx;
      assert tx in job.txs && Landed(s, tx);
    } else if !NonceConsumed(s, job) && PooledOwn(s, job) {
      var tx :| tx in job.txs && tx in s.pool && job.nonce == Some(tx.nonce) && job.sender == tx.sender;
      assert CanMine(s, tx);
    }
  }

  /**
   Failing a job on a mined receipt without its fill leaves nothing of it that landed or can land if and only if none
   of its own transactions filled on its nonce, and that nonce is mined or none of them is pooled.
   */
  lemma FailReceiptSafeIff(h: Hyp, s: State, j: nat, tx: Tx)
    requires Inv(s) && Enabled(h, s, FailReceipt(j, tx))
    ensures var t := Next(h, s, FailReceipt(j, tx));
      Dead(t, t.jobs[j]) <==> !FilledOwn(s, s.jobs[j]) && (NonceConsumed(s, s.jobs[j]) || !PooledOwn(s, s.jobs[j]))
  {
    var t := Next(h, s, FailReceipt(j, tx));
    assert JobOk(s, s.jobs[j]);
    DeadIff(s, s.jobs[j]);
    SameAnswers(s, t);
  }

  /**
   Once the job's bytes were broadcast, that is what the worker can ask the node: the mined nonce count, and the receipt
   of what took the nonce.
   */
  lemma FailReceiptCheckIff(h: Hyp, s: State, j: nat, tx: Tx)
    requires Inv(s) && Enabled(h, s, FailReceipt(j, tx)) && s.jobs[j].raw.value in s.pool
    ensures var t := Next(h, s, FailReceipt(j, tx));
      Dead(t, t.jobs[j]) <==> NonceConsumed(s, s.jobs[j]) && !FilledOwn(s, s.jobs[j])
  {
    assert JobOk(s, s.jobs[j]);
    assert PooledOwn(s, s.jobs[j]);
    FailReceiptSafeIff(h, s, j, tx);
  }

  /** A terminal job of which nothing landed or can land. */
  ghost predicate Buried(s: State, j: nat) {
    j < |s.jobs| && Terminal(s.jobs[j]) && Dead(s, s.jobs[j])
  }

  /** Such a job stays so: other rows do not list its bytes, and its own are not broadcast again. */
  lemma StepBuried(h: Hyp, s: State, e: Event, j: nat)
    requires Inv(s) && Trusted(h) && Enabled(h, s, e) && Buried(s, j)
    ensures Buried(Next(h, s, e), j)
  {
    var t := Next(h, s, e);
    StepGrows(h, s, e, j);
    if e.CancelOrder? {
      CancelLines(Flag(s, e.o), e.o, e.seen);
      SameAnswers(s, t);
    } else if e.Mine? {
      forall tx | tx in t.jobs[j].txs ensures !Landed(t, tx) && !CanMine(t, tx) {
        MineEffect(s, e.tx, e.outcome, tx);
      }
    } else if e.Broadcast? {
      assert JobOk(s, s.jobs[e.j]) && s.jobs[e.j].raw.value !in s.jobs[j].txs;
    } else {
      StepQuiet(h, s, e);
    }
  }

  lemma StepQuiet(h: Hyp, s: State, e: Event)
    requires Enabled(h, s, e) && !e.CancelOrder? && !e.Mine? && !e.Broadcast?
    ensures var t := Next(h, s, e);
      forall tx :: (Landed(t, tx) ==> Landed(s, tx)) && (CanMine(t, tx) ==> CanMine(s, tx))
  {
  }

  lemma {:induction false} StaysBuried(h: Hyp, es: seq<Event>, ss: seq<State>, i: nat, k: nat, j: nat)
    requires Trusted(h) && Run(h, es, ss) && i <= k < |ss| && Buried(ss[i], j)
    ensures Buried(ss[k], j)
    decreases k - i
  {
    if i < k {
      StaysBuried(h, es, ss, i, k - 1, j);
      RunInv(h, es, ss, k - 1);
      StepBuried(h, ss[k - 1], es[k - 1], j);
    }
  }

  /**
   With receipts lagging arbitrarily, a job failed on a receipt never lands, before or after, whenever the check of
   `FailReceiptSafeIff` held as it was failed.
   */
  lemma FailedNeverLands(h: Hyp, es: seq<Event>, ss: seq<State>, i: nat, k: nat, tx: Tx)
    requires Trusted(h) && Run(h, es, ss) && i < |es| && es[i].FailReceipt? && k < |ss| && es[i].j < |ss[k].jobs|
    requires var job := ss[i].jobs[es[i].j];
      !FilledOwn(ss[i], job) && (NonceConsumed(ss[i], job) || !PooledOwn(ss[i], job))
    requires tx in ss[k].jobs[es[i].j].txs
    ensures !Landed(ss[k], tx)
  {
    var j := es[i].j;
    RunInv(h, es, ss, i);
    FailReceiptSafeIff(h, ss[i], j, es[i].tx);
    if k <= i {
      TerminalAbsorbing(h, es, ss, k, i + 1, j);
      LandedStays(h, es, ss, k, i + 1, tx);
    } else {
      StaysBuried(h, es, ss, i + 1, k, j);
    }
  }

  // ------------------------------------------------------------------ every dropped job

  /** The check of `FailReceiptSafeIff`, on the job an event fails. */
  ghost predicate FailsSafe(s: State, e: Event) {
    e.FailReceipt? && e.j < |s.jobs| ==>
      !FilledOwn(s, s.jobs[e.j]) && (NonceConsumed(s, s.jobs[e.j]) || !PooledOwn(s, s.jobs[e.j]))
  }

  predicate Dropped(job: Job) {
    job.status == Failed || job.status == Cancelled
  }

  /** Nothing of a failed or cancelled job has landed or can. */
  ghost predicate DroppedDead(s: State) {
    forall j :: 0 <= j < |s.jobs| && Dropped(s.jobs[j]) ==> Dead(s, s.jobs[j])
  }

  lemma {:induction false} CancelEffect(s: State, o: nat, seen: nat, j: nat)
    requires seen <= |s.jobs| && j < |s.jobs|
    ensures var t := CancelJobs(s, o, seen);
      t.jobs[j] == s.jobs[j] || (s.jobs[j].status == Pending && t.jobs[j] == s.jobs[j].(status := Cancelled))
    decreases seen
  {
    if seen > 0 {
      CancelEffect(s, o, seen - 1, j);
    }
  }

  /** Only pending jobs are dropped, apart from the one a receipt fails. */
  lemma NewlyDropped(h: Hyp, s: State, e: Event, j: nat)
    requires Enabled(h, s, e) && j < |Next(h, s, e).jobs| && Dropped(Next(h, s, e).jobs[j])
    requires j < |s.jobs| ==> !Dropped(s.jobs[j])
    ensures j < |s.jobs| && Next(h, s, e).jobs[j].txs == s.jobs[j].txs
    ensures s.jobs[j].status == Pending || (e.FailReceipt? && j == e.j)
    ensures Next(h, s, e).lines == s.lines && Next(h, s, e).pool == s.pool
  {
    if e.CancelOrder? {
      CancelEffect(Flag(s, e.o), e.o, e.seen, j);
      CancelLines(Flag(s, e.o), e.o, e.seen);
    }
  }

  /** Dropped jobs stay dead through an event if and only if a job it fails passes the check. */
  lemma StepDroppedIff(h: Hyp, s: State, e: Event)
    requires Inv(s) && Trusted(h) && Enabled(h, s, e) && DroppedDead(s)
    ensures DroppedDead(Next(h, s, e)) <==> FailsSafe(s, e)
  {
    var t := Next(h, s, e);
    if e.FailReceipt? {
      FailReceiptSafeIff(h, s, e.j, e.tx);
    }
    forall j | 0 <= j < |t.jobs| && Dropped(t.jobs[j]) && (e.FailReceipt? ==> FailsSafe(s, e) || j != e.j)
      ensures Dead(t, t.jobs[j])
    {
      if j < |s.jobs| && Dropped(s.jobs[j]) {
        assert Buried(s, j);
        StepBuried(h, s, e, j);
      } else {
        NewlyDropped(h, s, e, j);
        assert JobOk(s, s.jobs[j]);
        SameAnswers(s, t);
      }
    }
    if !FailsSafe(s, e) {
      assert Dropped(t.jobs[e.j]) && !Dead(t, t.jobs[e.j]);
    }
  }

  ghost predicate AllDead(ss: seq<State>, n: nat)
    requires n < |ss|
  {
    forall i :: 0 <= i <= n ==> DroppedDead(ss[i])
  }

  ghost predicate AllFailsSafe(es: seq<Event>, ss: seq<State>, n: nat)
    requires n <= |es| && n <= |ss|
  {
    forall i :: 0 <= i < n ==> FailsSafe(ss[i], es[i])
  }

  lemma OneMoreDead(ss: seq<State>, n: nat)
    requires 0 < n < |ss|
    ensures AllDead(ss, n) <==> AllDead(ss, n - 1) && DroppedDead(ss[n])
    ensures AllDead(ss, n - 1) ==> DroppedDead(ss[n - 1])
  {
  }

  lemma OneMoreCheck(es: seq<Event>, ss: seq<State>, n: nat)
    requires 0 < n <= |es| && n <= |ss|
    ensures AllFailsSafe(es, ss, n) <==> AllFailsSafe(es, ss, n - 1) && FailsSafe(ss[n - 1], es[n - 1])
  {
  }

  lemma DeadStep(h: Hyp, es: seq<Event>, ss: seq<State>, n: nat)
    requires Trusted(h) && Run(h, es, ss) && 0 < n <= |es| && DroppedDead(ss[n - 1])
    ensures DroppedDead(ss[n]) <==> FailsSafe(ss[n - 1], es[n - 1])
  {
    RunInv(h, es, ss, n - 1);
    StepDroppedIff(h, ss[n - 1], es[n - 1]);
  }

  /**
   With receipts lagging arbitrarily: nothing of a dropped job has landed or can in any state of a run if and only if
   every job failed on a receipt passed the check.
   */
  lemma {:induction false} DeadIffFailsSafe(h: Hyp, es: seq<Event>, ss: seq<State>, n: nat)
    requires Trusted(h) && Run(h, es, ss) && n <= |es|
    ensures AllDead(ss, n) <==> AllFailsSafe(es, ss, n)
    decreases n
  {
    if n > 0 {
      DeadIffFailsSafe(h, es, ss, n - 1);
      OneMoreDead(ss, n);
      OneMoreCheck(es, ss, n);
      if DroppedDead(ss[n - 1]) {
        DeadStep(h, es, ss, n);
      }
    }
  }

  /** A job dropped in such a run never lands: not before it was dropped, not later. */
  lemma DroppedStaysOut(h: Hyp, es: seq<Event>, ss: seq<State>, i: nat, k: nat, j: nat, tx: Tx)
    requires Trusted(h) && Run(h, es, ss) && i < |ss| && k < |ss| && j < |ss[i].jobs| && Dropped(ss[i].jobs[j])
    requires AllFailsSafe(es, ss, if i <= k then k else i)
    requires j < |ss[k].jobs| && tx in ss[k].jobs[j].txs
    ensures !Landed(ss[k], tx)
  {
    DeadIffFailsSafe(h, es, ss, if i <= k then k else i);
    if i <= k {
      TerminalAbsorbing(h, es, ss, i, k, j);
    } else {
      TerminalAbsorbing(h, es, ss, k, i, j);
      LandedStays(h, es, ss, k, i, tx);
    }
  }

  /** With current receipts every job that fails passes the check. */
  lemma CurrentFailsSafe(h: Hyp, es: seq<Event>, ss: seq<State>, n: nat)
    requires Trusted(h) && h.currentReceipts && Run(h, es, ss) && n <= |es|
    ensures AllFailsSafe(es, ss, n)
  {
    forall i | 0 <= i < n ensures FailsSafe(ss[i], es[i]) {
      if es[i].FailReceipt? {
        RunClean(h, es, ss, i);
        DeadJob(ss[i], es[i].j);
        assert JobOk(ss[i], ss[i].jobs[es[i].j]);
        DeadIff(ss[i], ss[i].jobs[es[i].j]);
      }
    }
  }

  // ------------------------------------------------------------------ a key replaced while idle

  /** The key is replaced only while no job is in flight. */
  predicate IdleKey(s: State, e: Event) {
    e.Rotate? ==> forall j :: 0 <= j < |s.jobs| ==> !InFlight(s.jobs[j])
  }

  predicate KeyHeld(s: State) {
    forall j :: 0 <= j < |s.jobs| && InFlight(s.jobs[j]) ==> s.jobs[j].sender == s.account
  }

  lemma StepKeyHeld(h: Hyp, s: State, e: Event)
    requires KeyHeld(s) && Enabled(h, s, e) && IdleKey(s, e)
    ensures KeyHeld(Next(h, s, e))
  {
    if e.CancelOrder? {
      var f := Flag(s, e.o);
      CancelLines(f, e.o, e.seen);
      forall j | 0 <= j < |s.jobs|
        ensures InFlight(Next(h, s, e).jobs[j]) ==> Next(h, s, e).jobs[j] == s.jobs[j]
      {
        CancelEffect(f, e.o, e.seen, j);
      }
    }
  }

  /** Then every replacement is signed with the key its job was sent with. */
  lemma {:induction false} IdleKeySteady(h: Hyp, es: seq<Event>, ss: seq<State>, n: nat)
    requires Run(h, es, ss) && n <= |es| && forall i :: 0 <= i < n ==> IdleKey(ss[i], es[i])
    ensures KeyHeld(ss[n]) && forall i :: 0 <= i < n && es[i].Bump? ==> ss[i].account == ss[i].jobs[es[i].j].sender
    decreases n
  {
    if n > 0 {
      IdleKeySteady(h, es, ss, n - 1);
      StepKeyHeld(h, ss[n - 1], es[n - 1]);
    }
  }
}
