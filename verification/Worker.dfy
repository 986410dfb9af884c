/**
 The relayer worker's steps and the cancel route, imperatively, over the committed rows. Each method is proved to
 move the backend along a path of machine events, so every theorem about runs is about these methods.
 Answers of the node arrive as parameters; `now` is the clock.
 */
module Worker {
  import opened Options
  import opened Relay
  import opened Preflight
  import opened WorkerSpec
  import Gas
  import Nonce
  import CancelExposure
  import RelaySafety
  import opened Exactness

  // ------------------------------------------------------------------ what others do meanwhile

  /** Transactions of the API and moves of the chain, between two awaits of one worker step. */
  predicate OtherEvent(e: Event) {
    e.PostOrder? || e.Match? || e.MatchOffchain? || e.CancelOrder? || e.RetireOrder?
    || e.Mine? || e.MineForeign? || e.ForeignFill? || e.MoveFunds?
  }

  /** What the worker may rely on while others run. */
  ghost predicate Undisturbed(s: State, t: State) {
    && t.account == s.account && t.prepared == s.prepared && t.pool == s.pool
    && |t.onchain| == |t.orders| && |s.orders| <= |t.orders| && |s.jobs| <= |t.jobs|
    && (forall j :: 0 <= j < |t.jobs| ==> Sides(t, t.jobs[j].taker, t.jobs[j].maker))
    && (forall j :: 0 <= j < |s.jobs| ==>
          (t.jobs[j] == s.jobs[j] || (s.jobs[j].status == Pending && t.jobs[j] == s.jobs[j].(status := Cancelled))))
    && (forall j :: |s.jobs| <= j < |t.jobs| ==> t.jobs[j].status == Pending || t.jobs[j].status == Cancelled)
    && (forall tx :: IsMined(s, tx) ==> IsMined(t, tx) && Landed(t, tx) == Landed(s, tx))
  }

  lemma {:induction false} CancelUndisturbed(s: State, o: nat, seen: nat)
    requires seen <= |s.jobs| && Rows(s)
    ensures Undisturbed(s, CancelJobs(s, o, seen))
    decreases seen
  {
    if seen > 0 {
      CancelUndisturbed(s, o, seen - 1);
      var t, u := CancelJobs(s, o, seen - 1), CancelJobs(s, o, seen);
      assert u.lines == t.lines;
    }
  }

  ghost predicate Rows(s: State) {
    && |s.onchain| == |s.orders|
    && (forall j :: 0 <= j < |s.jobs| ==>
          && Sides(s, s.jobs[j].taker, s.jobs[j].maker)
          && (InFlight(s.jobs[j]) ==> s.jobs[j].raw.Some? && s.jobs[j].nonce.Some?))
  }

  lemma OneUndisturbed(h: Hyp, s: State, e: Event)
    requires Rows(s) && Enabled(h, s, e) && OtherEvent(e)
    ensures Undisturbed(s, Next(h, s, e))
  {
    if e.CancelOrder? {
      CancelUndisturbed(Flag(s, e.o), e.o, e.seen);
    } else if e.Mine? || e.MineForeign? {
      MinedUndisturbed(h, s, e);
    }
  }

  lemma MinedUndisturbed(h: Hyp, s: State, e: Event)
    requires Rows(s) && Enabled(h, s, e) && (e.Mine? || e.MineForeign?)
    ensures Undisturbed(s, Next(h, s, e))
  {
  }

  lemma UndisturbedTrans(s: State, t: State, u: State)
    requires Undisturbed(s, t) && Undisturbed(t, u)
    ensures Undisturbed(s, u)
  {
    forall j | 0 <= j < |s.jobs| ensures u.jobs[j] == s.jobs[j] ||
      (s.jobs[j].status == Pending && u.jobs[j] == s.jobs[j].(status := Cancelled))
    {
      assert t.jobs[j] == s.jobs[j] || t.jobs[j] == s.jobs[j].(status := Cancelled);
    }
  }

  lemma UndisturbedRows(s: State, t: State)
    requires Rows(s) && Undisturbed(s, t)
    ensures Rows(t)
  {
  }

  lemma {:induction false} OthersUndisturbed(h: Hyp, s: State, es: seq<Event>, t: State)
    requires Rows(s) && Path(h, s, es, t) && forall e :: e in es ==> OtherEvent(e)
    ensures Undisturbed(s, t)
    decreases |es|
  {
    if es != [] {
      var m := Next(h, s, es[0]);
      OneUndisturbed(h, s, es[0]);
      UndisturbedRows(s, m);
      OthersUndisturbed(h, m, es[1..], t);
      UndisturbedTrans(s, m, t);
    }
  }

  // ------------------------------------------------------------------ the worker

  /** Is this side among the culprits? */
  method Blamed(reasons: seq<Reason>, role: Role) returns (blamed: bool)
    ensures blamed == AtFault(reasons, role)
  {
    for i := 0 to |reasons|
      invariant forall k :: 0 <= k < i ==> !IsFault(reasons[k], role)
    {
      if IsFault(reasons[i], role) {
        return true;
      }
    }
    blamed := false;
  }

  class RelayerWorker {
    // committed rows
    var orders: seq<Order>
    var jobs: seq<Job>
    // the chain it runs against
    var lines: map<nat, seq<Mined>>
    var pool: set<Tx>
    var onchain: seq<nat>
    var funds: Funds
    // process memory
    var account: nat
    var prepared: Option<nat>
    const nm: Nonce.NonceManager
    const cfg: Settings
    ghost const h: Hyp
    /** Nobody else runs, and no block comes, while a step awaits. */
    ghost const quiet: bool

    function Snap(): State
      reads this
    {
      State(orders, jobs, lines, pool, onchain, funds, account, prepared)
    }

    ghost predicate Valid()
      reads this
    {
      Rows(Snap())
    }

    constructor (nm: Nonce.NonceManager, cfg: Settings, ghost h: Hyp, ghost quiet: bool, account: nat)
      ensures Valid() && Initial(Snap()) && this.nm == nm && this.cfg == cfg && this.h == h && this.quiet == quiet
      ensures this.account == account
    {
      this.nm, this.cfg, this.h, this.quiet, this.account := nm, cfg, h, quiet, account;
      orders, jobs, onchain, prepared := [], [], [], None;
      lines, pool, funds := map[], {}, Funds(map[], map[], map[]);
    }

    /** One job row is written: a single machine event appended to the trail of this step. */
    method WriteJob(j: nat, job: Job, ghost e: Event, ghost s0: State, ghost es0: seq<Event>)
      returns (ghost es: seq<Event>)
      requires Valid() && j < |jobs| && Path(Lax(h), s0, es0, Snap()) && Enabled(Lax(h), Snap(), e)
      requires Next(Lax(h), Snap(), e) == SetJob(Snap(), j, job)
      requires job.taker == jobs[j].taker && job.maker == jobs[j].maker
      requires InFlight(job) ==> job.raw.Some? && job.nonce.Some?
      modifies this
      ensures es == es0 + [e] && Path(Lax(h), s0, es, Snap()) && Valid()
      ensures Snap() == SetJob(old(Snap()), j, job)
    {
      PathAppend(Lax(h), s0, es0, Snap(), e);
      jobs := jobs[j := job];
      es := es0 + [e];
    }

    method SetBook(j: nat, book: Book, ghost s0: State, ghost es0: seq<Event>) returns (ghost es: seq<Event>)
      requires Valid() && j < |jobs| && Path(Lax(h), s0, es0, Snap())
      modifies this
      ensures es == es0 + [Note(j, book)] && Path(Lax(h), s0, es, Snap()) && Valid()
      ensures Snap() == SetJob(old(Snap()), j, old(jobs[j]).(book := book))
    {
      es := WriteJob(j, jobs[j].(book := book), Note(j, book), s0, es0);
    }

    /** Status and bookkeeping columns of one row in one commit. */
    method WriteRow(j: nat, job: Job, book: Book, ghost e: Event, ghost s0: State, ghost es0: seq<Event>)
      returns (ghost es: seq<Event>)
      requires Valid() && j < |jobs| && Path(Lax(h), s0, es0, Snap()) && Enabled(Lax(h), Snap(), e)
      requires Next(Lax(h), Snap(), e) == SetJob(Snap(), j, job)
      requires job.taker == jobs[j].taker && job.maker == jobs[j].maker
      requires InFlight(job) ==> job.raw.Some? && job.nonce.Some?
      modifies this
      ensures es == es0 + [e, Note(j, book)] && Path(Lax(h), s0, es, Snap()) && Valid()
      ensures Snap() == SetJob(old(Snap()), j, job.(book := book))
    {
      es := WriteJob(j, job, e, s0, es0);
      es := SetBook(j, book, s0, es);
      assert es == es0 + [e, Note(j, book)];
    }

    /** The stored bytes go out; whatever the node answered, it may hold them now. */
    method SendRaw(j: nat, ghost s0: State, ghost es0: seq<Event>) returns (ghost es: seq<Event>)
      requires Valid() && j < |jobs| && InFlight(jobs[j]) && Path(Lax(h), s0, es0, Snap())
      modifies this
      ensures es == es0 + [Broadcast(j)] && Path(Lax(h), s0, es, Snap()) && Valid()
      ensures Snap() == old(Snap()).(pool := old(pool) + {old(jobs[j]).raw.value})
    {
      PathAppend(Lax(h), s0, es0, Snap(), Broadcast(j));
      pool := pool + {jobs[j].raw.value};
      es := es0 + [Broadcast(j)];
    }

    /** rollback_job: conditional on the status the caller saw, lowering both orders by the job's fill. */
    method RollbackJob(j: nat, expected: Status, status: Status) returns (done: bool)
      requires Valid() && j < |jobs| && (status == Failed || status == Cancelled)
      modifies this
      ensures Valid()
      ensures done ==
        (old(jobs[j]).status == expected && (expected == Pending || expected == Sending || expected == Sent))
      ensures Snap() == if done then Rollback(old(Snap()), j, status) else old(Snap())
    {
      if expected == Confirmed || expected == Failed || expected == Cancelled {
        return false;
      }
      if jobs[j].status != expected {
        return false;
      }
      var job := jobs[j];
      jobs := jobs[j := job.(status := status)];
      orders := LowerBoth(orders, job.taker, job.maker, job.fill);
      done := true;
    }

    /** rollback_job on a job last seen pending, as a machine event; nothing when it was cancelled meanwhile. */
    method DropJob(j: nat, status: Status, ghost s0: State, ghost es0: seq<Event>) returns (ghost es: seq<Event>)
      requires Valid() && j < |jobs| && Unclaimed(jobs[j]) && (status == Failed || status == Cancelled)
      requires Path(Lax(h), s0, es0, Snap())
      modifies this
      ensures Path(Lax(h), s0, es, Snap()) && Valid()
      ensures Snap() == if old(jobs[j]).status == Pending then Rollback(old(Snap()), j, status) else old(Snap())
    {
      es := es0;
      if jobs[j].status == Pending {
        PathAppend(Lax(h), s0, es0, Snap(), Drop(j, status));
        es := es0 + [Drop(j, status)];
      }
      var done := RollbackJob(j, Pending, status);
    }

    /** The first of our hashes that has a receipt. */
    method FindReceipt(hashes: seq<Tx>, receipts: set<Tx>) returns (found: Option<Tx>)
      ensures found.Some? ==> FirstIn(hashes, receipts, found.value)
      ensures found == None ==> forall tx :: tx in hashes ==> tx !in receipts
      ensures found == FirstReceipt(hashes, Some(receipts))
    {
      FirstReceiptIs(hashes, Some(receipts));
      for i := 0 to |hashes|
        invariant forall k :: 0 <= k < i ==> hashes[k] !in receipts
      {
        if hashes[i] in receipts {
          return Some(hashes[i]);
        }
      }
      found := None;
    }

    /** Fill of confirmed jobs on an order. */
    method Accounted(o: nat) returns (sum: nat)
      requires Valid()
      ensures sum == Tally(Snap(), ConfirmedFill(o))
    {
      sum := 0;
      for i := 0 to |jobs|
        invariant sum == Partial(Snap(), ConfirmedFill(o), i)
      {
        PartialStep(Snap(), ConfirmedFill(o), i);
        if jobs[i].status == Confirmed && Touches(jobs[i], o) {
          sum := sum + jobs[i].fill;
        }
      }
      assert Weights(Snap(), ConfirmedFill(o))[..|jobs|] == Weights(Snap(), ConfirmedFill(o));
    }

    /** Fill of live jobs on an order. */
    method LiveOn(o: nat) returns (sum: nat)
      requires Valid()
      ensures sum == Tally(Snap(), LiveFill(o))
    {
      sum := 0;
      for i := 0 to |jobs|
        invariant sum == Partial(Snap(), LiveFill(o), i)
      {
        PartialStep(Snap(), LiveFill(o), i);
        if Live(jobs[i]) && Touches(jobs[i], o) {
          sum := sum + jobs[i].fill;
        }
      }
      assert Weights(Snap(), LiveFill(o))[..|jobs|] == Weights(Snap(), LiveFill(o));
    }

    /** _fill_verdict over the logs the node shows. Under the relayer invariant "gone" is never said of a landed job. */
    method FillVerdict(j: nat, logs: seq<Tx>) returns (v: Verdict)
      requires Valid() && j < |jobs| && jobs[j].status != Confirmed && GenuineLogs(Snap(), Some(logs))
      ensures v.LandedBy? <==> OwnLog(jobs[j], logs)
      ensures v.LandedBy? ==> v.tx in jobs[j].txs && Landed(Snap(), v.tx)
      ensures v.Gone? <==> !OwnLog(jobs[j], logs) && Absent(Snap(), j)
      ensures v.Gone? && RelaySafety.Inv(Snap()) ==> !JobLanded(Snap(), jobs[j])
    {
      for i := 0 to |logs|
        invariant forall k :: 0 <= k < i ==> logs[k] !in jobs[j].txs
      {
        if logs[i] in jobs[j].txs {
          return LandedBy(logs[i]);
        }
      }
      var taken := Accounted(jobs[j].taker);
      var made := Accounted(jobs[j].maker);
      if onchain[jobs[j].taker] < taken + jobs[j].fill || onchain[jobs[j].maker] < made + jobs[j].fill {
        v := Gone;
        if RelaySafety.Inv(Snap()) && JobLanded(Snap(), jobs[j]) {
          RelaySafety.VerdictSound(Snap(), j);
        }
      } else {
        v := Maybe;
      }
    }

    /** In a pool or a block: sent, since now unless it already was. */
    method MarkSent(j: nat, now: int, ghost s0: State, ghost es0: seq<Event>) returns (ghost es: seq<Event>)
      requires Valid() && j < |jobs| && InFlight(jobs[j]) && Path(Lax(h), s0, es0, Snap())
      modifies this
      ensures Valid() && Path(Lax(h), s0, es, Snap())
      ensures Snap() == SetJob(old(Snap()), j, old(jobs[j]).(status := Sent, book := SentAtOr(old(jobs[j]).book, now)))
    {
      es := WriteRow(j, jobs[j].(status := Sent), SentAtOr(jobs[j].book, now), Accept(j), s0, es0);
    }

    /** A receipt without the fill: failed, and both orders get the fill back. */
    method FailOnReceipt(j: nat, tx: Tx, ghost s0: State, ghost es0: seq<Event>) returns (ghost es: seq<Event>)
      requires Valid() && j < |jobs| && InFlight(jobs[j]) && tx in jobs[j].txs
      requires IsMined(Snap(), tx) && !Landed(Snap(), tx) && Path(Lax(h), s0, es0, Snap())
      modifies this
      ensures Valid() && Path(Lax(h), s0, es, Snap()) && Snap() == Rollback(old(Snap()), j, Failed)
    {
      PathAppend(Lax(h), s0, es0, Snap(), FailReceipt(j, tx));
      var done := RollbackJob(j, jobs[j].status, Failed);
      es := es0 + [FailReceipt(j, tx)];
    }

    /** A receipt with the fill: sent, and confirmed once it is deep enough. */
    method ConfirmFill(j: nat, tx: Tx, depth: nat, now: int, ghost s0: State, ghost es0: seq<Event>)
      returns (ghost es: seq<Event>)
      requires Valid() && j < |jobs| && InFlight(jobs[j]) && tx in jobs[j].txs && Landed(Snap(), tx)
      requires Path(Lax(h), s0, es0, Snap())
      modifies this
      ensures Valid() && Path(Lax(h), s0, es, Snap()) && Snap() == old(Received(Snap(), j, tx, depth, cfg, now))
    {
      es := es0;
      if jobs[j].status == Sending {
        es := MarkSent(j, now, s0, es);
      }
      if cfg.confirmations > 1 && depth < cfg.confirmations {
        return;
      }
      es := WriteJob(j, jobs[j].(status := Confirmed, consumedAt := None), Confirm(j, tx), s0, es);
    }

    /** A visible receipt of one of our hashes: confirm a fill that is deep enough, fail and roll back anything else. */
    method ApplyReceipt(j: nat, tx: Tx, depth: nat, now: int, ghost s0: State, ghost es0: seq<Event>)
      returns (ghost es: seq<Event>)
      requires Valid() && j < |jobs| && InFlight(jobs[j]) && tx in jobs[j].txs && IsMined(Snap(), tx)
      requires Path(Lax(h), s0, es0, Snap())
      modifies this
      ensures Valid() && Path(Lax(h), s0, es, Snap())
      ensures |jobs| == |old(jobs)| && jobs[j].txs == old(jobs[j]).txs
      ensures jobs[j].nonce == old(jobs[j]).nonce && pool == old(pool)
      ensures jobs[j].status == old(ReceiptStatus(Snap(), tx, depth, cfg.confirmations))
      ensures Snap() == old(Received(Snap(), j, tx, depth, cfg, now))
    {
      if Landed(Snap(), tx) {
        es := ConfirmFill(j, tx, depth, now, s0, es0);
      } else {
        es := FailOnReceipt(j, tx, s0, es0);
      }
    }

    /** "nonce too low" for our own bytes: look for a receipt once more, else keep waiting in flight. */
    method NonceConsumedStep(
      j: nat, recheck: Option<set<Tx>>, depth: nat, now: int, ghost s0: State, ghost es0: seq<Event>)
      returns (ghost es: seq<Event>)
      requires Valid() && j < |jobs| && InFlight(jobs[j]) && Genuine(Snap(), recheck)
      requires Path(Lax(h), s0, es0, Snap())
      modifies this
      ensures Valid() && Path(Lax(h), s0, es, Snap())
      ensures |jobs| == |old(jobs)| && jobs[j].txs == old(jobs[j]).txs
      ensures jobs[j].nonce == old(jobs[j]).nonce && pool == old(pool)
      ensures jobs[j].status == Sent || jobs[j].status == Confirmed || jobs[j].status == Failed
      ensures Snap() == old(LowNonce(Snap(), j, recheck, depth, cfg, now))
    {
      es := es0;
      if recheck.Some? {
        var found := FindReceipt(jobs[j].txs, recheck.value);
        if found.Some? {
          es := ApplyReceipt(j, found.value, depth, now, s0, es);
          return;
        }
      }
      var at := OrNow(jobs[j].consumedAt, now);
      es := WriteRow(
        j, jobs[j].(status := Sent, consumedAt := Some(at)), SentAtOr(jobs[j].book, now), NonceLow(j, at), s0, es);
    }

    /** What _settle_consumed does with a verdict, the nonce being mined past ours. */
    method ResolveVerdict(j: nat, verdict: Verdict, pending: nat, now: int, ghost s0: State, ghost es0: seq<Event>)
      returns (ghost es: seq<Event>)
      requires Valid() && j < |jobs| && jobs[j].status == Sent
      requires jobs[j].consumedAt.Some? && NonceConsumed(Snap(), jobs[j])
      requires verdict.LandedBy? ==> verdict.tx in jobs[j].txs && Landed(Snap(), verdict.tx)
      requires verdict.Gone? ==> Absent(Snap(), j)
      requires h.currentReceipts ==> forall tx :: tx in jobs[j].txs ==> !IsMined(Snap(), tx)
      requires Path(Lax(h), s0, es0, Snap())
      modifies this, nm
      ensures Valid() && Path(Lax(h), s0, es, Snap()) && |jobs| == |old(jobs)| && jobs[j].txs == old(jobs[j]).txs
      ensures jobs[j].status == (match verdict case LandedBy(_) => Confirmed case Maybe => Sent case Gone => Pending)
      ensures Snap() == SetJob(old(Snap()), j, match verdict
        case LandedBy(_) => ConfirmedRow(old(jobs[j]))
        case Maybe => old(jobs[j]).(consumedAt := Some(now))
        case Gone => BackToPending(old(jobs[j])).(book := old(jobs[j]).book.(nextAt := now)))
      ensures nm.next == if verdict.Gone? then Some(pending) else old(nm.next)
    {
      es := es0;
      if verdict.LandedBy? {
        es := WriteJob(j, jobs[j].(status := Confirmed, consumedAt := None), Confirm(j, verdict.tx), s0, es);
      } else if verdict.Maybe? {
        es := WriteJob(j, jobs[j].(status := Sent, consumedAt := Some(now)), NonceLow(j, now), s0, es);
      } else {
        es := WriteRow(
          j, jobs[j].(status := Pending, nonce := None, raw := None, consumedAt := None),
          jobs[j].book.(nextAt := now), Settle(j), s0, es);
        nm.Resync(pending);
      }
    }

    /** After the lag window: back to pending only when the nonce is mined and nothing shows the fill landed. */
    method SettleConsumed(j: nat, v: ReconcileView, pending: nat, now: int, ghost s0: State, ghost es0: seq<Event>)
      returns (ghost es: seq<Event>)
      requires Valid() && j < |jobs| && jobs[j].status == Sent && jobs[j].consumedAt.Some?
      requires v.latest.Some? ==> v.latest.value <= |Line(Snap(), jobs[j].sender)|
      requires GenuineLogs(Snap(), v.logs)
      requires h.currentReceipts ==> forall tx :: tx in jobs[j].txs ==> !IsMined(Snap(), tx)
      requires Path(Lax(h), s0, es0, Snap())
      modifies this, nm
      ensures Valid() && Path(Lax(h), s0, es, Snap()) && |jobs| == |old(jobs)| && jobs[j].txs == old(jobs[j]).txs
      ensures jobs[j].status == Pending <==> old(Settleable(Snap(), j, v, cfg.resubmitAfter, now))
      ensures jobs[j].status == Pending || jobs[j].status == Sent || jobs[j].status == Confirmed
      ensures Snap() == old(Settled(Snap(), j, v, cfg, now))
      ensures nm.next == if old(Settleable(Snap(), j, v, cfg.resubmitAfter, now)) then Some(pending) else old(nm.next)
    {
      es := es0;
      if now < jobs[j].consumedAt.value + cfg.resubmitAfter || v.latest == None {
        return;
      }
      if jobs[j].nonce == None || v.latest.value <= jobs[j].nonce.value {
        es := WriteRow(
          j, jobs[j].(consumedAt := None), jobs[j].book.(sentAt := Some(now)), Reopen(j), s0, es);
        return;
      }
      if v.logs == None {
        return;
      }
      es := SettleByLogs(j, v.logs.value, pending, now, s0, es);
    }

    /** The nonce is mined past ours: logs and counters decide. */
    method SettleByLogs(j: nat, logs: seq<Tx>, pending: nat, now: int, ghost s0: State, ghost es0: seq<Event>)
      returns (ghost es: seq<Event>)
      requires Valid() && j < |jobs| && jobs[j].status == Sent && jobs[j].consumedAt.Some?
      requires NonceConsumed(Snap(), jobs[j]) && GenuineLogs(Snap(), Some(logs))
      requires h.currentReceipts ==> forall tx :: tx in jobs[j].txs ==> !IsMined(Snap(), tx)
      requires Path(Lax(h), s0, es0, Snap())
      modifies this, nm
      ensures Valid() && Path(Lax(h), s0, es, Snap())
      ensures var own, gone := old(OwnLog(jobs[j], logs)), old(!OwnLog(jobs[j], logs) && Absent(Snap(), j));
        && nm.next == (if gone then Some(pending) else old(nm.next))
        && Snap() == SetJob(old(Snap()), j,
             if own then ConfirmedRow(old(jobs[j]))
             else if gone then BackToPending(old(jobs[j])).(book := old(jobs[j]).book.(nextAt := now))
             else old(jobs[j]).(consumedAt := Some(now)))
    {
      var verdict := FillVerdict(j, logs);
      es := ResolveVerdict(j, verdict, pending, now, s0, es0);
    }

    /** `sending`: the write-ahead bytes may or may not be in a pool; rebroadcast exactly those bytes. */
    method Rebroadcast(j: nat, v: ReconcileView, pending: nat, now: int, ghost s0: State, ghost es0: seq<Event>)
      returns (ghost es: seq<Event>)
      requires Valid() && j < |jobs| && jobs[j].status == Sending && Genuine(Snap(), v.recheck)
      requires Path(Lax(h), s0, es0, Snap())
      modifies this, nm
      ensures Valid() && Path(Lax(h), s0, es, Snap()) && |jobs| == |old(jobs)|
      ensures jobs[j].txs == old(jobs[j]).txs && jobs[j].nonce == old(jobs[j]).nonce
      ensures jobs[j].status != Pending
      ensures now >= old(jobs[j]).book.nextAt ==> old(jobs[j]).raw.value in pool
      ensures now >= old(jobs[j]).book.nextAt && (v.reply == Taken || v.reply == AlreadyKnown || v.reply == Underpriced)
        ==> jobs[j].status == Sent
      ensures Snap() == old(Resent(Snap(), j, v, cfg, now))
      ensures nm.next == if now >= old(jobs[j]).book.nextAt && v.reply == TooLow then Some(pending) else old(nm.next)
    {
      es := es0;
      if now < jobs[j].book.nextAt {
        return;
      }
      es := SendRaw(j, s0, es);
      es := Resubmitted(j, v, pending, now, s0, es);
    }

    /** In a pool after all. */
    method AcceptAgain(j: nat, now: int, ghost s0: State, ghost es0: seq<Event>) returns (ghost es: seq<Event>)
      requires Valid() && j < |jobs| && jobs[j].status == Sending && Path(Lax(h), s0, es0, Snap())
      modifies this
      ensures Valid() && Path(Lax(h), s0, es, Snap())
      ensures var book := SentAtOr(old(jobs[j]).book, now).(nextAt := 0);
        Snap() == SetJob(old(Snap()), j, old(jobs[j]).(status := Sent, book := book))
    {
      es := WriteRow(j, jobs[j].(status := Sent), SentAtOr(jobs[j].book, now).(nextAt := 0), Accept(j), s0, es0);
    }

    /** What the node said to bytes that went out again. */
    method Resubmitted(j: nat, v: ReconcileView, pending: nat, now: int, ghost s0: State, ghost es0: seq<Event>)
      returns (ghost es: seq<Event>)
      requires Valid() && j < |jobs| && jobs[j].status == Sending && Genuine(Snap(), v.recheck)
      requires Path(Lax(h), s0, es0, Snap())
      modifies this, nm
      ensures Valid() && Path(Lax(h), s0, es, Snap()) && |jobs| == |old(jobs)| && pool == old(pool)
      ensures jobs[j].txs == old(jobs[j]).txs && jobs[j].nonce == old(jobs[j]).nonce && jobs[j].status != Pending
      ensures Snap() == old(ResentAnswer(Snap(), j, v, cfg, now))
      ensures nm.next == if v.reply == TooLow then Some(pending) else old(nm.next)
    {
      es := es0;
      var book := jobs[j].book;
      if v.reply == Taken || v.reply == AlreadyKnown || v.reply == Underpriced {
        es := AcceptAgain(j, now, s0, es);
      } else if v.reply == TooLow {
        es := NonceConsumedStep(j, v.recheck, v.depth, now, s0, es);
        nm.Resync(pending);
      } else if v.reply == NoFunds {
        es := SetBook(j, book.(nextAt := now + cfg.backoff), s0, es);
      } else {
        es := InDoubt(j, now, s0, es);
      }
    }

    /** The node's answer says nothing about the bytes: another attempt, and after the last one they count as sent. */
    method InDoubt(j: nat, now: int, ghost s0: State, ghost es0: seq<Event>) returns (ghost es: seq<Event>)
      requires Valid() && j < |jobs| && jobs[j].status == Sending && Path(Lax(h), s0, es0, Snap())
      modifies this
      ensures Valid() && Path(Lax(h), s0, es, Snap()) && |jobs| == |old(jobs)| && pool == old(pool)
      ensures jobs[j].txs == old(jobs[j]).txs && jobs[j].nonce == old(jobs[j]).nonce
      ensures jobs[j].status == if old(jobs[j]).book.attempts + 1 >= cfg.maxAttempts then Sent else Sending
      ensures var n := old(jobs[j]).book.attempts + 1;
        var book := old(jobs[j]).book.(attempts := n, nextAt := now + cfg.backoff * n);
        Snap() == SetJob(old(Snap()), j,
          if n >= cfg.maxAttempts then old(jobs[j]).(status := Sent, book := SentAtOr(book, now))
          else old(jobs[j]).(book := book))
    {
      var attempts := jobs[j].book.attempts + 1;
      var retry := jobs[j].book.(attempts := attempts, nextAt := now + cfg.backoff * attempts);
      if attempts >= cfg.maxAttempts {
        es := WriteRow(j, jobs[j].(status := Sent), SentAtOr(retry, now), Accept(j), s0, es0);
      } else {
        es := SetBook(j, retry, s0, es0);
      }
    }

    /** Anything the API, other makers and the chain may do while this step awaits. */
    method Others(ghost s0: State, ghost es0: seq<Event>) returns (ghost es: seq<Event>)
      requires Valid() && Path(Lax(h), s0, es0, Snap())
      modifies this
      ensures Valid() && Path(Lax(h), s0, es, Snap()) && Undisturbed(old(Snap()), Snap())
      ensures quiet ==> Snap() == old(Snap())
    {
      es := es0;
    }

    /** The replacement's write-ahead commit. */
    method RecordBump(j: nat, fee: Fees, now: int, ghost s0: State, ghost es0: seq<Event>)
      returns (ghost es: seq<Event>)
      requires Valid() && j < |jobs| && jobs[j].status == Sent && Path(Lax(h), s0, es0, Snap())
      modifies this
      ensures Valid() && Path(Lax(h), s0, es, Snap()) && |jobs| == |old(jobs)|
      ensures jobs[j].status == Sent && Replaced(old(jobs[j]), jobs[j], account, fee)
      ensures account == old(account) && lines == old(lines)
      ensures Snap() == SetJob(old(Snap()), j, BumpedRow(old(jobs[j]), account, fee, now))
    {
      var tx := Tx(account, jobs[j].nonce.value, jobs[j].taker, jobs[j].maker, jobs[j].fill, fee);
      var book := jobs[j].book.(attempts := jobs[j].book.attempts + 1, sentAt := Some(now), fees := fee);
      es := WriteRow(j, jobs[j].(raw := Some(tx), txs := jobs[j].txs + [tx]), book, Bump(j, fee), s0, es0);
    }

    /** Broadcast of a recorded replacement, others running in between. */
    method BroadcastBump(j: nat, v: ReconcileView, pending: nat, now: int, ghost s0: State, ghost es0: seq<Event>)
      returns (ghost mid: State, ghost es: seq<Event>)
      requires Valid() && j < |jobs| && jobs[j].status == Sent && Genuine(Snap(), v.recheck)
      requires Path(Lax(h), s0, es0, Snap())
      modifies this, nm
      ensures Valid() && Path(Lax(h), s0, es, Snap())
      ensures |old(jobs)| <= |jobs| && jobs[j].nonce == old(jobs[j]).nonce && jobs[j].txs == old(jobs[j]).txs
      ensures jobs[j].status != Pending
      ensures Undisturbed(old(Snap()), mid) && Rows(mid) && Snap() == BumpSent(mid, j, v, cfg, now)
      ensures nm.next == if v.reply == TooLow then Some(pending) else old(nm.next)
    {
      es := Others(s0, es0);
      mid := Snap();
      es := SendRaw(j, s0, es);
      es := AfterResend(j, v, pending, now, s0, es);
    }

    /** Sign a replacement on the same nonce, record it, then broadcast it. */
    method BumpFee(j: nat, v: ReconcileView, pending: nat, now: int, ghost s0: State, ghost es0: seq<Event>)
      returns (ghost mid: State, ghost es: seq<Event>)
      requires Valid() && j < |jobs| && jobs[j].status == Sent && Genuine(Snap(), v.recheck)
      requires Path(Lax(h), s0, es0, Snap())
      modifies this, nm
      ensures Valid() && Path(Lax(h), s0, es, Snap())
      ensures |old(jobs)| <= |jobs| && jobs[j].nonce == old(jobs[j]).nonce && jobs[j].status != Pending
      ensures if jobs[j].txs == old(jobs[j]).txs
              then !v.rebuildable || v.base == None
                   || Gas.BumpFees(Gas.Reload(old(jobs[j]).book.fees), cfg.fees, v.base.value) == None
              else v.rebuildable && v.base.Some?
                   && Gas.BumpFees(Gas.Reload(old(jobs[j]).book.fees), cfg.fees, v.base.value).Some?
                   && Replaced(old(jobs[j]), jobs[j], old(account),
                        Gas.Store(Gas.BumpFees(Gas.Reload(old(jobs[j]).book.fees), cfg.fees, v.base.value).value))
      ensures if jobs[j].txs == old(jobs[j]).txs then mid == Snap() == old(Snap()) && nm.next == old(nm.next)
              else Undisturbed(SetJob(old(Snap()), j,
                                 BumpedRow(old(jobs[j]), old(account), BumpFeeOf(old(jobs[j]), v, cfg), now)), mid)
                   && Rows(mid) && Snap() == BumpSent(mid, j, v, cfg, now)
                   && nm.next == if v.reply == TooLow then Some(pending) else old(nm.next)
    {
      es, mid := es0, Snap();
      if !v.rebuildable || jobs[j].nonce == None || v.base == None {
        return;
      }
      var q := Gas.BumpFees(Gas.Reload(jobs[j].book.fees), cfg.fees, v.base.value);
      if q == None {
        return;
      }
      es := RecordBump(j, Gas.Store(q.value), now, s0, es);
      mid, es := BroadcastBump(j, v, pending, now, s0, es);
    }

    /** No more bumps: keep the signed bytes alive in case a node dropped them, never terminal. */
    method KeepAlive(j: nat, v: ReconcileView, pending: nat, now: int, ghost s0: State, ghost es0: seq<Event>)
      returns (ghost es: seq<Event>)
      requires Valid() && j < |jobs| && jobs[j].status == Sent && Genuine(Snap(), v.recheck)
      requires Path(Lax(h), s0, es0, Snap())
      modifies this, nm
      ensures Valid() && Path(Lax(h), s0, es, Snap()) && |jobs| == |old(jobs)|
      ensures jobs[j].txs == old(jobs[j]).txs && jobs[j].status != Pending
      ensures KeepAliveDue(old(jobs[j]).book, cfg, now) ==> old(jobs[j]).raw.value in pool
      ensures Snap() == old(KeptAlive(Snap(), j, v, cfg, now))
      ensures nm.next ==
        if KeepAliveDue(old(jobs[j]).book, cfg, now) && v.reply == TooLow then Some(pending) else old(nm.next)
    {
      es := es0;
      if now - TimeOf(jobs[j].book.sentAt) >= cfg.resubmitAfter && now >= jobs[j].book.nextAt {
        es := ResendBytes(j, now, s0, es);
        es := AfterResend(j, v, pending, now, s0, es);
      }
    }

    /** The stored bytes go out, and not again before the window has passed. */
    method ResendBytes(j: nat, now: int, ghost s0: State, ghost es0: seq<Event>) returns (ghost es: seq<Event>)
      requires Valid() && j < |jobs| && jobs[j].status == Sent && Path(Lax(h), s0, es0, Snap())
      modifies this
      ensures Valid() && Path(Lax(h), s0, es, Snap())
      ensures Snap() == SetJob(old(Snap()).(pool := old(pool) + {old(jobs[j]).raw.value}), j,
                          DeferredRow(old(jobs[j]), now + cfg.resubmitAfter))
    {
      es := SendRaw(j, s0, es0);
      es := SetBook(j, jobs[j].book.(nextAt := now + cfg.resubmitAfter), s0, es);
    }

    /** A sent job's bytes went out again: only "nonce too low" says anything. */
    method AfterResend(j: nat, v: ReconcileView, pending: nat, now: int, ghost s0: State, ghost es0: seq<Event>)
      returns (ghost es: seq<Event>)
      requires Valid() && j < |jobs| && jobs[j].status == Sent && Genuine(Snap(), v.recheck)
      requires Path(Lax(h), s0, es0, Snap())
      modifies this, nm
      ensures Valid() && Path(Lax(h), s0, es, Snap()) && |jobs| == |old(jobs)| && pool == old(pool)
      ensures jobs[j].txs == old(jobs[j]).txs && jobs[j].nonce == old(jobs[j]).nonce && jobs[j].status != Pending
      ensures Snap() ==
        if v.reply == TooLow then old(LowNonce(Snap(), j, v.recheck, v.depth, cfg, now)) else old(Snap())
      ensures nm.next == if v.reply == TooLow then Some(pending) else old(nm.next)
    {
      es := es0;
      if v.reply == TooLow {
        es := NonceConsumedStep(j, v.recheck, v.depth, now, s0, es);
        nm.Resync(pending);
      }
    }

    /**
     _reconcile: one in-flight job against one snapshot of the chain. Whatever the node answers, the job leaves
     flight only on one of its receipts or logs, or goes back to pending when its nonce is mined and its fill absent.
     */
    method Reconcile(j: nat, v: ReconcileView, pending: nat, now: int) returns (ghost mid: State, ghost es: seq<Event>)
      requires Valid() && j < |jobs| && InFlight(jobs[j])
      requires Genuine(Snap(), v.receipts) && Genuine(Snap(), v.recheck) && GenuineLogs(Snap(), v.logs)
      requires v.latest.Some? ==> v.latest.value <= |Line(Snap(), jobs[j].sender)|
      requires h.currentReceipts ==> Complete(Snap(), jobs[j], v.receipts)
      modifies this, nm
      ensures Valid() && Path(Lax(h), old(Snap()), es, Snap()) && j < |jobs|
      ensures v.receipts == None ==> Snap() == old(Snap())
      ensures forall tx :: v.receipts.Some? && FirstIn(old(jobs[j]).txs, v.receipts.value, tx) ==>
        jobs[j].status == old(ReceiptStatus(Snap(), tx, v.depth, cfg.confirmations))
      ensures jobs[j].status == Pending <==>
        v.receipts.Some? && !Shown(old(jobs[j]), v.receipts) && old(Settleable(Snap(), j, v, cfg.resubmitAfter, now))
      ensures jobs[j].txs != old(jobs[j]).txs <==>
        v.receipts.Some? && !Shown(old(jobs[j]), v.receipts) && Replaceable(old(jobs[j]), v, cfg, now)
      ensures jobs[j].txs != old(jobs[j]).txs ==> Replaced(old(jobs[j]), jobs[j], old(account),
        Gas.Store(Gas.BumpFees(Gas.Reload(old(jobs[j]).book.fees), cfg.fees, v.base.value).value))
      ensures v.receipts.Some? && !Shown(old(jobs[j]), v.receipts) && Unconfirmed(old(jobs[j]), now) ==>
        old(jobs[j]).raw.value in pool
      ensures v.receipts.Some? && !Shown(old(jobs[j]), v.receipts) && Stuck(old(jobs[j]), cfg, now) ==>
        old(jobs[j]).raw.value in pool
      ensures if Bumps(old(jobs[j]), v, cfg, now)
              then Undisturbed(SetJob(old(Snap()), j,
                                 BumpedRow(old(jobs[j]), old(account), BumpFeeOf(old(jobs[j]), v, cfg), now)), mid)
                   && Rows(mid) && Snap() == BumpSent(mid, j, v, cfg, now)
              else Snap() == old(Reconciled(Snap(), j, v, cfg, now))
      ensures nm.next == if old(Resyncs(Snap(), j, v, cfg, now)) then Some(pending) else old(nm.next)
      ensures jobs[j].txs != old(jobs[j]).txs ==>
        && jobs[j].book.attempts == old(jobs[j]).book.attempts + 1 && jobs[j].book.sentAt == Some(now)
        && jobs[j].book.fees == jobs[j].txs[|jobs[j].txs| - 1].fee
      ensures InFlight(jobs[j]) ==> Tick(old(jobs[j]), jobs[j], cfg)
      ensures old(AllStored(Snap(), cfg.fees.cap)) ==> AllStored(Snap(), cfg.fees.cap)
    {
      ghost var s0 := Snap();
      mid, es := ReconcileRow(j, v, pending, now);
      ReconcileKeeps(s0, mid, Snap(), j, v, cfg, now);
    }

    /** The same, before what it keeps is read off its new state. */
    method ReconcileRow(j: nat, v: ReconcileView, pending: nat, now: int)
      returns (ghost mid: State, ghost es: seq<Event>)
      requires Valid() && j < |jobs| && InFlight(jobs[j])
      requires Genuine(Snap(), v.receipts) && Genuine(Snap(), v.recheck) && GenuineLogs(Snap(), v.logs)
      requires v.latest.Some? ==> v.latest.value <= |Line(Snap(), jobs[j].sender)|
      requires h.currentReceipts ==> Complete(Snap(), jobs[j], v.receipts)
      modifies this, nm
      ensures Valid() && Path(Lax(h), old(Snap()), es, Snap()) && j < |jobs|
      ensures v.receipts == None ==> Snap() == old(Snap())
      ensures forall tx :: v.receipts.Some? && FirstIn(old(jobs[j]).txs, v.receipts.value, tx) ==>
        jobs[j].status == old(ReceiptStatus(Snap(), tx, v.depth, cfg.confirmations))
      ensures jobs[j].status == Pending <==>
        v.receipts.Some? && !Shown(old(jobs[j]), v.receipts) && old(Settleable(Snap(), j, v, cfg.resubmitAfter, now))
      ensures jobs[j].txs != old(jobs[j]).txs <==>
        v.receipts.Some? && !Shown(old(jobs[j]), v.receipts) && Replaceable(old(jobs[j]), v, cfg, now)
      ensures jobs[j].txs != old(jobs[j]).txs ==> Replaced(old(jobs[j]), jobs[j], old(account),
        Gas.Store(Gas.BumpFees(Gas.Reload(old(jobs[j]).book.fees), cfg.fees, v.base.value).value))
      ensures v.receipts.Some? && !Shown(old(jobs[j]), v.receipts) && Unconfirmed(old(jobs[j]), now) ==>
        old(jobs[j]).raw.value in pool
      ensures v.receipts.Some? && !Shown(old(jobs[j]), v.receipts) && Stuck(old(jobs[j]), cfg, now) ==>
        old(jobs[j]).raw.value in pool
      ensures if Bumps(old(jobs[j]), v, cfg, now)
              then Undisturbed(SetJob(old(Snap()), j,
                                 BumpedRow(old(jobs[j]), old(account), BumpFeeOf(old(jobs[j]), v, cfg), now)), mid)
                   && Rows(mid) && Snap() == BumpSent(mid, j, v, cfg, now)
              else Snap() == old(Reconciled(Snap(), j, v, cfg, now))
      ensures nm.next == if old(Resyncs(Snap(), j, v, cfg, now)) then Some(pending) else old(nm.next)
    {
      ghost var s0 := Snap();
      es, mid := [], s0;
      FirstReceiptIs(jobs[j].txs, v.receipts);
      if v.receipts == None {
        return;
      }
      var found := FindReceipt(jobs[j].txs, v.receipts.value);
      if found.Some? {
        es := ApplyReceipt(j, found.value, v.depth, now, s0, es);
      } else {
        mid, es := Await(j, v, pending, now, s0, es);
      }
    }

    /** An in-flight job without a visible receipt. */
    method Await(j: nat, v: ReconcileView, pending: nat, now: int, ghost s0: State, ghost es0: seq<Event>)
      returns (ghost mid: State, ghost es: seq<Event>)
      requires Valid() && j < |jobs| && InFlight(jobs[j]) && v.receipts.Some? && !Shown(jobs[j], v.receipts)
      requires Genuine(Snap(), v.recheck) && GenuineLogs(Snap(), v.logs)
      requires v.latest.Some? ==> v.latest.value <= |Line(Snap(), jobs[j].sender)|
      requires h.currentReceipts ==> Complete(Snap(), jobs[j], v.receipts)
      requires Path(Lax(h), s0, es0, Snap())
      modifies this, nm
      ensures Valid() && Path(Lax(h), s0, es, Snap()) && j < |jobs|
      ensures jobs[j].status == Pending <==> old(Settleable(Snap(), j, v, cfg.resubmitAfter, now))
      ensures jobs[j].txs != old(jobs[j]).txs <==> Replaceable(old(jobs[j]), v, cfg, now)
      ensures jobs[j].txs != old(jobs[j]).txs ==>
        Replaced(old(jobs[j]), jobs[j], old(account), BumpFeeOf(old(jobs[j]), v, cfg))
      ensures Unconfirmed(old(jobs[j]), now) || Stuck(old(jobs[j]), cfg, now) ==> old(jobs[j]).raw.value in pool
      ensures if Bumps(old(jobs[j]), v, cfg, now)
              then Undisturbed(SetJob(old(Snap()), j,
                                 BumpedRow(old(jobs[j]), old(account), BumpFeeOf(old(jobs[j]), v, cfg), now)), mid)
                   && Rows(mid) && Snap() == BumpSent(mid, j, v, cfg, now)
              else Snap() == old(Waited(Snap(), j, v, cfg, now))
      ensures nm.next == if old(Resyncs(Snap(), j, v, cfg, now)) then Some(pending) else old(nm.next)
    {
      es, mid := es0, Snap();
      if jobs[j].status == Sending {
        es := Rebroadcast(j, v, pending, now, s0, es);
      } else if jobs[j].consumedAt.Some? {
        es := SettleConsumed(j, v, pending, now, s0, es);
      } else {
        mid, es := AwaitSent(j, v, pending, now, s0, es);
      }
    }

    /** Sent, and nobody said that its nonce is consumed: kept alive once out of attempts, else replaced when due. */
    method AwaitSent(j: nat, v: ReconcileView, pending: nat, now: int, ghost s0: State, ghost es0: seq<Event>)
      returns (ghost mid: State, ghost es: seq<Event>)
      requires Valid() && j < |jobs| && InFlight(jobs[j]) && v.receipts.Some? && !Shown(jobs[j], v.receipts)
      requires Genuine(Snap(), v.recheck) && GenuineLogs(Snap(), v.logs)
      requires v.latest.Some? ==> v.latest.value <= |Line(Snap(), jobs[j].sender)|
      requires h.currentReceipts ==> Complete(Snap(), jobs[j], v.receipts)
      requires Path(Lax(h), s0, es0, Snap())
      requires jobs[j].status == Sent && jobs[j].consumedAt == None
      modifies this, nm
      ensures Valid() && Path(Lax(h), s0, es, Snap()) && j < |jobs|
      ensures jobs[j].status == Pending <==> old(Settleable(Snap(), j, v, cfg.resubmitAfter, now))
      ensures jobs[j].txs != old(jobs[j]).txs <==> Replaceable(old(jobs[j]), v, cfg, now)
      ensures jobs[j].txs != old(jobs[j]).txs ==>
        Replaced(old(jobs[j]), jobs[j], old(account), BumpFeeOf(old(jobs[j]), v, cfg))
      ensures Unconfirmed(old(jobs[j]), now) || Stuck(old(jobs[j]), cfg, now) ==> old(jobs[j]).raw.value in pool
      ensures if Bumps(old(jobs[j]), v, cfg, now)
              then Undisturbed(SetJob(old(Snap()), j,
                                 BumpedRow(old(jobs[j]), old(account), BumpFeeOf(old(jobs[j]), v, cfg), now)), mid)
                   && Rows(mid) && Snap() == BumpSent(mid, j, v, cfg, now)
              else Snap() == old(Waited(Snap(), j, v, cfg, now))
      ensures nm.next == if old(Resyncs(Snap(), j, v, cfg, now)) then Some(pending) else old(nm.next)
    {
      es, mid := es0, Snap();
      if jobs[j].book.attempts >= cfg.maxAttempts {
        es := KeepAlive(j, v, pending, now, s0, es);
      } else if now - TimeOf(jobs[j].book.sentAt) >= cfg.resubmitAfter {
        mid, es := BumpFee(j, v, pending, now, s0, es);
      }
    }

    /** _retry_or_fail: an RPC failure ahead of the claim costs an attempt, and the last attempt fails the job. */
    method RetryOrFail(j: nat, now: int, ghost s0: State, ghost es0: seq<Event>) returns (ghost es: seq<Event>)
      requires Valid() && j < |jobs| && Unclaimed(jobs[j]) && Path(Lax(h), s0, es0, Snap())
      modifies this
      ensures Valid() && Path(Lax(h), s0, es, Snap()) && |jobs| == |old(jobs)| && jobs[j].txs == old(jobs[j]).txs
      ensures prepared == old(prepared)
      ensures jobs[j].status == if old(jobs[j]).book.attempts + 1 >= cfg.maxAttempts && old(jobs[j]).status == Pending
                                then Failed else old(jobs[j]).status
      ensures Snap() == old(Retried(Snap(), j, cfg, now))
    {
      var attempts := jobs[j].book.attempts + 1;
      es := SetBook(j, jobs[j].book.(attempts := attempts), s0, es0);
      if attempts >= cfg.maxAttempts {
        es := DropJob(j, Failed, s0, es);
      } else {
        es := Defer(j, now + cfg.backoff * attempts, s0, es);
      }
    }

    /** Only the time of the next attempt moves. */
    method Defer(j: nat, at: int, ghost s0: State, ghost es0: seq<Event>) returns (ghost es: seq<Event>)
      requires Valid() && j < |jobs| && Path(Lax(h), s0, es0, Snap())
      modifies this
      ensures Valid() && Path(Lax(h), s0, es, Snap()) && prepared == old(prepared)
      ensures Snap() == SetJob(old(Snap()), j, DeferredRow(old(jobs[j]), at))
    {
      es := SetBook(j, jobs[j].book.(nextAt := at), s0, es0);
    }

    /** A job that signed before: check the chain for its fill first. */
    method RecheckFill(j: nat, v: SendView, now: int, ghost s0: State, ghost es0: seq<Event>)
      returns (go: bool, ghost es: seq<Event>)
      requires Valid() && j < |jobs| && jobs[j].status == Pending && GenuineLogs(Snap(), v.logs)
      requires Path(Lax(h), s0, es0, Snap())
      modifies this
      ensures Valid() && Path(Lax(h), s0, es, Snap()) && |jobs| == |old(jobs)| && jobs[j].txs == old(jobs[j]).txs
      ensures go ==> Snap() == old(Snap())
      ensures go <==> Unlanded(old(Snap()), j, v)
      ensures !go ==>
        jobs[j].status == if v.logs.Some? && OwnLog(old(jobs[j]), v.logs.value) then Confirmed else Pending
      ensures Snap() == old(Rechecked(Snap(), j, v, cfg, now))
    {
      go, es := true, es0;
      if jobs[j].txs != [] {
        if v.logs == None {
          es := Defer(j, now + cfg.backoff, s0, es);
          return false, es;
        }
        var verdict := FillVerdict(j, v.logs.value);
        if verdict.LandedBy? {
          es := WriteJob(j, jobs[j].(status := Confirmed, consumedAt := None), Confirm(j, verdict.tx), s0, es);
          return false, es;
        }
        if verdict.Maybe? {
          es := Defer(j, now + cfg.resubmitAfter, s0, es);
          return false, es;
        }
      }
    }

    /** Order flags, the trading halt and preflight. */
    method CheckMatch(j: nat, v: SendView, now: int, ghost s0: State, ghost es0: seq<Event>)
      returns (go: bool, ghost es: seq<Event>)
      requires Valid() && j < |jobs| && jobs[j].status == Pending && Path(Lax(h), s0, es0, Snap())
      modifies this
      ensures Valid() && Path(Lax(h), s0, es, Snap()) && |jobs| == |old(jobs)| && jobs[j].txs == old(jobs[j]).txs
      ensures go ==> Snap() == old(Snap())
      ensures var job := old(jobs[j]);
        jobs[j].status == if old(orders[job.taker].cancelled || orders[job.maker].cancelled) then Cancelled
                          else if v.halted then Failed
                          else if !v.preflightUp
                          then (if job.book.attempts + 1 >= cfg.maxAttempts then Failed else Pending)
                          else if !Fine(v.facts) || !old(Executable(Snap(), job.taker, job.maker, job.fill)) then Failed
                          else Pending
      ensures go <==> Passes(old(Snap()), j, v)
      ensures Snap() == old(Checked(Snap(), j, v, cfg, now))
    {
      go, es := false, es0;
      if orders[jobs[j].taker].cancelled || orders[jobs[j].maker].cancelled {
        es := DropJob(j, Cancelled, s0, es);
      } else if v.halted {
        es := DropJob(j, Failed, s0, es);
      } else if !v.preflightUp {
        es := RetryOrFail(j, now, s0, es);
      } else {
        go, es := CheckFunds(j, v, now, s0, es);
      }
    }

    /** Preflight on top of everything in flight: a hard reason fails the job, a busy one defers it. */
    method CheckFunds(j: nat, v: SendView, now: int, ghost s0: State, ghost es0: seq<Event>)
      returns (go: bool, ghost es: seq<Event>)
      requires Valid() && j < |jobs| && jobs[j].status == Pending && Path(Lax(h), s0, es0, Snap())
      modifies this
      ensures Valid() && Path(Lax(h), s0, es, Snap())
      ensures go <==> Fine(v.facts) && Affordable(old(Snap()), j)
      ensures Snap() == if !Fine(v.facts) || !old(Executable(Snap(), jobs[j].taker, jobs[j].maker, jobs[j].fill))
                        then Rollback(old(Snap()), j, Failed)
                        else if go then old(Snap())
                        else SetJob(old(Snap()), j,
                                    DeferredRow(old(jobs[j]), now + if cfg.poll > 1 then cfg.poll else 1))
    {
      go, es := false, es0;
      var c := CommittedOf(Snap(), j);
      var reasons := PreflightMatch(Snap(), j, c, v.facts);
      if AnyHard(reasons) {
        es := DropJob(j, Failed, s0, es);
      } else if reasons != [] {
        es := Defer(j, now + if cfg.poll > 1 then cfg.poll else 1, s0, es);
      } else {
        go := true;
      }
    }

    /** Gas estimate, fees and the relayer's own balance; somebody may have cancelled the job since its checks. */
    method PriceSend(j: nat, v: SendView, now: int, ghost s0: State, ghost es0: seq<Event>)
      returns (q: Option<Gas.FeeQuote>, ghost es: seq<Event>)
      requires Valid() && j < |jobs| && Unclaimed(jobs[j]) && Path(Lax(h), s0, es0, Snap())
      modifies this
      ensures Valid() && Path(Lax(h), s0, es, Snap()) && |jobs| == |old(jobs)| && jobs[j].txs == old(jobs[j]).txs
      ensures q.Some? ==> Snap() == old(Snap()) && Gas.WellPriced(q.value, cfg.fees.cap)
      ensures q.Some? <==> Payable(v, cfg)
      ensures q.Some? ==> q == Gas.QuoteFees(v.base, v.tip, v.gasPrice, cfg.fees)
      ensures q == None ==> Unclaimed(jobs[j]) || jobs[j].status == Failed
      ensures q == None ==> Snap() == old(Unpriced(Snap(), j, v, cfg, now))
    {
      q, es := None, es0;
      if v.estimate.Reverts? {
        es := DropJob(j, Failed, s0, es);
        return;
      }
      if v.estimate.Unavailable? {
        es := RetryOrFail(j, now, s0, es);
        return;
      }
      var gas := Gas.GasLimit(v.estimate.units, cfg.fees);
      if gas == None {
        es := DropJob(j, Failed, s0, es);
        return;
      }
      if v.base == None && v.gasPrice == None {
        es := RetryOrFail(j, now, s0, es);
        return;
      }
      var quote := Gas.QuoteFees(v.base, v.tip, v.gasPrice, cfg.fees);
      if quote == None {
        es := Defer(j, now + cfg.backoff, s0, es);
      } else if v.balance == None {
        es := RetryOrFail(j, now, s0, es);
      } else if v.balance.value < gas.value * quote.value.maxFee {
        es := Defer(j, now + cfg.backoff, s0, es);
      } else {
        Gas.QuoteWellPriced(v.base, v.tip, v.gasPrice, cfg.fees);
        q := quote;
      }
    }

    /** The highest in-flight nonce of both tables, plus one; `dists` is what the query on the distributions returns. */
    method NonceFloor(dists: seq<nat>) returns (f: Option<nat>)
      ensures Nonce.IsFloor(JobNonces(jobs, account) + Nonce.Elements(dists), f)
    {
      var own: seq<nat> := [];
      for i := 0 to |jobs|
        invariant Nonce.Elements(own) == JobNonces(jobs[..i], account)
      {
        assert jobs[..i + 1] == jobs[..i] + [jobs[i]];
        OneMoreNonce(jobs[..i], jobs[i], account);
        if HoldsNonce(jobs[i], account) {
          assert Nonce.Elements(own + [jobs[i].nonce.value]) == Nonce.Elements(own) + {jobs[i].nonce.value};
          own := own + [jobs[i].nonce.value];
        }
      }
      assert jobs[..|jobs|] == jobs;
      assert Nonce.Elements(own + dists) == Nonce.Elements(own) + Nonce.Elements(dists);
      f := Nonce.Floor(own + dists);
    }

    /**
     Conditional claim, nonce and write-ahead commit. Nothing is written when someone moved the job meanwhile, nor when
     signing raises: the claim is rolled back with the transaction, and the nonce handed back.
     */
    method ClaimAndSign(
      j: nat, v: SendView, floor: Option<nat>, q: Gas.FeeQuote, ghost s0: State, ghost es0: seq<Event>)
      returns (signed: bool, ghost es: seq<Event>)
      requires Valid() && j < |jobs| && prepared == Some(j) && Path(Lax(h), s0, es0, Snap())
      modifies this, nm
      ensures Valid() && Path(Lax(h), s0, es, Snap()) && |jobs| == |old(jobs)| && prepared == None
      ensures signed == (old(jobs[j]).status == Pending && v.signs)
      ensures lines == old(lines) && pool == old(pool) && account == old(account)
      ensures var n := Nonce.Reserved(old(nm.next), floor, v.pending);
        nm.next == if old(jobs[j]).status != Pending then old(nm.next) else if v.signs then Some(n + 1) else Some(n)
      ensures var n := Nonce.Reserved(old(nm.next), floor, v.pending);
        var tx := MatchTx(old(jobs[j]), account, n, Gas.Store(q));
        var s := if signed then SetJob(old(Snap()), j, SignedRow(old(jobs[j]), tx)) else old(Snap());
        Snap() == s.(prepared := None)
    {
      signed := jobs[j].status == Pending && v.signs;
      if jobs[j].status == Pending {
        var nonce := nm.Reserve(floor, v.pending);
        if v.signs {
          es := SignClaimed(j, nonce, Gas.Store(q), s0, es0);
          es := SetBook(j, jobs[j].book.(nextAt := 0, fees := Gas.Store(q)), s0, es);
          return;
        }
        nm.Release(nonce);
      }
      es := Abandon(s0, es0);
    }

    /** The step ends, or raises, without a claim. */
    method Abandon(ghost s0: State, ghost es0: seq<Event>) returns (ghost es: seq<Event>)
      requires Valid() && Path(Lax(h), s0, es0, Snap())
      modifies this
      ensures Valid() && Path(Lax(h), s0, es, Snap()) && Snap() == old(Snap()).(prepared := None)
    {
      PathAppend(Lax(h), s0, es0, Snap(), Crash);
      prepared := None;
      es := es0 + [Crash];
    }

    /** The signature and its write-ahead commit. */
    method SignClaimed(j: nat, nonce: nat, fee: Fees, ghost s0: State, ghost es0: seq<Event>)
      returns (ghost es: seq<Event>)
      requires Valid() && j < |jobs| && prepared == Some(j)
      requires jobs[j].status == Pending && Path(Lax(h), s0, es0, Snap())
      modifies this
      ensures Valid() && Path(Lax(h), s0, es, Snap())
      ensures var tx := MatchTx(old(jobs[j]), account, nonce, fee);
        Snap() == SetJob(old(Snap()), j, Signed(old(jobs[j]), tx)).(prepared := None)
    {
      var job := jobs[j];
      var tx := Tx(account, nonce, job.taker, job.maker, job.fill, fee);
      PathAppend(Lax(h), s0, es0, Snap(), Sign(j, nonce, fee));
      jobs := jobs[j := job.(status := Sending, sender := account, nonce := Some(nonce), raw := Some(tx),
                             txs := job.txs + [tx], consumedAt := None)];
      prepared := None;
      es := es0 + [Sign(j, nonce, fee)];
    }

    /** The node proved it did not take the bytes: back to pending, the nonce resynced or handed back. */
    method Refused(j: nat, v: SendView, now: int, ghost s0: State, ghost es0: seq<Event>) returns (ghost es: seq<Event>)
      requires Valid() && j < |jobs| && jobs[j].status == Sending
      requires v.reply == Underpriced || v.reply == NoFunds
      requires h.refusalFinal ==> jobs[j].raw.value !in pool
      requires Path(Lax(h), s0, es0, Snap())
      modifies this, nm
      ensures Valid() && Path(Lax(h), s0, es, Snap()) && |jobs| == |old(jobs)| && jobs[j].txs == old(jobs[j]).txs
      ensures jobs[j].status == Pending && jobs[j].nonce == None && pool == old(pool)
      ensures nm.next ==
        if v.reply == NoFunds then Nonce.Released(old(nm.next), old(jobs[j]).nonce.value) else Some(v.pending)
      ensures Snap() == old(Answered(Snap(), j, v.reply, v, cfg, now))
    {
      var book, nonce := jobs[j].book, jobs[j].nonce.value;
      if v.reply == Underpriced {
        nm.Resync(v.pending);
      } else {
        nm.Release(nonce);
      }
      es := WriteRow(
        j, jobs[j].(status := Pending, nonce := None, raw := None, consumedAt := None),
        book.(nextAt := now + if v.reply == NoFunds then cfg.backoff else 0), Refuse(j), s0, es0);
    }

    /** The bytes may be in a pool now. */
    method Pooled(j: nat, v: SendView, now: int, ghost s0: State, ghost es0: seq<Event>) returns (ghost es: seq<Event>)
      requires Valid() && j < |jobs| && jobs[j].status == Sending && Genuine(Snap(), v.recheck)
      requires v.reply != Underpriced && v.reply != NoFunds
      requires Path(Lax(h), s0, es0, Snap())
      modifies this, nm
      ensures Valid() && Path(Lax(h), s0, es, Snap()) && |jobs| == |old(jobs)| && jobs[j].txs == old(jobs[j]).txs
      ensures jobs[j].nonce == old(jobs[j]).nonce && jobs[j].status != Pending
      ensures v.reply == Taken || v.reply == AlreadyKnown ==> jobs[j].status == Sent
      ensures v.reply == Unclear ==> jobs[j].status == Sending && jobs[j].raw == old(jobs[j]).raw
      ensures old(jobs[j]).raw.value in pool
      ensures Snap() == old(Answered(Snap(), j, v.reply, v, cfg, now))
      ensures nm.next == if v.reply == TooLow then Some(v.pending) else old(nm.next)
    {
      var book := jobs[j].book;
      es := SendRaw(j, s0, es0);
      if v.reply == TooLow {
        nm.Resync(v.pending);
        es := NonceConsumedStep(j, v.recheck, v.depth, now, s0, es);
      } else if v.reply == Unclear {
        es := SetBook(j, book.(attempts := book.attempts + 1, nextAt := now + cfg.backoff), s0, es);
      } else {
        book := book.(sentAt := Some(now), attempts := book.attempts + 1);
        es := WriteRow(j, jobs[j].(status := Sent), book, Accept(j), s0, es);
      }
    }

    /** The node's answer to a first broadcast. Under `refusalFinal` it only refuses bytes that nothing holds. */
    method Submit(tx: Tx, said: Reply) returns (reply: Reply)
      ensures h.refusalFinal && (reply == Underpriced || reply == NoFunds) ==> tx !in pool
      ensures reply == if tx in pool then AlreadyKnown else said
    {
      reply := if tx in pool then AlreadyKnown else said;
    }

    /** First broadcast of the recorded bytes: the job goes back to pending exactly when the node refuses them. */
    method FirstBroadcast(j: nat, v: SendView, now: int, ghost s0: State, ghost es0: seq<Event>)
      returns (reply: Reply, ghost es: seq<Event>)
      requires Valid() && j < |jobs| && jobs[j].status == Sending && Genuine(Snap(), v.recheck)
      requires Path(Lax(h), s0, es0, Snap())
      modifies this, nm
      ensures Valid() && Path(Lax(h), s0, es, Snap()) && |jobs| == |old(jobs)| && jobs[j].txs == old(jobs[j]).txs
      ensures (jobs[j].status == Pending) == (reply == Underpriced || reply == NoFunds)
      ensures reply != Underpriced && reply != NoFunds ==> old(jobs[j]).raw.value in pool
      ensures reply == if old(jobs[j]).raw.value in old(pool) then AlreadyKnown else v.reply
      ensures Snap() == old(Answered(Snap(), j, reply, v, cfg, now))
      ensures nm.next == if reply == NoFunds then Nonce.Released(old(nm.next), old(jobs[j]).nonce.value)
                         else if reply == Underpriced || reply == TooLow then Some(v.pending) else old(nm.next)
    {
      reply := Submit(jobs[j].raw.value, v.reply);
      if reply == Underpriced || reply == NoFunds {
        es := Refused(j, v.(reply := reply), now, s0, es0);
      } else {
        es := Pooled(j, v.(reply := reply), now, s0, es0);
      }
    }

    /** The checks of _send that decide whether the job may be sent at all. */
    method Sendable(j: nat, v: SendView, now: int, ghost s0: State, ghost es0: seq<Event>)
      returns (go: bool, ghost es: seq<Event>)
      requires Valid() && j < |jobs| && jobs[j].status == Pending && GenuineLogs(Snap(), v.logs)
      requires Path(Lax(h), s0, es0, Snap())
      modifies this
      ensures Valid() && Path(Lax(h), s0, es, Snap()) && |jobs| == |old(jobs)| && jobs[j].txs == old(jobs[j]).txs
      ensures go ==> Snap() == old(Snap()) && Ready(Snap(), j)
      ensures go <==> Unlanded(old(Snap()), j, v) && Passes(old(Snap()), j, v)
      ensures !go ==> !InFlight(jobs[j])
      ensures Snap() == old(if Unlanded(Snap(), j, v) then Checked(Snap(), j, v, cfg, now)
                            else Rechecked(Snap(), j, v, cfg, now))
    {
      go, es := RecheckFill(j, v, now, s0, es0);
      if go {
        go, es := CheckMatch(j, v, now, s0, es);
      }
    }

    /** Every check of _send, up to the point where the job may be claimed; others run while it is being priced. */
    method Cleared(j: nat, v: SendView, now: int, ghost s0: State, ghost es0: seq<Event>)
      returns (q: Option<Gas.FeeQuote>, ghost mid: State, ghost es: seq<Event>)
      requires Valid() && j < |jobs| && jobs[j].status == Pending && GenuineLogs(Snap(), v.logs)
      requires Path(Lax(h), s0, es0, Snap())
      modifies this
      ensures Valid() && Path(Lax(h), s0, es, Snap()) && |old(jobs)| <= |jobs| && jobs[j].txs == old(jobs[j]).txs
      ensures q.Some? ==> Undisturbed(old(Snap()).(prepared := Some(j)), Snap())
      ensures quiet && q.Some? ==> jobs == old(jobs)
      ensures q.Some? ==> q == Gas.QuoteFees(v.base, v.tip, v.gasPrice, cfg.fees)
      ensures q.Some? <==> Unlanded(old(Snap()), j, v) && Passes(old(Snap()), j, v) && Payable(v, cfg)
      ensures q == None ==> !InFlight(jobs[j])
      ensures Rows(mid) && j < |mid.jobs| && if old(Unlanded(Snap(), j, v) && Passes(Snap(), j, v))
              then Undisturbed(old(Snap()).(prepared := Some(j)), mid)
                   && Snap() == if q.Some? then mid else Unpriced(mid, j, v, cfg, now).(prepared := None)
              else mid == old(Snap()) && Snap() == Stopped(mid, j, v, cfg, now)
    {
      var go;
      mid := Snap();
      go, es := Sendable(j, v, now, s0, es0);
      q := None;
      if go {
        q, mid, es := Priced(j, v, now, s0, es);
      }
    }

    /** The job passed its checks; others run, and it is priced. */
    method Priced(j: nat, v: SendView, now: int, ghost s0: State, ghost es0: seq<Event>)
      returns (q: Option<Gas.FeeQuote>, ghost mid: State, ghost es: seq<Event>)
      requires Valid() && j < |jobs| && Ready(Snap(), j) && Path(Lax(h), s0, es0, Snap())
      modifies this
      ensures Valid() && Path(Lax(h), s0, es, Snap()) && |old(jobs)| <= |jobs| && jobs[j].txs == old(jobs[j]).txs
      ensures q.Some? ==> Undisturbed(old(Snap()).(prepared := Some(j)), Snap())
      ensures quiet && q.Some? ==> jobs == old(jobs)
      ensures q.Some? ==> q == Gas.QuoteFees(v.base, v.tip, v.gasPrice, cfg.fees)
      ensures q.Some? <==> Payable(v, cfg)
      ensures q == None ==> !InFlight(jobs[j])
      ensures Rows(mid) && Undisturbed(old(Snap()).(prepared := Some(j)), mid)
      ensures Snap() == if q.Some? then mid else Unpriced(mid, j, v, cfg, now).(prepared := None)
    {
      es := MarkReady(j, s0, es0);
      es := Others(s0, es);
      mid := Snap();
      q, es := PriceSend(j, v, now, s0, es);
      if q == None {
        es := Abandon(s0, es);
      }
    }

    method MarkReady(j: nat, ghost s0: State, ghost es0: seq<Event>) returns (ghost es: seq<Event>)
      requires Valid() && j < |jobs| && Ready(Snap(), j) && Path(Lax(h), s0, es0, Snap())
      modifies this
      ensures Valid() && Path(Lax(h), s0, es, Snap()) && Snap() == old(Snap()).(prepared := Some(j))
    {
      PathAppend(Lax(h), s0, es0, Snap(), Prepare(j));
      prepared := Some(j);
      es := es0 + [Prepare(j)];
    }

    /** Broadcast after the write-ahead commit, others running in between. */
    method BroadcastSigned(j: nat, v: SendView, now: int, ghost s0: State, ghost es0: seq<Event>)
      returns (reply: Reply, ghost mid: State, ghost es: seq<Event>)
      requires Valid() && j < |jobs| && jobs[j].status == Sending && Genuine(Snap(), v.recheck)
      requires Path(Lax(h), s0, es0, Snap())
      modifies this, nm
      ensures Valid() && Path(Lax(h), s0, es, Snap()) && j < |jobs| && jobs[j].txs == old(jobs[j]).txs
      ensures Rows(mid) && Undisturbed(old(Snap()), mid) && Snap() == Answered(mid, j, reply, v, cfg, now)
      ensures reply == if old(jobs[j]).raw.value in old(pool) then AlreadyKnown else v.reply
      ensures old(nm.next) == Some(old(jobs[j]).nonce.value + 1) ==>
        nm.next == CacheAfter(reply, old(jobs[j]).nonce.value, v.pending)
    {
      es := Others(s0, es0);
      mid := Snap();
      reply, es := FirstBroadcast(j, v, now, s0, es);
    }

    /** Until the nonce lock is taken, the emissions route may move the allocator in any way. */
    method OtherSenders()
      modifies nm
    {
    }

    /** The floor is read, then others run until the lock is taken. */
    method EarlyFloor(dists: seq<nat>, ghost s0: State, ghost es0: seq<Event>)
      returns (f: Option<nat>, ghost es: seq<Event>)
      requires Valid() && Path(Lax(h), s0, es0, Snap())
      modifies this, nm
      ensures Nonce.IsFloor(JobNonces(old(jobs), old(account)) + Nonce.Elements(dists), f)
      ensures Valid() && Path(Lax(h), s0, es, Snap()) && Undisturbed(old(Snap()), Snap())
      ensures quiet ==> Snap() == old(Snap())
    {
      f := NonceFloor(dists);
      es := Others(s0, es0);
      OtherSenders();
    }

    /**
     Under the nonce lock: claim, sign, record and broadcast. `mid` is the state in which the node's answer is written
     down, others having run since the write-ahead commit.
     */
    method SendLocked(
      j: nat, v: SendView, floor: Option<nat>, q: Gas.FeeQuote, now: int, ghost s0: State, ghost es0: seq<Event>)
      returns (reply: Reply, ghost mid: State, ghost es: seq<Event>)
      requires Valid() && j < |jobs| && Unclaimed(jobs[j]) && prepared == Some(j) && Genuine(Snap(), v.recheck)
      requires Path(Lax(h), s0, es0, Snap())
      modifies this, nm
      ensures Valid() && Path(Lax(h), s0, es, Snap()) && j < |jobs| && Rows(mid) && j < |mid.jobs|
      ensures var n := Nonce.Reserved(old(nm.next), floor, v.pending);
        var tx := MatchTx(old(jobs[j]), old(account), n, Gas.Store(q));
        if old(jobs[j]).status == Pending && v.signs
        then Undisturbed(SetJob(old(Snap()), j, SignedRow(old(jobs[j]), tx)).(prepared := None), mid)
             && Snap() == Answered(mid, j, reply, v, cfg, now) && nm.next == CacheAfter(reply, n, v.pending)
             && (reply == if tx in old(pool) then AlreadyKnown else v.reply)
             && SignedOne(old(jobs[j]), jobs[j].txs, old(account), n, Gas.Store(q))
        else Snap() == old(Snap()).(prepared := None)
    {
      var signed;
      reply, mid := v.reply, Snap();
      signed, es := ClaimAndSign(j, v, floor, q, s0, es0);
      if signed {
        reply, mid, es := BroadcastSigned(j, v, now, s0, es);
      }
    }

    /** Read the floor, wait for the lock, then claim, sign, record and broadcast. */
    method Dispatch(j: nat, v: SendView, q: Gas.FeeQuote, now: int, ghost s0: State, ghost es0: seq<Event>)
      returns (reply: Reply, ghost mid: State, ghost es: seq<Event>)
      requires Valid() && j < |jobs| && Unclaimed(jobs[j]) && prepared == Some(j) && Genuine(Snap(), v.recheck)
      requires Path(Lax(h), s0, es0, Snap())
      modifies this, nm
      ensures Valid() && Path(Lax(h), s0, es, Snap()) && j < |jobs| && Rows(mid) && j < |mid.jobs|
      ensures jobs[j].txs != old(jobs[j]).txs ==> v.signs && SignedAbove(old(jobs[j]), jobs[j].txs, old(account),
        JobNonces(old(jobs), old(account)) + Nonce.Elements(v.dists), v.pending, Gas.Store(q))
      ensures jobs[j].txs == old(jobs[j]).txs ==> jobs[j].status == Cancelled || !v.signs
      ensures quiet && old(jobs[j]).status == Pending && v.signs ==> jobs[j].txs != old(jobs[j]).txs
      ensures jobs[j].txs == old(jobs[j]).txs ==> Undisturbed(old(Snap()).(prepared := None), Snap())
      ensures jobs[j].txs != old(jobs[j]).txs ==>
        Dispatched(old(Snap()), old(jobs[j]), j, v, cfg, reply, Gas.Store(q), mid, Snap(), nm.next, now)
    {
      var floor;
      floor, es := EarlyFloor(v.dists, s0, es0);
      ghost var s := Snap();
      reply, mid, es := SendLocked(j, v, floor, q, now, s0, es);
      if jobs[j].txs != old(jobs[j]).txs {
        SignedUndisturbed(old(Snap()), s, mid, j, mid.jobs[j]);
      } else {
        UndisturbedForgets(old(Snap()), s);
      }
    }

    // ---------------------------------------------------------------- the cancel route and failed sides

    /**
     The cancel route over the jobs committed when it reads them (id below `seen`). `filled` is the order row's
     fill at that read, which may be older than the job rows.
     */
    method Cancel(o: nat, seen: nat, filled: nat) returns (required: bool)
      requires Valid() && o < |orders| && seen <= |jobs|
      modifies this
      ensures Valid() && Enabled(h, old(Snap()), CancelOrder(o, seen))
      ensures Snap() == Next(h, old(Snap()), CancelOrder(o, seen))
      ensures required == CancelExposure.OnchainCancelRequired(old(Snap()), o, seen, filled)
    {
      var exposed := Exposed(o, seen, filled);
      orders := orders[o := orders[o].(cancelled := true)];
      var inFlight := false;
      ghost var flagged := Snap();
      for i := 0 to seen
        invariant |jobs| == |old(jobs)| && Valid() && Snap() == CancelJobs(flagged, o, i)
        invariant inFlight ==> exists k :: 0 <= k < i && Touches(old(jobs)[k], o) && InFlight(old(jobs)[k])
      {
        CancelExposure.OnlyPendingCancelled(flagged, o, i, i);
        if Touches(jobs[i], o) {
          if jobs[i].status == Pending {
            var done := RollbackJob(i, Pending, Cancelled);
          } else if InFlight(jobs[i]) {
            inFlight := true;
          }
        }
      }
      required := exposed || inFlight;
    }

    /** Fill beyond the never-broadcast pending jobs, or any job that signed or was claimed. */
    method Exposed(o: nat, seen: nat, filled: nat) returns (exposed: bool)
      requires Valid() && o < |orders| && seen <= |jobs|
      ensures exposed == CancelExposure.OnchainCancelRequired(Snap(), o, seen, filled)
    {
      var unsent, signed := 0, false;
      for i := 0 to seen
        invariant unsent == CancelExposure.Unsent(Snap(), o, i)
        invariant signed <==> exists k :: 0 <= k < i && Touches(jobs[k], o) && CancelExposure.ExposedJob(jobs[k])
      {
        if Touches(jobs[i], o) {
          if jobs[i].status == Pending && jobs[i].txs == [] {
            unsent := unsent + jobs[i].fill;
          }
          if CancelExposure.ExposedJob(jobs[i]) {
            signed := true;
          }
        }
      }
      exposed := filled > unsent || signed;
    }

    /** filled := on-chain fill plus live jobs, capped; nothing when the node does not answer. */
    method ResyncFill(o: nat, up: bool)
      requires Valid() && o < |orders|
      modifies this
      ensures Valid() && Enabled(h, old(Snap()), ResyncFilled(o))
      ensures Snap() == if up then Next(h, old(Snap()), ResyncFilled(o)) else old(Snap())
    {
      if !up {
        return;
      }
      var live := LiveOn(o);
      var target := onchain[o] + live;
      orders := orders[o := orders[o].(filled := if target > orders[o].amount then orders[o].amount else target)];
    }

    /** _retire_failed_side's cancels: exactly the sides at fault are taken off the book. */
    method RetireSides(taker: nat, maker: nat, reasons: seq<Reason>) returns (rematch: bool)
      requires Valid() && Sides(Snap(), taker, maker)
      modifies this
      ensures Valid() && |orders| == |old(orders)| && Snap() == old(Snap()).(orders := orders)
      ensures forall o :: 0 <= o < |orders| ==> orders[o] == old(orders[o]).(cancelled := old(orders[o]).cancelled ||
        (o == taker && AtFault(reasons, TakerSide)) || (o == maker && AtFault(reasons, MakerSide)))
      ensures rematch == (AtFault(reasons, MakerSide) && !AtFault(reasons, TakerSide) &&
                          !orders[taker].cancelled && orders[taker].filled < orders[taker].amount)
    {
      var t := Blamed(reasons, TakerSide);
      var m := Blamed(reasons, MakerSide);
      if t {
        orders := orders[taker := orders[taker].(cancelled := true)];
      }
      if m {
        orders := orders[maker := orders[maker].(cancelled := true)];
      }
      rematch := m && !t && !orders[taker].cancelled && orders[taker].filled < orders[taker].amount;
    }

    /**
     _send: one pending job. A new transaction is recorded exactly when every check passed, signing did not raise and
     nobody cancelled the job in between. It is recorded before it is broadcast, with the quote it was signed with, and
     its nonce is at or above the floor over both tables as they were when the pricing was done. `mid` is the state in
     which the last answer is written down.
     */
    method Send(j: nat, v: SendView, now: int) returns (reply: Reply, ghost mid: State, ghost es: seq<Event>)
      requires Valid() && j < |jobs| && jobs[j].status == Pending
      requires GenuineLogs(Snap(), v.logs) && Genuine(Snap(), v.recheck)
      modifies this, nm
      ensures Valid() && Path(Lax(h), old(Snap()), es, Snap()) && j < |jobs| && Rows(mid) && j < |mid.jobs|
      ensures jobs[j].txs == old(jobs[j]).txs && jobs[j].status != Cancelled ==>
        !(old(Unlanded(Snap(), j, v) && Passes(Snap(), j, v)) && Payable(v, cfg) && v.signs)
      ensures jobs[j].txs != old(jobs[j]).txs ==>
        old(Unlanded(Snap(), j, v) && Passes(Snap(), j, v)) && Payable(v, cfg) && v.signs
      ensures quiet && old(Unlanded(Snap(), j, v) && Passes(Snap(), j, v)) && Payable(v, cfg) && v.signs ==>
        jobs[j].txs != old(jobs[j]).txs
      ensures jobs[j].txs != old(jobs[j]).txs ==> SignedAbove(old(jobs[j]), jobs[j].txs, old(account),
        JobNonces(old(jobs), old(account)) + Nonce.Elements(v.dists), v.pending,
        Gas.Store(Gas.QuoteFees(v.base, v.tip, v.gasPrice, cfg.fees).value))
      ensures !old(Unlanded(Snap(), j, v) && Passes(Snap(), j, v)) ==> Snap() == old(Stopped(Snap(), j, v, cfg, now))
      ensures old(Unlanded(Snap(), j, v) && Passes(Snap(), j, v)) && !Payable(v, cfg) ==>
        && Undisturbed(old(Snap()).(prepared := Some(j)), mid)
        && Snap() == Unpriced(mid, j, v, cfg, now).(prepared := None)
      ensures old(Unlanded(Snap(), j, v) && Passes(Snap(), j, v)) && Payable(v, cfg) ==>
        (jobs[j].txs == old(jobs[j]).txs ==> Undisturbed(old(Snap()).(prepared := None), Snap()))
      ensures jobs[j].txs != old(jobs[j]).txs ==>
        Dispatched(old(Snap()), old(jobs[j]), j, v, cfg, reply,
                   Gas.Store(Gas.QuoteFees(v.base, v.tip, v.gasPrice, cfg.fees).value), mid, Snap(), nm.next, now)
      ensures jobs[j].txs != old(jobs[j]).txs ==>
        && jobs[j].book.fees == jobs[j].txs[|jobs[j].txs| - 1].fee
        && (reply == Taken || reply == AlreadyKnown ==>
              && jobs[j].status == Sent && jobs[j].book.sentAt == Some(now)
              && jobs[j].book.attempts == old(jobs[j]).book.attempts + 1)
      ensures old(AllStored(Snap(), cfg.fees.cap)) ==> AllStored(Snap(), cfg.fees.cap)
    {
      ghost var s0 := Snap();
      reply, mid, es := SendRow(j, v, now);
      SendKeeps(s0, mid, Snap(), j, v, cfg, reply, nm.next, now);
    }

    /** The same, before what it keeps is read off its new state. */
    method SendRow(j: nat, v: SendView, now: int) returns (reply: Reply, ghost mid: State, ghost es: seq<Event>)
      requires Valid() && j < |jobs| && jobs[j].status == Pending
      requires GenuineLogs(Snap(), v.logs) && Genuine(Snap(), v.recheck)
      modifies this, nm
      ensures Valid() && Path(Lax(h), old(Snap()), es, Snap()) && j < |jobs| && Rows(mid) && j < |mid.jobs|
      ensures jobs[j].txs == old(jobs[j]).txs && jobs[j].status != Cancelled ==>
        !(old(Unlanded(Snap(), j, v) && Passes(Snap(), j, v)) && Payable(v, cfg) && v.signs)
      ensures jobs[j].txs != old(jobs[j]).txs ==>
        old(Unlanded(Snap(), j, v) && Passes(Snap(), j, v)) && Payable(v, cfg) && v.signs
      ensures quiet && old(Unlanded(Snap(), j, v) && Passes(Snap(), j, v)) && Payable(v, cfg) && v.signs ==>
        jobs[j].txs != old(jobs[j]).txs
      ensures jobs[j].txs != old(jobs[j]).txs ==> SignedAbove(old(jobs[j]), jobs[j].txs, old(account),
        JobNonces(old(jobs), old(account)) + Nonce.Elements(v.dists), v.pending,
        Gas.Store(Gas.QuoteFees(v.base, v.tip, v.gasPrice, cfg.fees).value))
      ensures !old(Unlanded(Snap(), j, v) && Passes(Snap(), j, v)) ==> Snap() == old(Stopped(Snap(), j, v, cfg, now))
      ensures old(Unlanded(Snap(), j, v) && Passes(Snap(), j, v)) && !Payable(v, cfg) ==>
        && Undisturbed(old(Snap()).(prepared := Some(j)), mid)
        && Snap() == Unpriced(mid, j, v, cfg, now).(prepared := None)
      ensures old(Unlanded(Snap(), j, v) && Passes(Snap(), j, v)) && Payable(v, cfg) ==>
        (jobs[j].txs == old(jobs[j]).txs ==> Undisturbed(old(Snap()).(prepared := None), Snap()))
      ensures jobs[j].txs != old(jobs[j]).txs ==>
        Dispatched(old(Snap()), old(jobs[j]), j, v, cfg, reply,
                   Gas.Store(Gas.QuoteFees(v.base, v.tip, v.gasPrice, cfg.fees).value), mid, Snap(), nm.next, now)
    {
      ghost var s0 := Snap();
      var q;
      reply := v.reply;
      q, mid, es := Cleared(j, v, now, s0, []);
      if q.Some? {
        reply, mid, es := Commit(j, v, q.value, now, s0, es);
      }
    }

    /** A job that passed its checks and was priced; `s0` is the state in which it was checked. */
    method Commit(j: nat, v: SendView, q: Gas.FeeQuote, now: int, ghost s0: State, ghost es0: seq<Event>)
      returns (reply: Reply, ghost mid: State, ghost es: seq<Event>)
      requires Valid() && j < |s0.jobs| && Undisturbed(s0.(prepared := Some(j)), Snap())
      requires s0.jobs[j].status == Pending && Genuine(Snap(), v.recheck) && Path(Lax(h), s0, es0, Snap())
      modifies this, nm
      ensures Valid() && Path(Lax(h), s0, es, Snap()) && j < |jobs| && Rows(mid) && j < |mid.jobs|
      ensures jobs[j].txs == s0.jobs[j].txs ==> jobs[j].status == Cancelled || !v.signs
      ensures quiet && old(jobs[j]).status == Pending && v.signs ==> jobs[j].txs != s0.jobs[j].txs
      ensures jobs[j].txs == s0.jobs[j].txs ==> Undisturbed(s0.(prepared := None), Snap())
      ensures jobs[j].txs != s0.jobs[j].txs ==> v.signs && SignedAbove(s0.jobs[j], jobs[j].txs, s0.account,
        JobNonces(s0.jobs, s0.account) + Nonce.Elements(v.dists), v.pending, Gas.Store(q))
      ensures jobs[j].txs != s0.jobs[j].txs ==>
        Dispatched(s0, s0.jobs[j], j, v, cfg, reply, Gas.Store(q), mid, Snap(), nm.next, now)
    {
      ghost var s := Snap();
      UndisturbedNonces(s0.(prepared := Some(j)), s);
      reply, mid, es := Dispatch(j, v, q, now, s0, es0);
      if jobs[j].txs != s.jobs[j].txs {
        DispatchedEarlier(s0, s, j, v, cfg, reply, Gas.Store(q), mid, Snap(), nm.next, now);
      } else {
        UndisturbedForgets(s0.(prepared := Some(j)), s);
        UndisturbedTrans(s0.(prepared := None), s.(prepared := None), Snap());
      }
    }
  }

  /**
   The state `mid` holds the signed row of job `j`, as signed from `before`; nobody else has touched anything but
   pending jobs; and the step ends with the node's answer written into it, and the allocator moved by it.
   */
  ghost predicate Dispatched(
    s: State, before: Job, j: nat, v: SendView, cfg: Settings, reply: Reply, fee: Fees, mid: State, end: State,
    cache: Option<nat>, now: int)
  {
    && before.status == Pending
    && j < |s.jobs| && j < |mid.jobs| && mid.jobs[j].nonce.Some? && mid.jobs[j].raw.Some?
    && Undisturbed(SetJob(s, j, mid.jobs[j]).(prepared := None), mid)
    && mid.jobs[j] == SignedRow(before, MatchTx(before, s.account, mid.jobs[j].nonce.value, fee))
    && end == Answered(mid, j, reply, v, cfg, now)
    && cache == CacheAfter(reply, mid.jobs[j].nonce.value, v.pending)
    && (reply == if mid.jobs[j].raw.value in s.pool then AlreadyKnown else v.reply)
  }

  /** Others sign nothing, so the fee columns stay true while they run. */
  lemma UndisturbedStored(s: State, t: State, cap: nat)
    requires Undisturbed(s, t) && AllStored(s, cap)
    ensures AllStored(t, cap)
  {
    forall i | 0 <= i < |t.jobs| ensures Stored(t.jobs[i], cap) {
      if i < |s.jobs| { assert Stored(s.jobs[i], cap); }
    }
  }

  /** What a reconcile keeps, whichever way it goes. */
  lemma ReconcileKeeps(s: State, mid: State, t: State, j: nat, v: ReconcileView, cfg: Settings, now: int)
    requires Rows(s) && j < |s.jobs| && InFlight(s.jobs[j])
    requires if Bumps(s.jobs[j], v, cfg, now)
             then Undisturbed(SetJob(s, j, BumpedRow(s.jobs[j], s.account, BumpFeeOf(s.jobs[j], v, cfg), now)), mid)
                  && Rows(mid) && t == BumpSent(mid, j, v, cfg, now)
             else t == Reconciled(s, j, v, cfg, now)
    ensures j < |t.jobs| && (InFlight(t.jobs[j]) ==> Tick(s.jobs[j], t.jobs[j], cfg))
    ensures t.jobs[j].txs != s.jobs[j].txs ==>
      && t.jobs[j].book.attempts == s.jobs[j].book.attempts + 1 && t.jobs[j].book.sentAt == Some(now)
      && t.jobs[j].book.fees == t.jobs[j].txs[|t.jobs[j].txs| - 1].fee
    ensures AllStored(s, cfg.fees.cap) ==> AllStored(t, cfg.fees.cap)
  {
    if Bumps(s.jobs[j], v, cfg, now) {
      BumpKeeps(s, mid, t, j, v, cfg, now);
    } else {
      ReconciledCarries(s, j, v, cfg, now);
      if AllStored(s, cfg.fees.cap) {
        CarriesStored(s, t, j, cfg.fees.cap);
      }
    }
  }

  lemma BumpKeeps(s: State, mid: State, t: State, j: nat, v: ReconcileView, cfg: Settings, now: int)
    requires Rows(s) && j < |s.jobs| && InFlight(s.jobs[j]) && Bumps(s.jobs[j], v, cfg, now)
    requires Undisturbed(SetJob(s, j, BumpedRow(s.jobs[j], s.account, BumpFeeOf(s.jobs[j], v, cfg), now)), mid)
    requires Rows(mid) && t == BumpSent(mid, j, v, cfg, now)
    ensures j < |t.jobs| && (InFlight(t.jobs[j]) ==> Tick(s.jobs[j], t.jobs[j], cfg))
    ensures t.jobs[j].book.attempts == s.jobs[j].book.attempts + 1 && t.jobs[j].book.sentAt == Some(now)
    ensures t.jobs[j].txs != [] && t.jobs[j].book.fees == t.jobs[j].txs[|t.jobs[j].txs| - 1].fee
    ensures AllStored(s, cfg.fees.cap) ==> AllStored(t, cfg.fees.cap)
  {
    var row := BumpedRow(s.jobs[j], s.account, BumpFeeOf(s.jobs[j], v, cfg), now);
    var u := SetJob(s, j, row);
    assert mid.jobs[j] == row;
    BumpSentCarries(mid, j, v, cfg, now);
    if InFlight(t.jobs[j]) {
      assert BumpTick(s.jobs[j], t.jobs[j], v, s.account, now, cfg);
    }
    if AllStored(s, cfg.fees.cap) {
      assert Stored(s.jobs[j], cfg.fees.cap);
      BumpedStored(s.jobs[j], v, cfg, s.account, now);
      forall i | 0 <= i < |u.jobs| ensures Stored(u.jobs[i], cfg.fees.cap) {
        assert Stored(s.jobs[i], cfg.fees.cap);
      }
      UndisturbedStored(u, mid, cfg.fees.cap);
      CarriesStored(mid, t, j, cfg.fees.cap);
    }
  }

  /** The ways a send may end, as its contract states them. */
  ghost predicate SendEnds(
    s: State, mid: State, t: State, j: nat, v: SendView, cfg: Settings, reply: Reply, cache: Option<nat>, now: int)
    requires Rows(s) && j < |s.jobs|
  {
    || t == Stopped(s, j, v, cfg, now)
    || (j < |mid.jobs| && Undisturbed(s.(prepared := Some(j)), mid)
        && t == Unpriced(mid, j, v, cfg, now).(prepared := None))
    || Undisturbed(s.(prepared := None), t)
    || (Gas.QuoteFees(v.base, v.tip, v.gasPrice, cfg.fees).Some? &&
        Dispatched(s, s.jobs[j], j, v, cfg, reply, Gas.Store(Gas.QuoteFees(v.base, v.tip, v.gasPrice, cfg.fees).value),
                   mid, t, cache, now))
  }

  lemma SendKeeps(
    s: State, mid: State, t: State, j: nat, v: SendView, cfg: Settings, reply: Reply, cache: Option<nat>, now: int)
    requires Rows(s) && j < |s.jobs| && s.jobs[j].status == Pending && SendEnds(s, mid, t, j, v, cfg, reply, cache, now)
    ensures j < |t.jobs|
    ensures t.jobs[j].txs != s.jobs[j].txs ==>
      && t.jobs[j].txs != [] && t.jobs[j].book.fees == t.jobs[j].txs[|t.jobs[j].txs| - 1].fee
      && (reply == Taken || reply == AlreadyKnown ==>
            && t.jobs[j].status == Sent && t.jobs[j].book.sentAt == Some(now)
            && t.jobs[j].book.attempts == s.jobs[j].book.attempts + 1)
    ensures AllStored(s, cfg.fees.cap) ==> AllStored(t, cfg.fees.cap)
  {
    var cap := cfg.fees.cap;
    if t == Stopped(s, j, v, cfg, now) {
      StoppedCarries(s, j, v, cfg, now);
      if AllStored(s, cap) { CarriesStored(s, t, j, cap); }
    } else if Undisturbed(s.(prepared := None), t) {
      if AllStored(s, cap) { UndisturbedStored(s.(prepared := None), t, cap); }
    } else if j < |mid.jobs| && Undisturbed(s.(prepared := Some(j)), mid)
              && t == Unpriced(mid, j, v, cfg, now).(prepared := None) {
      UnpricedCarries(mid, j, v, cfg, now);
      if AllStored(s, cap) {
        UndisturbedStored(s.(prepared := Some(j)), mid, cap);
        CarriesStored(mid, t, j, cap);
      }
    } else {
      var q := Gas.QuoteFees(v.base, v.tip, v.gasPrice, cfg.fees).value;
      Gas.QuoteWellPriced(v.base, v.tip, v.gasPrice, cfg.fees);
      DispatchKeeps(s, mid, t, j, v, cfg, reply, q, cache, now);
    }
  }

  lemma DispatchKeeps(
    s: State, mid: State, t: State, j: nat, v: SendView, cfg: Settings, reply: Reply, q: Gas.FeeQuote,
    cache: Option<nat>, now: int)
    requires j < |s.jobs| && Gas.WellPriced(q, cfg.fees.cap)
    requires Dispatched(s, s.jobs[j], j, v, cfg, reply, Gas.Store(q), mid, t, cache, now)
    ensures j < |t.jobs| && t.jobs[j].txs != [] && t.jobs[j].book.fees == t.jobs[j].txs[|t.jobs[j].txs| - 1].fee
    ensures reply == Taken || reply == AlreadyKnown ==>
      && t.jobs[j].status == Sent && t.jobs[j].book.sentAt == Some(now)
      && t.jobs[j].book.attempts == s.jobs[j].book.attempts + 1
    ensures AllStored(s, cfg.fees.cap) ==> AllStored(t, cfg.fees.cap)
  {
    var cap, u := cfg.fees.cap, SetJob(s, j, mid.jobs[j]).(prepared := None);
    AnsweredCarries(mid, j, reply, v, cfg, now);
    SignedStored(s.jobs[j], s.account, mid.jobs[j].nonce.value, q, cap);
    if AllStored(s, cap) {
      forall i | 0 <= i < |u.jobs| ensures Stored(u.jobs[i], cap) {
        assert Stored(s.jobs[i], cap);
      }
      UndisturbedStored(u, mid, cap);
      CarriesStored(mid, t, j, cap);
    }
  }

  lemma UndisturbedForgets(s: State, t: State)
    requires Undisturbed(s, t)
    ensures Undisturbed(s.(prepared := None), t.(prepared := None))
  {
    var a, b := s.(prepared := None), t.(prepared := None);
    forall tx | IsMined(a, tx) ensures IsMined(b, tx) && Landed(b, tx) == Landed(a, tx) {
      assert IsMined(s, tx) && IsMined(t, tx);
    }
  }

  /** Others ran before the claim and after it. */
  lemma SignedUndisturbed(s: State, t: State, u: State, j: nat, row: Job)
    requires Undisturbed(s, t) && j < |s.jobs| && Undisturbed(SetJob(t, j, row).(prepared := None), u)
    requires row.taker == s.jobs[j].taker && row.maker == s.jobs[j].maker && row.status == Sending && u.jobs[j] == row
    ensures Undisturbed(SetJob(s, j, row).(prepared := None), u)
  {
    var a, b := SetJob(s, j, row).(prepared := None), SetJob(t, j, row).(prepared := None);
    forall i | 0 <= i < |a.jobs| ensures u.jobs[i] == a.jobs[i] ||
      (a.jobs[i].status == Pending && u.jobs[i] == a.jobs[i].(status := Cancelled))
    {
      if i != j {
        assert t.jobs[i] == s.jobs[i] || t.jobs[i] == s.jobs[i].(status := Cancelled);
      }
    }
    forall tx | IsMined(a, tx) ensures IsMined(u, tx) && Landed(u, tx) == Landed(a, tx) {
      assert IsMined(s, tx) && IsMined(t, tx) && IsMined(b, tx);
    }
  }

  lemma DispatchedEarlier(
    s: State, t: State, j: nat, v: SendView, cfg: Settings, reply: Reply, fee: Fees, mid: State, end: State,
    cache: Option<nat>, now: int)
    requires j < |s.jobs| && s.jobs[j].status == Pending && Undisturbed(s.(prepared := Some(j)), t)
    requires Dispatched(t, t.jobs[j], j, v, cfg, reply, fee, mid, end, cache, now)
    ensures Dispatched(s, s.jobs[j], j, v, cfg, reply, fee, mid, end, cache, now)
  {
    SignedUndisturbed(s.(prepared := Some(j)), t, mid, j, mid.jobs[j]);
    assert SetJob(s.(prepared := Some(j)), j, mid.jobs[j]).(prepared := None)
      == SetJob(s, j, mid.jobs[j]).(prepared := None);
  }

  /** Nobody else moves a row in or out of flight while a worker step awaits. */
  lemma UndisturbedNonces(s: State, t: State)
    requires Undisturbed(s, t)
    ensures JobNonces(t.jobs, t.account) == JobNonces(s.jobs, s.account)
  {
    forall n | n in JobNonces(t.jobs, t.account) ensures n in JobNonces(s.jobs, s.account) {
      var i :| 0 <= i < |t.jobs| && HoldsNonce(t.jobs[i], t.account) && t.jobs[i].nonce.value == n;
      assert i < |s.jobs| && t.jobs[i] == s.jobs[i];
    }
    forall n | n in JobNonces(s.jobs, s.account) ensures n in JobNonces(t.jobs, t.account) {
      var i :| 0 <= i < |s.jobs| && HoldsNonce(s.jobs[i], s.account) && s.jobs[i].nonce.value == n;
      assert t.jobs[i] == s.jobs[i];
    }
  }
}
