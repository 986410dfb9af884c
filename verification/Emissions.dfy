/**
 Emissions distribution: a payload is never paid more often than there are idempotency keys for it, and once per key
 when keys share no bytes, whatever requests, retries, polls and ambiguous broadcasts do. The distributor contract has
 no idempotency key of its own.
 */
module Emissions {
  import opened Options
  import Nonce

  datatype Status = Sending | Sent | Confirmed | Failed

  /** A signed distribute call; its value stands for its hash. The idempotency key is not in the bytes. */
  datatype Tx = Tx(sender: nat, nonce: nat, payload: nat, fee: nat)

  datatype Mined = Ours(tx: Tx, ok: bool) | Foreign

  datatype Row = Row(payload: nat, key: nat, tx: Tx, status: Status, sentAt: int)

  datatype State = State(rows: seq<Row>, pool: set<Tx>, lines: map<nat, seq<Mined>>)

  function Line(s: State, sender: nat): seq<Mined> {
    if sender in s.lines then s.lines[sender] else []
  }

  predicate IsMined(s: State, tx: Tx) {
    var line := Line(s, tx.sender);
    tx.nonce < |line| && line[tx.nonce].Ours? && line[tx.nonce].tx == tx
  }

  predicate Landed(s: State, tx: Tx) {
    IsMined(s, tx) && Line(s, tx.sender)[tx.nonce].ok
  }

  predicate Consumed(s: State, tx: Tx) {
    tx.nonce < |Line(s, tx.sender)|
  }

  predicate CanMine(s: State, tx: Tx) {
    tx in s.pool && !Consumed(s, tx)
  }

  predicate Live(row: Row) {
    row.status != Failed
  }

  predicate Same(a: Row, b: Row) {
    a.payload == b.payload && a.key == b.key
  }

  /** The partial unique index: no other live row of this payload and key. */
  predicate Admits(rows: seq<Row>, i: nat)
    requires i < |rows|
  {
    forall j :: 0 <= j < |rows| && j != i && Same(rows[j], rows[i]) ==> !Live(rows[j])
  }

  ghost predicate Indexed(rows: seq<Row>) {
    forall i, j ::
      (0 <= i < |rows| && 0 <= j < |rows| && Live(rows[i]) && Live(rows[j]) && Same(rows[i], rows[j])) ==> i == j
  }

  // ------------------------------------------------------------------ events

  datatype Event =
    | Record(row: Row)                        // the write-ahead commit
    | Broadcast(i: nat)
    | MarkSent(i: nat)
    | Confirm(i: nat)
    | Revert(i: nat)                          // a receipt with status 0
    | Expire(i: nat)                          // nonce mined past, no receipt
    | Refuse(i: nat)                          // first broadcast refused
    | RetireLow(i: nat, flip: Option<nat>)  // "nonce too low", then _mined_earlier, in one commit
    | Flip(k: nat)                            // _mined_earlier alone
    | Mine(tx: Tx, ok: bool)
    | MineForeign(sender: nat)

  /**
   Environment hypotheses: a row is only given up when no receipt of its transaction exists (no RPC lag); a refused
   first broadcast, "nonce too low" included, is not what a pool or a block holds; bytes are only broadcast while a
   live row holds them or their nonce is mined; rows of different keys do not share bytes (only for the statements that
   count payments per key).
   */
  datatype Hyp = Hyp(currentReceipts: bool, refusalFinal: bool, steadyBytes: bool, ownBytes: bool)

  /** A live row holds this row's transaction; it is a row of the same payload, under whichever key. */
  predicate Carried(s: State, i: nat)
    requires i < |s.rows|
  {
    exists j :: 0 <= j < |s.rows| && Live(s.rows[j]) && s.rows[j].tx == s.rows[i].tx
  }

  /** So does a live row other than this one. */
  predicate HeldElsewhere(s: State, i: nat)
    requires i < |s.rows|
  {
    exists j :: 0 <= j < |s.rows| && j != i && Live(s.rows[j]) && s.rows[j].tx == s.rows[i].tx
  }

  /** Broadcasting this row's bytes now cannot make a payment nobody holds a live row for. */
  predicate Steady(s: State, i: nat)
    requires i < |s.rows|
  {
    Consumed(s, s.rows[i].tx) || Carried(s, i)
  }

  /** `k` becomes confirmed once `i` is retired: it landed, and no third row of the payload is live. */
  predicate CanFlip(s: State, i: nat, k: nat)
    requires i < |s.rows|
  {
    && k < |s.rows| && Same(s.rows[k], s.rows[i]) && Landed(s, s.rows[k].tx) && (k == i || !Live(s.rows[k]))
    && forall j :: 0 <= j < |s.rows| && j != i && j != k && Same(s.rows[j], s.rows[i]) ==> !Live(s.rows[j])
  }

  predicate Enabled(h: Hyp, s: State, e: Event) {
    match e
    case Record(row) =>
      && row.status == Sending && row.tx.payload == row.payload
      && (forall j :: 0 <= j < |s.rows| && Same(s.rows[j], row) ==> !Live(s.rows[j]))
      && (h.ownBytes ==> forall j :: 0 <= j < |s.rows| && s.rows[j].tx == row.tx ==> s.rows[j].key == row.key)
    case Broadcast(i) => i < |s.rows| && (h.steadyBytes ==> Steady(s, i))
    case MarkSent(i) => i < |s.rows| && Admits(s.rows, i)
    case Confirm(i) => i < |s.rows| && Landed(s, s.rows[i].tx) && Admits(s.rows, i)
    case Revert(i) => i < |s.rows| && IsMined(s, s.rows[i].tx) && !Landed(s, s.rows[i].tx)
    case Expire(i) =>
      i < |s.rows| && Consumed(s, s.rows[i].tx) && (h.currentReceipts ==> !IsMined(s, s.rows[i].tx))
    case Refuse(i) => i < |s.rows| && (h.refusalFinal ==> s.rows[i].tx !in s.pool)
    case RetireLow(i, flip) =>
      && i < |s.rows| && (flip.Some? ==> CanFlip(s, i, flip.value))
      && (h.refusalFinal ==> !CanMine(s, s.rows[i].tx))
      && (h.currentReceipts && h.refusalFinal && Landed(s, s.rows[i].tx) ==>
            flip.Some? && s.rows[flip.value].tx == s.rows[i].tx)
    case Flip(k) => k < |s.rows| && Landed(s, s.rows[k].tx) && Admits(s.rows, k)
    case Mine(tx, _) => CanMine(s, tx) && tx.nonce == |Line(s, tx.sender)|
    case MineForeign(_) => true
  }

  function Set(s: State, i: nat, status: Status): State
    requires i < |s.rows|
  {
    s.(rows := s.rows[i := s.rows[i].(status := status)])
  }

  function Next(h: Hyp, s: State, e: Event): State
    requires Enabled(h, s, e)
  {
    match e
    case Record(row) => s.(rows := s.rows + [row])
    case Broadcast(i) => s.(pool := s.pool + {s.rows[i].tx})
    case MarkSent(i) => Set(s, i, Sent)
    case Confirm(i) => Set(s, i, Confirmed)
    case Revert(i) => Set(s, i, Failed)
    case Expire(i) => Set(s, i, Failed)
    case Refuse(i) => Set(s, i, Failed)
    case RetireLow(i, flip) => if flip == None then Set(s, i, Failed) else Set(Set(s, i, Failed), flip.value, Confirmed)
    case Flip(k) => Set(s, k, Confirmed)
    case Mine(tx, ok) => s.(lines := s.lines[tx.sender := Line(s, tx.sender) + [Ours(tx, ok)]])
    case MineForeign(a) => s.(lines := s.lines[a := Line(s, a) + [Foreign]])
  }

  // ------------------------------------------------------------------ the invariant

  ghost predicate WriteAhead(s: State) {
    && (forall tx :: tx in s.pool ==> exists i :: 0 <= i < |s.rows| && s.rows[i].tx == tx)
    && (forall tx :: IsMined(s, tx) ==> tx in s.pool)
  }

  ghost predicate OwnPayload(s: State) {
    forall i :: 0 <= i < |s.rows| ==> s.rows[i].tx.payload == s.rows[i].payload
  }

  /** No two keys share bytes. */
  ghost predicate OwnBytes(s: State) {
    forall i, j ::
      (0 <= i < |s.rows| && 0 <= j < |s.rows| && s.rows[i].tx == s.rows[j].tx) ==> s.rows[i].key == s.rows[j].key
  }

  /** One live row per payload and key, and every transaction that landed or can is held by a live row. */
  ghost predicate Inv(s: State) {
    && Indexed(s.rows) && WriteAhead(s) && OwnPayload(s)
    && forall i {:trigger Carried(s, i)} ::
         (0 <= i < |s.rows| && (Landed(s, s.rows[i].tx) || CanMine(s, s.rows[i].tx))) ==> Carried(s, i)
  }

  /** Transaction `n` of `a` paid a distribution recorded for this payload and key. */
  ghost predicate Paid(s: State, payload: nat, key: nat, a: nat, n: nat) {
    && n < |Line(s, a)| && Line(s, a)[n].Ours? && Line(s, a)[n].ok
    && Line(s, a)[n].tx.sender == a && Line(s, a)[n].tx.nonce == n
    && exists i :: 0 <= i < |s.rows| && Of(s.rows[i], payload, key) && s.rows[i].tx == Line(s, a)[n].tx
  }

  lemma OnePayment(s: State, i: nat, j: nat)
    requires Inv(s) && OwnBytes(s) && i < |s.rows| && j < |s.rows| && Same(s.rows[i], s.rows[j])
    requires Landed(s, s.rows[i].tx) && (Landed(s, s.rows[j].tx) || CanMine(s, s.rows[j].tx))
    ensures s.rows[i].tx == s.rows[j].tx
  {
    assert Carried(s, i) && Carried(s, j);
    var a :| 0 <= a < |s.rows| && Live(s.rows[a]) && s.rows[a].tx == s.rows[i].tx;
    var b :| 0 <= b < |s.rows| && Live(s.rows[b]) && s.rows[b].tx == s.rows[j].tx;
  }

  // ------------------------------------------------------------------ every event keeps it

  /** Only statuses moved, the index still holds, and every transaction that matters kept a live row. */
  lemma StatusKeeps(s: State, t: State)
    requires Inv(s) && t.pool == s.pool && t.lines == s.lines && |t.rows| == |s.rows| && Indexed(t.rows)
    requires forall i :: 0 <= i < |s.rows| ==> t.rows[i] == s.rows[i].(status := t.rows[i].status)
    requires forall i {:trigger Carried(t, i)} ::
      (0 <= i < |s.rows| && (Landed(s, s.rows[i].tx) || CanMine(s, s.rows[i].tx))) ==> Carried(t, i)
    ensures Inv(t)
  {
    forall tx
      ensures IsMined(t, tx) == IsMined(s, tx) && Landed(t, tx) == Landed(s, tx) && CanMine(t, tx) == CanMine(s, tx)
    {
    }
    forall tx | tx in t.pool ensures exists i :: 0 <= i < |t.rows| && t.rows[i].tx == tx {
      var i :| 0 <= i < |s.rows| && s.rows[i].tx == tx;
      assert t.rows[i].tx == tx;
    }
  }

  /** A row may become (or stay) live whenever the index admits it. */
  lemma LiveKeeps(s: State, i: nat, status: Status)
    requires Inv(s) && i < |s.rows| && Admits(s.rows, i) && status != Failed
    ensures Inv(Set(s, i, status))
  {
    var t := Set(s, i, status);
    forall k | 0 <= k < |s.rows| && (Landed(s, s.rows[k].tx) || CanMine(s, s.rows[k].tx)) ensures Carried(t, k) {
      assert Carried(s, k);
      var j :| 0 <= j < |s.rows| && Live(s.rows[j]) && s.rows[j].tx == s.rows[k].tx;
      assert Live(t.rows[j]) && t.rows[j].tx == s.rows[j].tx;
    }
    StatusKeeps(s, t);
  }

  /** Giving this row up leaves its transaction dead, or with another live row, or with what live row it had. */
  predicate GivesUpSafely(s: State, i: nat)
    requires i < |s.rows|
  {
    !Live(s.rows[i]) || HeldElsewhere(s, i) || (!Landed(s, s.rows[i].tx) && !CanMine(s, s.rows[i].tx))
  }

  /** Giving a row up is safe exactly then. */
  lemma GiveUpSafeIff(s: State, i: nat)
    requires Inv(s) && i < |s.rows|
    ensures Inv(Set(s, i, Failed)) <==> GivesUpSafely(s, i)
  {
    var t := Set(s, i, Failed);
    if GivesUpSafely(s, i) {
      forall k | 0 <= k < |s.rows| && (Landed(s, s.rows[k].tx) || CanMine(s, s.rows[k].tx)) ensures Carried(t, k) {
        KeptElsewhere(s, t, i, k);
      }
      StatusKeeps(s, t);
    } else {
      assert Landed(t, t.rows[i].tx) || CanMine(t, t.rows[i].tx);
      assert !Carried(t, i);
    }
  }

  lemma KeptElsewhere(s: State, t: State, i: nat, k: nat)
    requires Inv(s) && i < |s.rows| && GivesUpSafely(s, i) && k < |s.rows|
    requires Landed(s, s.rows[k].tx) || CanMine(s, s.rows[k].tx)
    requires |t.rows| == |s.rows| && forall j :: 0 <= j < |s.rows| ==>
      t.rows[j].tx == s.rows[j].tx && (j != i && Live(s.rows[j]) ==> Live(t.rows[j]))
    ensures Carried(t, k)
  {
    assert Carried(s, k);
    var j :| 0 <= j < |s.rows| && Live(s.rows[j]) && s.rows[j].tx == s.rows[k].tx;
    if j == i {
      var c :| 0 <= c < |s.rows| && c != i && Live(s.rows[c]) && s.rows[c].tx == s.rows[i].tx;
      assert Live(t.rows[c]) && t.rows[c].tx == t.rows[k].tx;
    } else {
      assert Live(t.rows[j]) && t.rows[j].tx == t.rows[k].tx;
    }
  }

  /** On its mined nonce: exactly when its own transaction is not what landed there, or another live row holds it. */
  lemma ExpireSafeIff(s: State, i: nat)
    requires Inv(s) && i < |s.rows| && Live(s.rows[i]) && Consumed(s, s.rows[i].tx)
    ensures Inv(Set(s, i, Failed)) <==> HeldElsewhere(s, i) || !Landed(s, s.rows[i].tx)
  {
    GiveUpSafeIff(s, i);
  }

  /** Retiring `i` and confirming the landed `k` in one commit: safe exactly when `i` may go, or shares `k`'s bytes. */
  lemma FlipSafeIff(s: State, i: nat, k: nat)
    requires Inv(s) && i < |s.rows| && CanFlip(s, i, k)
    ensures Inv(Set(Set(s, i, Failed), k, Confirmed)) <==> GivesUpSafely(s, i) || s.rows[k].tx == s.rows[i].tx
  {
    var t := Set(Set(s, i, Failed), k, Confirmed);
    if GivesUpSafely(s, i) || s.rows[k].tx == s.rows[i].tx {
      forall m | 0 <= m < |s.rows| && (Landed(s, s.rows[m].tx) || CanMine(s, s.rows[m].tx)) ensures Carried(t, m) {
        FlipCarries(s, t, i, k, m);
      }
      StatusKeeps(s, t);
    } else {
      assert Landed(t, t.rows[i].tx) || CanMine(t, t.rows[i].tx);
      assert !Carried(t, i);
    }
  }

  lemma FlipCarries(s: State, t: State, i: nat, k: nat, m: nat)
    requires Inv(s) && i < |s.rows| && CanFlip(s, i, k) && m < |s.rows|
    requires GivesUpSafely(s, i) || s.rows[k].tx == s.rows[i].tx
    requires Landed(s, s.rows[m].tx) || CanMine(s, s.rows[m].tx)
    requires t == Set(Set(s, i, Failed), k, Confirmed)
    ensures Carried(t, m)
  {
    if s.rows[k].tx == s.rows[m].tx {
      assert Live(t.rows[k]) && t.rows[k].tx == t.rows[m].tx;
    } else if GivesUpSafely(s, i) {
      KeptElsewhere(s, t, i, m);
    } else {
      assert Carried(s, m);
      var j :| 0 <= j < |s.rows| && Live(s.rows[j]) && s.rows[j].tx == s.rows[m].tx;
      assert j != i && Live(t.rows[j]) && t.rows[j].tx == t.rows[m].tx;
    }
  }

  lemma RecordKeeps(h: Hyp, s: State, row: Row)
    requires Inv(s) && Enabled(h, s, Record(row))
    ensures Inv(Next(h, s, Record(row)))
  {
    var t := Next(h, s, Record(row));
    forall tx
      ensures IsMined(t, tx) == IsMined(s, tx) && Landed(t, tx) == Landed(s, tx) && CanMine(t, tx) == CanMine(s, tx)
    {
    }
    forall tx | tx in t.pool ensures exists i :: 0 <= i < |t.rows| && t.rows[i].tx == tx {
      var i :| 0 <= i < |s.rows| && s.rows[i].tx == tx;
      assert t.rows[i].tx == tx;
    }
    forall k | 0 <= k < |t.rows| && (Landed(t, t.rows[k].tx) || CanMine(t, t.rows[k].tx)) ensures Carried(t, k) {
      if k < |s.rows| {
        assert t.rows[k] == s.rows[k] && Carried(s, k);
        var j :| 0 <= j < |s.rows| && Live(s.rows[j]) && s.rows[j].tx == s.rows[k].tx;
        assert t.rows[j] == s.rows[j];
      } else {
        assert Live(t.rows[k]);
      }
    }
  }

  /** Broadcasting a row keeps the invariant if and only if its nonce is mined or a live row holds its bytes. */
  lemma BroadcastSafeIff(h: Hyp, s: State, i: nat)
    requires Inv(s) && Enabled(h, s, Broadcast(i))
    ensures Inv(Next(h, s, Broadcast(i))) <==> Steady(s, i)
  {
    if Steady(s, i) {
      BroadcastKeeps(s, i);
    } else {
      var t := Next(h, s, Broadcast(i));
      assert CanMine(t, t.rows[i].tx) && !Carried(t, i);
    }
  }

  lemma BroadcastKeeps(s: State, i: nat)
    requires Inv(s) && i < |s.rows| && Steady(s, i)
    ensures Inv(s.(pool := s.pool + {s.rows[i].tx}))
  {
    var t := s.(pool := s.pool + {s.rows[i].tx});
    forall tx ensures IsMined(t, tx) == IsMined(s, tx) && Landed(t, tx) == Landed(s, tx) {
    }
    forall tx | tx in t.pool ensures exists j :: 0 <= j < |t.rows| && t.rows[j].tx == tx {
      if tx in s.pool {
        var j :| 0 <= j < |s.rows| && s.rows[j].tx == tx;
        assert t.rows[j].tx == tx;
      } else {
        assert t.rows[i].tx == tx;
      }
    }
    forall k | 0 <= k < |t.rows| && (Landed(t, t.rows[k].tx) || CanMine(t, t.rows[k].tx)) ensures Carried(t, k) {
      var c := if Landed(s, s.rows[k].tx) || CanMine(s, s.rows[k].tx) then k else i;
      assert s.rows[c].tx == s.rows[k].tx && Carried(s, c);
      var j :| 0 <= j < |s.rows| && Live(s.rows[j]) && s.rows[j].tx == s.rows[c].tx;
      assert Live(t.rows[j]) && t.rows[j].tx == t.rows[k].tx;
    }
  }

  lemma MineKeeps(h: Hyp, s: State, e: Event)
    requires Inv(s) && Enabled(h, s, e) && (e.Mine? || e.MineForeign?)
    ensures Inv(Next(h, s, e))
  {
    var t := Next(h, s, e);
    forall tx ensures IsMined(t, tx) ==> IsMined(s, tx) || (e.Mine? && tx == e.tx) {
    }
    forall tx ensures (Landed(t, tx) || CanMine(t, tx)) ==> Landed(s, tx) || CanMine(s, tx) {
    }
    forall k | 0 <= k < |t.rows| && (Landed(t, t.rows[k].tx) || CanMine(t, t.rows[k].tx)) ensures Carried(t, k) {
      assert Carried(s, k);
    }
  }

  ghost predicate Trusted(h: Hyp) {
    h.currentReceipts && h.refusalFinal && h.steadyBytes
  }

  lemma StepKeeps(h: Hyp, s: State, e: Event)
    requires Inv(s) && Trusted(h) && Enabled(h, s, e)
    ensures Inv(Next(h, s, e))
  {
    StepSafeIff(h, s, e);
  }

  // ------------------------------------------------------------------ runs

  predicate Initial(s: State) {
    && s.rows == [] && s.pool == {}
    && forall a :: a in s.lines ==> forall n :: 0 <= n < |s.lines[a]| ==> s.lines[a][n] == Foreign
  }

  predicate Run(h: Hyp, es: seq<Event>, ss: seq<State>) {
    && |ss| == |es| + 1 && Initial(ss[0])
    && forall i :: 0 <= i < |es| ==> Enabled(h, ss[i], es[i]) && ss[i + 1] == Next(h, ss[i], es[i])
  }

  lemma {:induction false} RunInv(h: Hyp, es: seq<Event>, ss: seq<State>, k: nat)
    requires Run(h, es, ss) && Trusted(h) && k < |ss|
    ensures Inv(ss[k])
    decreases k
  {
    if k > 0 {
      RunInv(h, es, ss, k - 1);
      StepKeeps(h, ss[k - 1], es[k - 1]);
    }
  }

  /** What a step must leave: held bytes for a broadcast, and a safe loss for a row that is given up. */
  predicate Safe(s: State, e: Event) {
    match e
    case Broadcast(i) => i < |s.rows| ==> Steady(s, i)
    case Revert(i) => i < |s.rows| ==> GivesUpSafely(s, i)
    case Expire(i) => i < |s.rows| ==> GivesUpSafely(s, i)
    case Refuse(i) => i < |s.rows| ==> GivesUpSafely(s, i)
    case RetireLow(i, flip) => i < |s.rows| ==>
      (GivesUpSafely(s, i) || (flip.Some? && flip.value < |s.rows| && s.rows[flip.value].tx == s.rows[i].tx))
    case _ => true
  }

  /** One event, under no hypothesis at all: it keeps the invariant if and only if it is safe. */
  lemma StepSafeIff(h: Hyp, s: State, e: Event)
    requires Inv(s) && Enabled(h, s, e)
    ensures Inv(Next(h, s, e)) <==> Safe(s, e)
  {
    if e.Record? {
      RecordKeeps(h, s, e.row);
    } else if e.Broadcast? {
      BroadcastSafeIff(h, s, e.i);
    } else if e.MarkSent? {
      LiveKeeps(s, e.i, Sent);
    } else if e.Confirm? {
      LiveKeeps(s, e.i, Confirmed);
    } else if e.Revert? || e.Expire? || e.Refuse? || (e.RetireLow? && e.flip == None) {
      GiveUpSafeIff(s, e.i);
    } else if e.RetireLow? {
      FlipSafeIff(s, e.i, e.flip.value);
    } else if e.Flip? {
      LiveKeeps(s, e.k, Confirmed);
    } else {
      MineKeeps(h, s, e);
    }
  }

  ghost predicate AllSafe(es: seq<Event>, ss: seq<State>, n: nat)
    requires n <= |es| && n <= |ss|
  {
    forall i :: 0 <= i < n ==> Safe(ss[i], es[i])
  }

  /** Over any run, under no hypothesis, the invariant holds in every state if and only if every step was safe. */
  lemma {:induction false} InvariantIffSafe(h: Hyp, es: seq<Event>, ss: seq<State>, n: nat)
    requires Run(h, es, ss) && n <= |es|
    ensures AllInv(ss, n) <==> AllSafe(es, ss, n)
    decreases n
  {
    if n > 0 {
      InvariantIffSafe(h, es, ss, n - 1);
      assert AllInv(ss, n) <==> AllInv(ss, n - 1) && Inv(ss[n]);
      assert AllSafe(es, ss, n) <==> AllSafe(es, ss, n - 1) && Safe(ss[n - 1], es[n - 1]);
      if Inv(ss[n - 1]) {
        StepSafeIff(h, ss[n - 1], es[n - 1]);
      }
    }
  }

  /** One event, the flag on rebroadcasts not needed: exactly an unsteady broadcast breaks the invariant. */
  lemma StepSteadyIff(h: Hyp, s: State, e: Event)
    requires Inv(s) && h.currentReceipts && h.refusalFinal && Enabled(h, s, e)
    ensures Inv(Next(h, s, e)) <==> !Unsteady(s, e)
  {
    if e.Broadcast? {
      BroadcastSafeIff(h, s, e.i);
    } else {
      var g := h.(steadyBytes := true);
      assert Enabled(g, s, e) && Next(g, s, e) == Next(h, s, e);
      StepKeeps(g, s, e);
    }
  }

  predicate Unsteady(s: State, e: Event) {
    e.Broadcast? && e.i < |s.rows| && !Steady(s, e.i)
  }

  ghost predicate AllInv(ss: seq<State>, n: nat)
    requires n < |ss|
  {
    forall i :: 0 <= i <= n ==> Inv(ss[i])
  }

  ghost predicate AllSteady(es: seq<Event>, ss: seq<State>, n: nat)
    requires n <= |es| && n <= |ss|
  {
    forall i :: 0 <= i < n ==> !Unsteady(ss[i], es[i])
  }

  /** Without the flag on rebroadcasts, a run keeps the invariant throughout exactly when every broadcast was steady. */
  lemma {:induction false} InvariantIffSteady(h: Hyp, es: seq<Event>, ss: seq<State>, n: nat)
    requires Run(h, es, ss) && h.currentReceipts && h.refusalFinal && n <= |es|
    ensures AllInv(ss, n) <==> AllSteady(es, ss, n)
    decreases n
  {
    if n > 0 {
      InvariantIffSteady(h, es, ss, n - 1);
      assert AllInv(ss, n) <==> AllInv(ss, n - 1) && Inv(ss[n]);
      assert AllSteady(es, ss, n) <==> AllSteady(es, ss, n - 1) && !Unsteady(ss[n - 1], es[n - 1]);
      if Inv(ss[n - 1]) {
        StepSteadyIff(h, ss[n - 1], es[n - 1]);
      }
    }
  }

  /** The successful payments of a payload so far. */
  ghost function Payments(s: State, payload: nat): set<Tx> {
    set tx | tx in s.pool && Landed(s, tx) && tx.payload == payload
  }

  /** The keys under which a payload was requested and not given up. */
  function LiveKeys(s: State, payload: nat): set<nat> {
    set i | 0 <= i < |s.rows| && Live(s.rows[i]) && s.rows[i].payload == payload :: s.rows[i].key
  }

  /** A landed transaction of the payload is in `Payments`, and a live row of the payload holds it. */
  lemma PaymentHeld(s: State, tx: Tx)
    requires Inv(s) && Landed(s, tx)
    ensures tx in Payments(s, tx.payload)
    ensures exists j :: 0 <= j < |s.rows| && Live(s.rows[j]) && s.rows[j].payload == tx.payload && s.rows[j].tx == tx
  {
    var i :| 0 <= i < |s.rows| && s.rows[i].tx == tx;
    assert Carried(s, i);
    var j :| 0 <= j < |s.rows| && Live(s.rows[j]) && s.rows[j].tx == s.rows[i].tx;
  }

  /** Distinct payments are held under distinct keys. */
  lemma {:induction false} PaymentsCount(s: State, payload: nat, txs: set<Tx>, keys: set<nat>)
    requires Inv(s) && txs <= Payments(s, payload)
    requires forall j ::
      (0 <= j < |s.rows| && Live(s.rows[j]) && s.rows[j].payload == payload && s.rows[j].tx in txs) ==>
        s.rows[j].key in keys
    ensures |txs| <= |keys|
    decreases |txs|
  {
    if txs != {} {
      var tx :| tx in txs;
      PaymentHeld(s, tx);
      var j :| 0 <= j < |s.rows| && Live(s.rows[j]) && s.rows[j].payload == payload && s.rows[j].tx == tx;
      var key := s.rows[j].key;
      forall i | 0 <= i < |s.rows| && Live(s.rows[i]) && s.rows[i].payload == payload && s.rows[i].tx in txs - {tx}
        ensures s.rows[i].key in keys - {key}
      {
        assert Same(s.rows[i], s.rows[j]) ==> i == j;
      }
      PaymentsCount(s, payload, txs - {tx}, keys - {key});
    }
  }

  /**
   Over every run, a payload is never paid more often than there are keys under which it was requested and not given
   up, whatever bytes the keys share.
   */
  lemma PaymentsWithinKeys(h: Hyp, es: seq<Event>, ss: seq<State>, k: nat, payload: nat)
    requires Run(h, es, ss) && Trusted(h) && k < |ss|
    ensures |Payments(ss[k], payload)| <= |LiveKeys(ss[k], payload)|
  {
    RunInv(h, es, ss, k);
    PaymentsCount(ss[k], payload, Payments(ss[k], payload), LiveKeys(ss[k], payload));
  }

  /** Nor does it need any of the hypotheses, as long as every step so far was safe. */
  lemma SafePaysWithinKeys(h: Hyp, es: seq<Event>, ss: seq<State>, k: nat, payload: nat)
    requires Run(h, es, ss) && k <= |es| && AllSafe(es, ss, k)
    ensures |Payments(ss[k], payload)| <= |LiveKeys(ss[k], payload)|
  {
    InvariantIffSafe(h, es, ss, k);
    PaymentsCount(ss[k], payload, Payments(ss[k], payload), LiveKeys(ss[k], payload));
  }

  /** Bytes shared between two keys: one of the rows is live under another key than `key`. */
  predicate SharedAway(s: State, key: nat, tx: Tx) {
    exists j :: 0 <= j < |s.rows| && Live(s.rows[j]) && s.rows[j].tx == tx && s.rows[j].key != key
  }

  /** Two payments were signed for one key only if another key's live row holds the bytes of one of them. */
  lemma PaidTwiceShared(
    h: Hyp, es: seq<Event>, ss: seq<State>, k: nat, payload: nat, key: nat, a: nat, n: nat, b: nat, m: nat)
    requires Run(h, es, ss) && Trusted(h) && k < |ss|
    requires Paid(ss[k], payload, key, a, n) && Paid(ss[k], payload, key, b, m) && (a != b || n != m)
    ensures SharedAway(ss[k], key, Line(ss[k], a)[n].tx) || SharedAway(ss[k], key, Line(ss[k], b)[m].tx)
  {
    var s := ss[k];
    RunInv(h, es, ss, k);
    PaymentHeld(s, Line(s, a)[n].tx);
    PaymentHeld(s, Line(s, b)[m].tx);
    var i :| 0 <= i < |s.rows| && Live(s.rows[i]) && s.rows[i].payload == payload && s.rows[i].tx == Line(s, a)[n].tx;
    var j :| 0 <= j < |s.rows| && Live(s.rows[j]) && s.rows[j].payload == payload && s.rows[j].tx == Line(s, b)[m].tx;
    assert i != j;
    assert s.rows[i].key != key || s.rows[j].key != key;
  }

  lemma StepOwnBytes(h: Hyp, s: State, e: Event)
    requires OwnBytes(s) && h.ownBytes && Enabled(h, s, e)
    ensures OwnBytes(Next(h, s, e))
  {
    var t := Next(h, s, e);
    assert forall i :: 0 <= i < |s.rows| ==> t.rows[i].tx == s.rows[i].tx && t.rows[i].key == s.rows[i].key;
  }

  lemma {:induction false} RunOwnBytes(h: Hyp, es: seq<Event>, ss: seq<State>, k: nat)
    requires Run(h, es, ss) && h.ownBytes && k < |ss|
    ensures OwnBytes(ss[k])
    decreases k
  {
    if k > 0 {
      RunOwnBytes(h, es, ss, k - 1);
      StepOwnBytes(h, ss[k - 1], es[k - 1]);
    }
  }

  /** When keys share no bytes, at most one mined transaction ever pays a payload under one idempotency key. */
  lemma AtMostOnePayment(
    h: Hyp, es: seq<Event>, ss: seq<State>, k: nat, payload: nat, key: nat, a: nat, n: nat, b: nat, m: nat)
    requires Run(h, es, ss) && Trusted(h) && h.ownBytes && k < |ss|
    requires Paid(ss[k], payload, key, a, n) && Paid(ss[k], payload, key, b, m)
    ensures a == b && n == m
  {
    if a != b || n != m {
      PaidTwiceShared(h, es, ss, k, payload, key, a, n, b, m);
      RunOwnBytes(h, es, ss, k);
    }
  }

  /** Nor without the flag on rebroadcasts, as long as every broadcast so far was steady. */
  lemma SteadyPaysOnce(
    h: Hyp, es: seq<Event>, ss: seq<State>, k: nat, payload: nat, key: nat, a: nat, n: nat, b: nat, m: nat)
    requires Run(h, es, ss) && h.currentReceipts && h.refusalFinal && h.ownBytes && k <= |es| && AllSteady(es, ss, k)
    requires Paid(ss[k], payload, key, a, n) && Paid(ss[k], payload, key, b, m)
    ensures a == b && n == m
  {
    InvariantIffSteady(h, es, ss, k);
    RunOwnBytes(h, es, ss, k);
    PaidOnce(ss[k], payload, key, a, n, b, m);
  }

  lemma PaidOnce(s: State, payload: nat, key: nat, a: nat, n: nat, b: nat, m: nat)
    requires Inv(s) && OwnBytes(s) && Paid(s, payload, key, a, n) && Paid(s, payload, key, b, m)
    ensures a == b && n == m
  {
    var i :| 0 <= i < |s.rows| && Of(s.rows[i], payload, key) && s.rows[i].tx == Line(s, a)[n].tx;
    var j :| 0 <= j < |s.rows| && Of(s.rows[j], payload, key) && s.rows[j].tx == Line(s, b)[m].tx;
    OnePayment(s, i, j);
  }

  /** A retry is recorded only when no earlier transaction of its payload and key landed or can, bar shared bytes. */
  lemma RetryOnlyWhenDead(h: Hyp, es: seq<Event>, ss: seq<State>, k: nat, i: nat)
    requires Run(h, es, ss) && Trusted(h) && k < |es| && es[k].Record?
    requires i < |ss[k].rows| && Same(ss[k].rows[i], es[k].row)
    ensures var tx := ss[k].rows[i].tx;
      Landed(ss[k], tx) || CanMine(ss[k], tx) ==> SharedAway(ss[k], es[k].row.key, tx)
  {
    RunInv(h, es, ss, k);
    var s := ss[k];
    if Landed(s, s.rows[i].tx) || CanMine(s, s.rows[i].tx) {
      assert Carried(s, i);
      var j :| 0 <= j < |s.rows| && Live(s.rows[j]) && s.rows[j].tx == s.rows[i].tx;
      assert !Same(s.rows[j], es[k].row);
    }
  }

  // ------------------------------------------------------------------ where it fails

  ghost predicate Reachable(h: Hyp, s: State) {
    exists es, ss :: Run(h, es, ss) && ss[|es|] == s
  }

  lemma Starts(h: Hyp)
    ensures Reachable(h, State([], {}, map[]))
  {
    var es: seq<Event>, ss := [], [State([], {}, map[])];
    assert Run(h, es, ss) && ss[|es|] == State([], {}, map[]);
  }

  lemma Extend(h: Hyp, s: State, e: Event)
    requires Reachable(h, s) && Enabled(h, s, e)
    ensures Reachable(h, Next(h, s, e))
  {
    var es, ss :| Run(h, es, ss) && ss[|es|] == s;
    assert Run(h, es + [e], ss + [Next(h, s, e)]) && (ss + [Next(h, s, e)])[|es + [e]|] == Next(h, s, e);
  }

  const FIRST := Tx(1, 0, 7, 0)
  const OTHER := Tx(1, 0, 8, 0)
  const AGAIN := Tx(1, 1, 7, 0)
  const GIVEN_UP := Row(7, 0, FIRST, Failed, 0)

  lemma Recorded(h: Hyp)
    ensures Reachable(h, State([Row(7, 0, FIRST, Sending, 0)], {}, map[]))
  {
    Starts(h);
    Extend(h, State([], {}, map[]), Record(Row(7, 0, FIRST, Sending, 0)));
  }

  /** The retry: recorded, broadcast and mined after the first. */
  lemma RetryMined(h: Hyp, s: State) returns (t: State)
    requires Reachable(h, s) && s.lines == map[1 := [Ours(FIRST, true)]] && FIRST in s.pool
    requires |s.rows| > 0 && s.rows[0] == GIVEN_UP
    requires forall j :: 0 < j < |s.rows| ==> !Of(s.rows[j], 7, 0) && s.rows[j].tx != AGAIN
    ensures Reachable(h, t) && Paid(t, 7, 0, 1, 0) && Paid(t, 7, 0, 1, 1)
    ensures s.rows <= t.rows && Line(t, 1) == [Ours(FIRST, true), Ours(AGAIN, true)]
  {
    var row := Row(7, 0, AGAIN, Sending, 0);
    Extend(h, s, Record(row));
    var a := s.(rows := s.rows + [row]);
    var n := |s.rows|;
    assert a.rows[n] == row;
    Extend(h, a, Broadcast(n));
    var b := a.(pool := a.pool + {AGAIN});
    Extend(h, b, Mine(AGAIN, true));
    t := Next(h, b, Mine(AGAIN, true));
    assert Line(t, 1) == [Ours(FIRST, true), Ours(AGAIN, true)];
    BothPaid(t, n);
  }

  lemma BothPaid(t: State, n: nat)
    requires Line(t, 1) == [Ours(FIRST, true), Ours(AGAIN, true)]
    requires n < |t.rows| && t.rows[0] == GIVEN_UP && t.rows[n] == Row(7, 0, AGAIN, Sending, 0)
    ensures Paid(t, 7, 0, 1, 0) && Paid(t, 7, 0, 1, 1)
  {
    assert t.rows[0].tx == FIRST && t.rows[n].tx == AGAIN;
  }

  /** A receipt that lags past the resubmit window: the row is given up after it landed, and the retry pays again. */
  lemma LateReceiptPaysTwice(h: Hyp) returns (s: State)
    requires !h.currentReceipts
    ensures Reachable(h, s) && Paid(s, 7, 0, 1, 0) && Paid(s, 7, 0, 1, 1)
  {
    var row := Row(7, 0, FIRST, Sending, 0);
    Recorded(h);
    Extend(h, State([row], {}, map[]), Broadcast(0));
    var a := State([row], {} + {FIRST}, map[]);
    Extend(h, a, Mine(FIRST, true));
    var b := State([row], {FIRST}, map[1 := [Ours(FIRST, true)]]);
    assert Line(a, 1) + [Ours(FIRST, true)] == [Ours(FIRST, true)];
    assert b == Next(h, a, Mine(FIRST, true));
    Extend(h, b, Expire(0));
    s := RetryMined(h, State([GIVEN_UP], {FIRST}, map[1 := [Ours(FIRST, true)]]));
  }

  /**
   A request is refused, gives its row up and hands its nonce back, which another distribution takes; a concurrent
   request that still saw the row sending rebroadcasts its bytes, and they win the nonce. The retry, on the next
   nonce, pays a second time.
   */
  lemma LateRebroadcastPaysTwice(h: Hyp) returns (s: State)
    requires !h.steadyBytes
    ensures Reachable(h, s) && Paid(s, 7, 0, 1, 0) && Paid(s, 7, 0, 1, 1)
  {
    var row, other := Row(7, 0, FIRST, Sending, 0), Row(8, 0, OTHER, Sending, 0);
    Recorded(h);
    Extend(h, State([row], {}, map[]), Refuse(0));
    Extend(h, State([GIVEN_UP], {}, map[]), Record(other));
    assert [GIVEN_UP] + [other] == [GIVEN_UP, other];
    Extend(h, State([GIVEN_UP, other], {}, map[]), Broadcast(0));
    var a := State([GIVEN_UP, other], {} + {FIRST}, map[]);
    Extend(h, a, Mine(FIRST, true));
    var b := State([GIVEN_UP, other], {FIRST}, map[1 := [Ours(FIRST, true)]]);
    assert Line(a, 1) + [Ours(FIRST, true)] == [Ours(FIRST, true)];
    assert b == Next(h, a, Mine(FIRST, true));
    s := RetryMined(h, b);
  }

  /** A node that refuses bytes it then keeps: the row is given up, the bytes mine, and the retry pays again. */
  lemma RefusedBytesPayTwice(h: Hyp) returns (s: State)
    requires !h.refusalFinal
    ensures Reachable(h, s) && Paid(s, 7, 0, 1, 0) && Paid(s, 7, 0, 1, 1)
  {
    var row := Row(7, 0, FIRST, Sending, 0);
    Recorded(h);
    Extend(h, State([row], {}, map[]), Broadcast(0));
    var a := State([row], {} + {FIRST}, map[]);
    Extend(h, a, Refuse(0));
    var b := State([GIVEN_UP], {FIRST}, map[]);
    assert b == Next(h, a, Refuse(0));
    Extend(h, b, Mine(FIRST, true));
    assert Line(b, 1) + [Ours(FIRST, true)] == [Ours(FIRST, true)];
    s := RetryMined(h, State([GIVEN_UP], {FIRST}, map[1 := [Ours(FIRST, true)]]));
  }

  /**
   A payload is refused under one key and requested under another, which takes the returned nonce at the same fee: the
   same bytes. One landing then satisfies both keys, and a retry of the first key pays a second time: two payments for
   two keys, both signed for the first one.
   */
  lemma SharedKeysPayTwice(h: Hyp) returns (s: State)
    requires !h.ownBytes
    ensures Reachable(h, s) && Paid(s, 7, 0, 1, 0) && Paid(s, 7, 1, 1, 0) && Paid(s, 7, 0, 1, 1)
  {
    var row, twin := Row(7, 0, FIRST, Sending, 0), Row(7, 1, FIRST, Sending, 0);
    Recorded(h);
    Extend(h, State([row], {}, map[]), Refuse(0));
    Extend(h, State([GIVEN_UP], {}, map[]), Record(twin));
    assert [GIVEN_UP] + [twin] == [GIVEN_UP, twin];
    var a := State([GIVEN_UP, twin], {}, map[]);
    assert Live(a.rows[1]) && a.rows[1].tx == FIRST;
    Extend(h, a, Broadcast(1));
    var b := State([GIVEN_UP, twin], {} + {FIRST}, map[]);
    Extend(h, b, Mine(FIRST, true));
    assert Line(b, 1) + [Ours(FIRST, true)] == [Ours(FIRST, true)];
    var c := State([GIVEN_UP, twin], {FIRST}, map[1 := [Ours(FIRST, true)]]);
    assert c == Next(h, b, Mine(FIRST, true));
    s := TwinMined(h, c, twin);
  }

  lemma TwinMined(h: Hyp, c: State, twin: Row) returns (s: State)
    requires twin == Row(7, 1, FIRST, Sending, 0) && Reachable(h, c)
    requires c == State([GIVEN_UP, twin], {FIRST}, map[1 := [Ours(FIRST, true)]])
    ensures Reachable(h, s) && Paid(s, 7, 0, 1, 0) && Paid(s, 7, 1, 1, 0) && Paid(s, 7, 0, 1, 1)
  {
    s := RetryMined(h, c);
    assert s.rows[1] == twin && Of(s.rows[1], 7, 1);
  }

  // ------------------------------------------------------------------ the route

  predicate Path(h: Hyp, s: State, es: seq<Event>, t: State)
    decreases |es|
  {
    if es == [] then s == t else Enabled(h, s, es[0]) && Path(h, Next(h, s, es[0]), es[1..], t)
  }

  lemma {:induction false} PathAppend(h: Hyp, s: State, es: seq<Event>, t: State, e: Event)
    requires Path(h, s, es, t) && Enabled(h, t, e)
    ensures Path(h, s, es + [e], Next(h, t, e))
    decreases |es|
  {
    if es == [] {
      assert [e][1..] == [];
    } else {
      PathAppend(h, Next(h, s, es[0]), es[1..], t, e);
      assert (es + [e])[1..] == es[1..] + [e];
    }
  }

  /**
   Whether bytes are shared between keys is a fact of a run, not of a step. `late` says that some rebroadcast was not
   steady: the run is then one of the machine without that flag, and `InvariantIffSteady` applies to it.
   */
  function Mode(h: Hyp, late: bool): Hyp {
    h.(ownBytes := false, steadyBytes := h.steadyBytes && !late)
  }

  lemma {:induction false} PathWeaken(h: Hyp, s: State, es: seq<Event>, t: State)
    requires Path(h, s, es, t)
    ensures Path(h.(steadyBytes := false), s, es, t)
    decreases |es|
  {
    if es != [] {
      assert Next(h.(steadyBytes := false), s, es[0]) == Next(h, s, es[0]);
      PathWeaken(h, Next(h, s, es[0]), es[1..], t);
    }
  }

  datatype Reply = Taken | Known | TooLow | Underpriced | NoFunds | Reverts | Unclear

  /** Receipts the node shows, and its mined transaction counts; None or a missing sender is an RPC failure. */
  datatype View = View(receipts: Option<map<Tx, bool>>, latest: map<nat, nat>)

  datatype Response =
    | Already(i: nat)       // 409
    | Accepted(i: nat)      // 202, nothing signed
    | Distributed(i: nat)   // 200
    | Refused(i: nat)       // 502
    | PaidEarlier(i: nat)   // 200, duplicate
    | Uncertain(i: nat)     // 202
    | Conflict              // 409, retry
    | ServerError(i: nat)   // the unique index refused a status write; it was rolled back

  predicate Honest(h: Hyp, s: State, v: View) {
    && (v.receipts.Some? ==>
          forall tx :: tx in v.receipts.value ==> IsMined(s, tx) && v.receipts.value[tx] == Landed(s, tx))
    && (v.receipts.Some? && h.currentReceipts ==>
          forall i :: 0 <= i < |s.rows| && IsMined(s, s.rows[i].tx) ==> s.rows[i].tx in v.receipts.value)
    && (forall a :: a in v.latest ==> v.latest[a] <= |Line(s, a)|)
  }

  /** The node shows a nonce mined past this transaction's. */
  predicate MinedPast(tx: Tx, v: View) {
    tx.sender in v.latest && v.latest[tx.sender] > tx.nonce
  }

  /** Status of a row after _refresh. */
  function Refreshed(row: Row, v: View, window: nat, now: int): Status {
    if row.status == Confirmed || row.status == Failed || v.receipts == None then row.status
    else if row.tx in v.receipts.value then (if v.receipts.value[row.tx] then Confirmed else Failed)
    else if now - row.sentAt >= window && MinedPast(row.tx, v) then Failed
    else row.status
  }

  /** Rows are only added, and keep everything but their status. */
  ghost predicate Later(was: seq<Row>, now: seq<Row>) {
    |was| <= |now| && forall i :: 0 <= i < |was| ==> now[i] == was[i].(status := now[i].status)
  }

  lemma HonestLater(h: Hyp, s: State, t: State, v: View)
    requires Honest(h, s, v) && t.lines == s.lines && Later(s.rows, t.rows) && |t.rows| == |s.rows|
    ensures Honest(h, t, v)
  {
  }

  /** No live row of this payload and key. */
  ghost predicate NoneLive(rows: seq<Row>, payload: nat, key: nat) {
    forall j :: 0 <= j < |rows| && rows[j].payload == payload && rows[j].key == key ==> rows[j].status == Failed
  }

  /** A row after the route looked for a live one: those of this payload and key have moved on from chain state. */
  function MovedOn(row: Row, payload: nat, key: nat, v: View, window: nat, now: int): Row {
    if row.payload == payload && row.key == key then row.(status := Refreshed(row, v, window, now)) else row
  }

  /** A receipt shows that row `k`, failed or about to be with `i`, paid this payload under this key. */
  predicate Proven(rows: seq<Row>, i: nat, v: View, k: nat)
    requires i < |rows| && k < |rows|
  {
    && rows[k].payload == rows[i].payload && rows[k].key == rows[i].key && (k == i || rows[k].status == Failed)
    && v.receipts.Some? && rows[k].tx in v.receipts.value && v.receipts.value[rows[k].tx]
  }

  /** `k` is the newest such row; None when there is none. */
  ghost predicate Newest(rows: seq<Row>, i: nat, v: View, k: Option<nat>)
    requires i < |rows|
  {
    && (k.Some? ==> k.value < |rows| && Proven(rows, i, v, k.value))
    && forall m :: (if k.Some? then k.value + 1 else 0) <= m < |rows| ==> !Proven(rows, i, v, m)
  }

  /** No third row of this payload and key is live. */
  ghost predicate NoThird(rows: seq<Row>, i: nat, k: nat)
    requires i < |rows|
  {
    forall j :: 0 <= j < |rows| && j != i && j != k && rows[j].payload == rows[i].payload && rows[j].key == rows[i].key
      ==> rows[j].status == Failed
  }

  /** The table, the pool and the response after the node's answer to the first broadcast of row `i`. */
  ghost predicate Ended(s: State, t: State, i: nat, reply: Reply, look: View, resp: Response) {
    i < |s.rows| &&
    var pooled := s.(pool := s.pool + {s.rows[i].tx});
    match reply
    case NoFunds => t == Set(s, i, Failed) && resp == Refused(i)
    case Reverts => t == Set(s, i, Failed) && resp == Refused(i)
    case Unclear => t == pooled && resp == Uncertain(i)
    case TooLow => Superseded(s, t, i, look, resp)
    case Underpriced => Superseded(s, t, i, look, resp)
    case _ => if Admits(s.rows, i) then t == Set(pooled, i, Sent) && resp == Distributed(i)
              else t == pooled && resp == ServerError(i)
  }

  /** Retired; and when a row of the payload did mine, that one is confirmed, unless a third row is live. */
  ghost predicate Superseded(s: State, t: State, i: nat, look: View, resp: Response)
    requires i < |s.rows|
  {
    exists k :: Newest(s.rows, i, look, k) && SupersededBy(s, t, i, k, resp)
  }

  ghost predicate SupersededBy(s: State, t: State, i: nat, k: Option<nat>, resp: Response)
    requires i < |s.rows| && (k.Some? ==> k.value < |s.rows|)
  {
    if k == None then t == Set(s, i, Failed) && resp == Refused(i)
    else if NoThird(s.rows, i, k.value)
    then t == Set(Set(s, i, Failed), k.value, Confirmed) && resp == PaidEarlier(k.value)
    else t == s && resp == ServerError(i)
  }

  /** A row that mined can be confirmed in place of a retired one exactly when no third row is live. */
  lemma FlipIffNoThird(s: State, i: nat, k: nat)
    requires i < |s.rows| && k < |s.rows| && Same(s.rows[k], s.rows[i]) && (k == i || s.rows[k].status == Failed)
    requires Landed(s, s.rows[k].tx)
    ensures CanFlip(s, i, k) <==> NoThird(s.rows, i, k)
  {
  }

  /** In flight under this sender: the rows the nonce floor counts. */
  predicate Holds(row: Row, sender: nat) {
    (row.status == Sending || row.status == Sent) && row.tx.sender == sender
  }

  function DistNonces(rows: seq<Row>, sender: nat): set<nat> {
    set i | 0 <= i < |rows| && Holds(rows[i], sender) :: rows[i].tx.nonce
  }

  class Distributor {
    var rows: seq<Row>
    var pool: set<Tx>
    var lines: map<nat, seq<Mined>>
    const nm: Nonce.NonceManager
    const window: nat
    ghost const h: Hyp
    /** Nobody else runs while this request waits. */
    ghost const quiet: bool
    /** Some rebroadcast so far was not steady. */
    ghost var late: bool

    function Snap(): State
      reads this
    {
      State(rows, pool, lines)
    }

    constructor (nm: Nonce.NonceManager, window: nat, ghost h: Hyp, ghost quiet: bool)
      ensures Valid() && Initial(Snap()) && this.nm == nm && this.window == window && this.h == h && !late
      ensures this.quiet == quiet
    {
      this.nm, this.window, this.h, this.quiet, this.late := nm, window, h, quiet, false;
      rows, pool, lines := [], {}, map[];
    }

    /** What the database enforces, and what every insert writes. */
    ghost predicate Valid()
      reads this
    {
      Indexed(rows) && forall i :: 0 <= i < |rows| ==> rows[i].tx.payload == rows[i].payload
    }

    /** The trail so far: machine events from `s0` to the current tables. */
    ghost predicate On(s0: State, es: seq<Event>)
      reads this
    {
      Path(Mode(h, late), s0, es, Snap())
    }

    /** Other requests, instances and the chain. */
    method Others(ghost s0: State, ghost es0: seq<Event>) returns (ghost es: seq<Event>)
      requires Valid() && On(s0, es0)
      modifies this
      ensures Valid() && On(s0, es) && Later(old(rows), rows)
      ensures quiet ==> Snap() == old(Snap())
    {
      es := es0;
    }

    /** Until the nonce lock is taken, the worker and other requests may move the allocator in any way. */
    method OtherSenders()
      modifies nm
    {
    }

    /** One look at the node: it may fail, and without `currentReceipts` it may miss receipts. */
    method Look() returns (v: View)
      ensures Honest(h, Snap(), v)
    {
      v := View(None, map[]);
    }

    /** The node's answer to a first broadcast. Under `refusalFinal` it only refuses bytes that nothing holds. */
    method Submit(tx: Tx, said: Reply) returns (reply: Reply)
      ensures h.refusalFinal && (reply == NoFunds || reply == Reverts || reply == Underpriced) ==> tx !in pool
      ensures reply == TooLow && h.refusalFinal ==> tx !in pool && !IsMined(Snap(), tx)
      ensures reply == if tx in pool || IsMined(Snap(), tx) then Known else said
    {
      reply := if tx in pool || IsMined(Snap(), tx) then Known else said;
    }

    /** One status write, which the unique index admits. */
    method Mark(i: nat, status: Status, ghost e: Event, ghost s0: State, ghost es0: seq<Event>)
      returns (ghost es: seq<Event>)
      requires Valid() && i < |rows| && On(s0, es0) && Enabled(Mode(h, late), Snap(), e)
      requires Next(Mode(h, late), Snap(), e) == Set(Snap(), i, status) && (status != Failed ==> Admits(rows, i))
      modifies this
      ensures Valid() && On(s0, es) && Snap() == Set(old(Snap()), i, status) && late == old(late)
    {
      PathAppend(Mode(h, late), s0, es0, Snap(), e);
      rows := rows[i := rows[i].(status := status)];
      es := es0 + [e];
    }

    method Refresh(i: nat, v: View, now: int, ghost s0: State, ghost es0: seq<Event>) returns (ghost es: seq<Event>)
      requires Valid() && i < |rows| && Honest(h, Snap(), v) && On(s0, es0)
      modifies this
      ensures Valid() && On(s0, es) && late == old(late)
      ensures Snap() == Set(old(Snap()), i, Refreshed(old(rows)[i], v, window, now))
    {
      es := es0;
      var row := rows[i];
      if (row.status == Sending || row.status == Sent) && v.receipts.Some? {
        if row.tx in v.receipts.value {
          if v.receipts.value[row.tx] {
            es := Mark(i, Confirmed, Confirm(i), s0, es);
          } else {
            es := Mark(i, Failed, Revert(i), s0, es);
          }
        } else if now - row.sentAt >= window && row.tx.sender in v.latest {
          if v.latest[row.tx.sender] > row.tx.nonce {
            es := Mark(i, Failed, Expire(i), s0, es);
          }
        }
      }
    }

    /** The live row of this payload and key, every such row first moved on from chain state. */
    method LiveRow(payload: nat, key: nat, v: View, now: int, ghost s0: State, ghost es0: seq<Event>)
      returns (live: Option<nat>, ghost es: seq<Event>)
      requires Valid() && Honest(h, Snap(), v) && On(s0, es0)
      modifies this
      ensures Valid() && On(s0, es) && Later(old(rows), rows) && |rows| == |old(rows)|
      ensures lines == old(lines) && pool == old(pool) && late == old(late)
      ensures live.Some? ==> live.value < |rows| && Live(rows[live.value]) && Of(rows[live.value], payload, key)
      ensures live == None <==> NoneLive(rows, payload, key)
      ensures live.Some? ==> forall j :: live.value < j < |rows| && Of(rows[j], payload, key) ==> !Live(rows[j])
      ensures forall i :: 0 <= i < |rows| ==> rows[i] == MovedOn(old(rows)[i], payload, key, v, window, now)
    {
      live, es := None, es0;
      for i := 0 to |rows|
        invariant Valid() && On(s0, es) && Later(old(rows), rows) && |rows| == |old(rows)|
        invariant forall j :: 0 <= j < i ==> rows[j] == MovedOn(old(rows)[j], payload, key, v, window, now)
        invariant forall j :: i <= j < |rows| ==> rows[j] == old(rows)[j]
        invariant live.Some? ==> forall j :: live.value < j < i && Of(rows[j], payload, key) ==> !Live(rows[j])
        invariant lines == old(lines) && pool == old(pool) && late == old(late) && Honest(h, Snap(), v)
        invariant live.Some? ==> live.value < i && Live(rows[live.value]) && Of(rows[live.value], payload, key)
        invariant live == None ==> forall j :: 0 <= j < i && Of(rows[j], payload, key) ==> !Live(rows[j])
      {
        if Of(rows[i], payload, key) && Live(rows[i]) {
          ghost var s := Snap();
          es := Refresh(i, v, now, s0, es);
          HonestLater(h, s, Snap(), v);
          if Live(rows[i]) {
            live := Some(i);
          }
        }
      }
    }

    /** A row's bytes reach a node. Exactly an unsteady broadcast leaves the machine with `steadyBytes`. */
    method SendRaw(i: nat, ghost s0: State, ghost es0: seq<Event>) returns (ghost es: seq<Event>)
      requires Valid() && i < |rows| && On(s0, es0)
      modifies this
      ensures Valid() && On(s0, es) && Snap() == old(Snap()).(pool := old(pool) + {old(rows)[i].tx})
      ensures late == (old(late) || !old(Steady(Snap(), i)))
    {
      ghost var s := Snap();
      if !Steady(s, i) {
        PathWeaken(Mode(h, late), s0, es0, s);
        late := true;
      }
      PathAppend(Mode(h, late), s0, es0, s, Broadcast(i));
      pool := pool + {rows[i].tx};
      es := es0 + [Broadcast(i)];
    }

    /** `status = "sent"`, unless another live row of the payload has appeared meanwhile. */
    method MarkAsSent(i: nat, ghost s0: State, ghost es0: seq<Event>) returns (done: bool, ghost es: seq<Event>)
      requires Valid() && i < |rows| && On(s0, es0)
      modifies this
      ensures Valid() && On(s0, es) && late == old(late) && done == old(Admits(rows, i))
      ensures Snap() == if done then Set(old(Snap()), i, Sent) else old(Snap())
    {
      es := es0;
      done := Admits(rows, i);
      if done {
        es := Mark(i, Sent, MarkSent(i), s0, es);
      }
    }

    /** A repeat of a recorded distribution. The row was live when read; others run before its bytes go out again. */
    method Duplicate(i: nat, reply: Reply, ghost s0: State, ghost es0: seq<Event>)
      returns (resp: Response, ghost mid: State, ghost es: seq<Event>)
      requires Valid() && i < |rows| && Live(rows[i]) && On(s0, es0)
      modifies this
      ensures Valid() && On(s0, es) && Later(old(rows), rows)
      ensures resp == Already(i) <==> old(rows)[i].status == Confirmed
      ensures resp == Already(i) || resp == Accepted(i) || resp == ServerError(i)
      ensures resp == Already(i) || old(rows)[i].status == Sent ==> Snap() == old(Snap()) && late == old(late)
      ensures old(rows)[i].status == Sending && MayHold(reply) ==> old(rows)[i].tx in pool
      ensures resp == Accepted(i) && old(rows)[i].status == Sending && Pools(reply) ==> rows[i].status == Sent
      ensures Later(old(rows), mid.rows)
      ensures old(rows)[i].status == Sending ==>
        var sent := if MayHold(reply) then mid.(pool := mid.pool + {old(rows)[i].tx}) else mid;
        && resp == (if Pools(reply) && !Admits(mid.rows, i) then ServerError(i) else Accepted(i))
        && Snap() == if Pools(reply) && Admits(mid.rows, i) then Set(sent, i, Sent) else sent
      ensures Repeated(old(Snap()), Snap(), resp, reply) && resp.i == i
    {
      es, mid := es0, Snap();
      var read := rows[i].status;
      if read == Confirmed {
        resp := Already(i);
        return;
      }
      resp := Accepted(i);
      if read == Sending {
        es := Others(s0, es);
        mid := Snap();
        if MayHold(reply) {
          es := SendRaw(i, s0, es);
        }
        if Pools(reply) {
          var done;
          done, es := MarkAsSent(i, s0, es);
          resp := if done then Accepted(i) else ServerError(i);
        }
      }
    }

    /** The newest failed row of the payload (row `i` counted as failed) whose transaction did mine after all. */
    method MinedEarlier(i: nat, v: View) returns (k: Option<nat>)
      requires i < |rows| && Honest(h, Snap(), v)
      ensures k.Some? ==> k.value < |rows| && Same(rows[k.value], rows[i]) && Lost(k.value, i)
      ensures k.Some? ==> Landed(Snap(), rows[k.value].tx)
      ensures k == None && v.receipts.Some? && h.currentReceipts ==>
        forall j :: 0 <= j < |rows| && Same(rows[j], rows[i]) && Lost(j, i) ==> !Landed(Snap(), rows[j].tx)
      ensures Newest(rows, i, v, k)
    {
      k := None;
      if v.receipts == None {
        return;
      }
      for j := |rows| downto 0
        invariant h.currentReceipts ==>
          forall m :: j <= m < |rows| && Same(rows[m], rows[i]) && Lost(m, i) ==> !Landed(Snap(), rows[m].tx)
        invariant forall m :: j <= m < |rows| ==> !Proven(rows, i, v, m)
      {
        if Same(rows[j], rows[i]) && Lost(j, i) && rows[j].tx in v.receipts.value && v.receipts.value[rows[j].tx] {
          return Some(j);
        }
      }
    }

    /** Failed, or about to be. */
    predicate Lost(k: nat, i: nat)
      requires k < |rows|
      reads this
    {
      k == i || rows[k].status == Failed
    }

    /**
     The signed row is on record. Others run until the node answers; then the answer is written down. The one write the
     unique index can refuse is a status that makes a row live beside another live row of the payload.
     */
    method FirstBroadcast(i: nat, said: Reply, pending: nat, ghost s0: State, ghost es0: seq<Event>)
      returns (resp: Response, reply: Reply, ghost mid: State, ghost look: View, ghost es: seq<Event>)
      requires Valid() && i < |rows| && On(s0, es0)
      modifies this, nm
      ensures Valid() && On(s0, es) && Later(old(rows), rows)
      ensures resp != Conflict && Answered(resp, rows[i].payload, rows[i].key)
      ensures Answers(reply, resp, i)
      ensures nm.next == match reply
        case NoFunds => Nonce.Released(old(nm.next), old(rows)[i].tx.nonce)
        case Reverts => Nonce.Released(old(nm.next), old(rows)[i].tx.nonce)
        case TooLow => Some(pending)
        case Underpriced => Some(pending)
        case Taken => old(nm.next)
        case Known => old(nm.next)
        case Unclear => old(nm.next)
      ensures Later(old(rows), mid.rows) && Ended(mid, Snap(), i, reply, look, resp)
      ensures reply == if old(rows)[i].tx in mid.pool || IsMined(mid, old(rows)[i].tx) then Known else said
    {
      es := Others(s0, es0);
      mid, look := Snap(), View(None, map[]);
      reply := Submit(rows[i].tx, said);
      if reply == NoFunds || reply == Reverts {
        nm.Release(rows[i].tx.nonce);
        resp, es := RetireRefused(i, reply, s0, es);
      } else if reply == TooLow {
        nm.Resync(pending);
        resp, look, es := RetireTooLow(i, s0, es);
      } else if reply == Underpriced {
        nm.Resync(pending);
        resp, look, es := RetireUnderpriced(i, s0, es);
      } else {
        resp, es := Pooled(i, reply, s0, es);
      }
    }

    /** Rejected for good: the row is retired. */
    method RetireRefused(i: nat, reply: Reply, ghost s0: State, ghost es0: seq<Event>)
      returns (resp: Response, ghost es: seq<Event>)
      requires Valid() && i < |rows| && On(s0, es0) && (h.refusalFinal ==> rows[i].tx !in pool)
      requires reply == NoFunds || reply == Reverts
      modifies this
      ensures Valid() && On(s0, es) && Later(old(rows), rows) && |rows| == |old(rows)|
      ensures Answers(reply, resp, i) && resp != Conflict && Answered(resp, rows[i].payload, rows[i].key)
      ensures forall look :: Ended(old(Snap()), Snap(), i, reply, look, resp)
    {
      es := Mark(i, Failed, Refuse(i), s0, es0);
      resp := Refused(i);
    }

    /** The node may hold the bytes now. */
    method Pooled(i: nat, reply: Reply, ghost s0: State, ghost es0: seq<Event>)
      returns (resp: Response, ghost es: seq<Event>)
      requires Valid() && i < |rows| && On(s0, es0) && (reply == Taken || reply == Known || reply == Unclear)
      modifies this
      ensures Valid() && On(s0, es) && Later(old(rows), rows) && |rows| == |old(rows)|
      ensures Answers(reply, resp, i) && resp != Conflict && Answered(resp, rows[i].payload, rows[i].key)
      ensures forall look :: Ended(old(Snap()), Snap(), i, reply, look, resp)
    {
      es := SendRaw(i, s0, es0);
      resp := Uncertain(i);
      if reply != Unclear {
        var done;
        done, es := MarkAsSent(i, s0, es);
        resp := if done then Distributed(i) else ServerError(i);
      }
    }

    /** Another transaction holds the nonce in the pool: retire the row, then look for one that did mine. */
    method RetireUnderpriced(i: nat, ghost s0: State, ghost es0: seq<Event>)
      returns (resp: Response, ghost look: View, ghost es: seq<Event>)
      requires Valid() && i < |rows| && On(s0, es0) && (h.refusalFinal ==> rows[i].tx !in pool)
      modifies this
      ensures Valid() && On(s0, es) && Later(old(rows), rows) && |rows| == |old(rows)|
      ensures Answers(Underpriced, resp, i) && resp != Conflict && Answered(resp, rows[i].payload, rows[i].key)
      ensures Ended(old(Snap()), Snap(), i, Underpriced, look, resp)
    {
      es := es0;
      var v := Look();
      look := v;
      var k := MinedEarlier(i, v);
      var retired := rows[i := rows[i].(status := Failed)];
      if k.Some? && !Admits(retired, k.value) {
        resp := ServerError(i);
      } else {
        es := WriteUnderpriced(i, k, s0, es);
        resp := if k.Some? then PaidEarlier(k.value) else Refused(i);
      }
    }

    /** One commit: the row is retired, and the one that landed confirmed. */
    method WriteUnderpriced(i: nat, k: Option<nat>, ghost s0: State, ghost es0: seq<Event>)
      returns (ghost es: seq<Event>)
      requires Valid() && i < |rows| && On(s0, es0) && (h.refusalFinal ==> rows[i].tx !in pool)
      requires k.Some? ==> k.value < |rows| && Landed(Snap(), rows[k.value].tx)
      requires k.Some? ==> Admits(rows[i := rows[i].(status := Failed)], k.value)
      modifies this
      ensures Valid() && On(s0, es) && late == old(late)
      ensures Snap() == if k == None then Set(old(Snap()), i, Failed)
                        else Set(Set(old(Snap()), i, Failed), k.value, Confirmed)
    {
      es := Mark(i, Failed, Refuse(i), s0, es0);
      if k.Some? {
        es := Mark(k.value, Confirmed, Flip(k.value), s0, es);
      }
    }

    /** "nonce too low": retire the row, then confirm the row of this payload that did mine, in one commit. */
    method RetireTooLow(i: nat, ghost s0: State, ghost es0: seq<Event>)
      returns (resp: Response, ghost look: View, ghost es: seq<Event>)
      requires Valid() && i < |rows| && On(s0, es0)
      requires h.refusalFinal ==> rows[i].tx !in pool && !IsMined(Snap(), rows[i].tx)
      modifies this
      ensures Valid() && On(s0, es) && Later(old(rows), rows) && |rows| == |old(rows)|
      ensures Answers(TooLow, resp, i) && resp != Conflict && Answered(resp, rows[i].payload, rows[i].key)
      ensures Ended(old(Snap()), Snap(), i, TooLow, look, resp)
    {
      var v := Look();
      look := v;
      var k := MinedEarlier(i, v);
      resp, es := RetireFor(i, k, s0, es0);
    }

    /** Retired for the row `k` that did mine, if there is one; a third live row refuses the commit. */
    method RetireFor(i: nat, k: Option<nat>, ghost s0: State, ghost es0: seq<Event>)
      returns (resp: Response, ghost es: seq<Event>)
      requires Valid() && i < |rows| && On(s0, es0)
      requires h.refusalFinal ==> rows[i].tx !in pool && !IsMined(Snap(), rows[i].tx)
      requires k.Some? ==> k.value < |rows| && Same(rows[k.value], rows[i]) && Lost(k.value, i)
      requires k.Some? ==> Landed(Snap(), rows[k.value].tx)
      modifies this
      ensures Valid() && On(s0, es) && Later(old(rows), rows) && |rows| == |old(rows)|
      ensures Answers(TooLow, resp, i) && resp != Conflict && Answered(resp, rows[i].payload, rows[i].key)
      ensures SupersededBy(old(Snap()), Snap(), i, k, resp)
    {
      es := es0;
      if k.Some? {
        FlipIffNoThird(Snap(), i, k.value);
      }
      if k.Some? && !CanFlip(Snap(), i, k.value) {
        resp := ServerError(i);
        return;
      }
      es := WriteRetired(i, k, s0, es0);
      resp := if k.Some? then PaidEarlier(k.value) else Refused(i);
    }

    /** One commit: the row is retired, and the one that landed confirmed. */
    method WriteRetired(i: nat, k: Option<nat>, ghost s0: State, ghost es0: seq<Event>) returns (ghost es: seq<Event>)
      requires Valid() && i < |rows| && On(s0, es0) && Enabled(Mode(h, late), Snap(), RetireLow(i, k))
      modifies this
      ensures Valid() && On(s0, es) && late == old(late)
      ensures Snap() == Next(Mode(h, old(late)), old(Snap()), RetireLow(i, k))
    {
      PathAppend(Mode(h, late), s0, es0, Snap(), RetireLow(i, k));
      rows := rows[i := rows[i].(status := Failed)];
      if k.Some? {
        rows := rows[k.value := rows[k.value].(status := Confirmed)];
      }
      es := es0 + [RetireLow(i, k)];
    }

    /** The insert under the partial unique index. */
    method Insert(row: Row, ghost s0: State, ghost es0: seq<Event>) returns (done: bool, ghost es: seq<Event>)
      requires Valid() && On(s0, es0) && row.status == Sending && row.tx.payload == row.payload
      modifies this
      ensures Valid() && On(s0, es) && pool == old(pool) && lines == old(lines) && late == old(late)
      ensures done == (forall j :: 0 <= j < |old(rows)| && Same(old(rows)[j], row) ==> !Live(old(rows)[j]))
      ensures rows == if done then old(rows) + [row] else old(rows)
    {
      es := es0;
      for j := 0 to |rows|
        invariant rows == old(rows) && Valid() && Snap() == old(Snap()) && late == old(late)
        invariant forall m :: 0 <= m < j && Same(rows[m], row) ==> !Live(rows[m])
      {
        if Same(rows[j], row) && Live(rows[j]) {
          return false, es;
        }
      }
      PathAppend(Mode(h, late), s0, es, Snap(), Record(row));
      rows := rows + [row];
      es := es + [Record(row)];
      done := true;
    }

    /** _nonce_floor over both tables; `jobNonces` is what the query on the relay jobs returns. */
    method NonceFloor(sender: nat, jobNonces: seq<nat>) returns (f: Option<nat>)
      ensures Nonce.IsFloor(Nonce.Elements(jobNonces) + DistNonces(rows, sender), f)
    {
      var own: seq<nat> := [];
      for i := 0 to |rows|
        invariant Nonce.Elements(own) == DistNonces(rows[..i], sender)
      {
        assert rows[..i + 1] == rows[..i] + [rows[i]];
        OneMoreNonce(rows[..i], rows[i], sender);
        if Holds(rows[i], sender) {
          assert Nonce.Elements(own + [rows[i].tx.nonce]) == Nonce.Elements(own) + {rows[i].tx.nonce};
          own := own + [rows[i].tx.nonce];
        }
      }
      assert rows[..|rows|] == rows;
      assert Nonce.Elements(jobNonces + own) == Nonce.Elements(jobNonces) + Nonce.Elements(own);
      f := Nonce.Floor(jobNonces + own);
    }

    /** The floor is read and the nonce reserved under one lock. */
    method ReserveNonce(sender: nat, jobNonces: seq<nat>, pending: nat) returns (nonce: nat, ghost f: Option<nat>)
      modifies nm
      ensures Nonce.IsFloor(Nonce.Elements(jobNonces) + DistNonces(rows, sender), f)
      ensures nonce == Nonce.Reserved(old(nm.next), f, pending) && nm.next == Some(nonce + 1)
    {
      var floor := NonceFloor(sender, jobNonces);
      f := floor;
      nonce := nm.Reserve(floor, pending);
    }

    /** The part of the route under the nonce lock: check again, reserve, sign, record, broadcast. */
    method Locked(
      payload: nat, key: nat, sender: nat, fee: nat, jobNonces: seq<nat>, pending: nat, said: Reply, now: int,
      ghost s0: State, ghost es0: seq<Event>)
      returns (resp: Response, ghost tr: Trail, ghost es: seq<Event>)
      requires Valid() && On(s0, es0)
      modifies this, nm
      ensures Valid() && On(s0, es) && (resp == Conflict || Answered(resp, payload, key))
      ensures resp.Distributed? || resp.Uncertain? ==>
        nm.next == Some(rows[resp.i].tx.nonce + 1) && rows[resp.i].tx == Tx(sender, rows[resp.i].tx.nonce, payload, fee)
      ensures Later(old(rows), tr.second.rows) && Attempted(tr, Snap(), resp, payload, key, sender, fee, said, now)
      ensures !NoneLive(tr.second.rows, payload, key) ==> Repeated(tr.second, Snap(), resp, said)
      ensures quiet && NoneLive(old(rows), payload, key) ==> tr.row == Some(|old(rows)|)
      ensures resp == Conflict ==> AnyRow(rows, payload, key)
      ensures tr.row.Some? ==>
        && FromFloor(tr, old(nm.next), jobNonces, sender, pending)
        && nm.next == CacheThen(tr.reply, tr.mid.rows[tr.row.value].tx.nonce, pending)
    {
      var v := Look();
      var live;
      live, es := LiveRow(payload, key, v, now, s0, es0);
      tr := Trail(Snap(), Snap(), Snap(), Snap(), said, v, None);
      if live.Some? {
        ghost var mid;
        resp, mid, es := Duplicate(live.value, said, s0, es);
        return;
      }
      resp, tr, es := ReserveAndSend(payload, key, sender, fee, jobNonces, pending, said, now, s0, es);
    }

    /** Nothing live is in the way. */
    method ReserveAndSend(
      payload: nat, key: nat, sender: nat, fee: nat, jobNonces: seq<nat>, pending: nat, said: Reply, now: int,
      ghost s0: State, ghost es0: seq<Event>)
      returns (resp: Response, ghost tr: Trail, ghost es: seq<Event>)
      requires Valid() && On(s0, es0) && NoneLive(rows, payload, key)
      modifies this, nm
      ensures Valid() && On(s0, es) && (resp == Conflict || Answered(resp, payload, key))
      ensures resp.Distributed? || resp.Uncertain? ==>
        nm.next == Some(rows[resp.i].tx.nonce + 1) && rows[resp.i].tx == Tx(sender, rows[resp.i].tx.nonce, payload, fee)
      ensures tr.second == old(Snap()) && Attempted(tr, Snap(), resp, payload, key, sender, fee, said, now)
      ensures quiet ==> tr.row == Some(|old(rows)|)
      ensures resp == Conflict ==> AnyRow(rows, payload, key)
      ensures tr.row.Some? ==>
        && FromFloor(tr, old(nm.next), jobNonces, sender, pending)
        && nm.next == CacheThen(tr.reply, tr.mid.rows[tr.row.value].tx.nonce, pending)
    {
      var nonce;
      ghost var f;
      nonce, f := ReserveNonce(sender, jobNonces, pending);
      var row := Row(payload, key, Tx(sender, nonce, payload, fee), Sending, now);
      ghost var second := Snap();
      resp, tr, es := SignAndSend(row, pending, said, s0, es0);
      tr := tr.(second := second, first := second);
    }

    /** Others run, then the insert is tried in the state `at`. */
    method InsertLater(row: Row, ghost s0: State, ghost es0: seq<Event>)
      returns (done: bool, ghost at: State, ghost es: seq<Event>)
      requires Valid() && On(s0, es0) && row.status == Sending && row.tx.payload == row.payload
      modifies this
      ensures Valid() && On(s0, es) && Later(old(rows), at.rows) && (quiet ==> at == old(Snap()))
      ensures done <==> NoneLive(at.rows, row.payload, row.key)
      ensures Snap() == if done then at.(rows := at.rows + [row]) else at
      ensures !done ==> AnyRow(rows, row.payload, row.key)
    {
      es := Others(s0, es0);
      at := Snap();
      done, es := Insert(row, s0, es);
    }

    /** Record the signed row, others having run since the check, and broadcast it; or hand the nonce back. */
    method SignAndSend(row: Row, pending: nat, said: Reply, ghost s0: State, ghost es0: seq<Event>)
      returns (resp: Response, ghost tr: Trail, ghost es: seq<Event>)
      requires Valid() && On(s0, es0) && row.status == Sending && row.tx.payload == row.payload
      modifies this, nm
      ensures Valid() && On(s0, es) && (resp == Conflict || Answered(resp, row.payload, row.key))
      ensures resp.Distributed? || resp.Uncertain? ==> nm.next == old(nm.next) && rows[resp.i].tx == row.tx
      ensures resp.Already? || resp.Accepted? || resp == Conflict ==>
        nm.next == Nonce.Released(old(nm.next), row.tx.nonce)
      ensures Later(old(rows), tr.at.rows) && (quiet ==> tr.at == old(Snap()))
      ensures tr.row == if NoneLive(tr.at.rows, row.payload, row.key) then Some(|tr.at.rows|) else None
      ensures tr.row.Some? ==> RecordedAs(tr, Snap(), resp, row, said)
      ensures tr.row.Some? && old(nm.next) == Some(row.tx.nonce + 1) ==>
        nm.next == CacheThen(tr.reply, row.tx.nonce, pending)
      ensures tr.row == None ==> AnyRow(rows, row.payload, row.key) && RepeatAnswer(resp)
    {
      var done;
      ghost var at;
      done, at, es := InsertLater(row, s0, es0);
      tr := Trail(at, at, at, at, said, View(None, map[]), None);
      if done {
        var i := |rows| - 1;
        var reply;
        ghost var mid, look;
        resp, reply, mid, look, es := FirstBroadcast(i, said, pending, s0, es);
        tr := tr.(mid := mid, reply := reply, look := look, row := Some(i));
        return;
      }
      resp, es := Conflicted(row, said, s0, es);
    }

    /** The index refused the insert: nothing was sent, so the nonce goes back and the winner's row answers. */
    method Conflicted(row: Row, said: Reply, ghost s0: State, ghost es0: seq<Event>)
      returns (resp: Response, ghost es: seq<Event>)
      requires Valid() && On(s0, es0) && AnyRow(rows, row.payload, row.key)
      modifies this, nm
      ensures Valid() && On(s0, es) && (resp == Conflict || Answered(resp, row.payload, row.key))
      ensures nm.next == Nonce.Released(old(nm.next), row.tx.nonce)
      ensures resp.Already? || resp.Accepted? || resp.ServerError? || resp == Conflict
      ensures AnyRow(rows, row.payload, row.key) && (resp == Conflict ==> NoneLive(rows, row.payload, row.key))
    {
      nm.Release(row.tx.nonce);
      ghost var j :| 0 <= j < |rows| && Of(rows[j], row.payload, row.key);
      var v := Look();
      var live;
      live, es := LiveRow(row.payload, row.key, v, row.sentAt, s0, es0);
      if live.Some? {
        ghost var mid;
        resp, mid, es := Duplicate(live.value, said, s0, es);
      } else {
        resp := Conflict;
      }
      assert Of(rows[j], row.payload, row.key);
    }

    /** What each answer of the route means for the rows. */
    ghost predicate Answered(resp: Response, payload: nat, key: nat)
      requires resp != Conflict
      reads this
    {
      && resp.i < |rows| && Of(rows[resp.i], payload, key)
      && (resp.Already? ==> Live(rows[resp.i]))
      && (resp.Distributed? ==> rows[resp.i].status == Sent && rows[resp.i].tx in pool)
      && (resp.Uncertain? ==> rows[resp.i].tx in pool)
      && (resp.Refused? ==> rows[resp.i].status == Failed)
      && (resp.PaidEarlier? ==> rows[resp.i].status == Confirmed && Landed(Snap(), rows[resp.i].tx))
    }

    /**
     The distribute route. Other requests and instances run before the locked part, before the insert, before the node's
     answer and before a duplicate's bytes go out. Every path through it is a path of machine events, so
     `AtMostOnePayment` covers it, and `late` tells whether a rebroadcast left the steady machine. A new row is recorded
     exactly when neither check nor the insert met a live row of the payload and key; it carries this request's payload,
     key, sender and fee, and the response is what the node's answer makes of it. A `Conflict` means that a row of the
     payload and key is in the table.
     */
    method Distribute(
      payload: nat, key: nat, sender: nat, fee: nat, jobNonces: seq<nat>, pending: nat, said: Reply, now: int)
      returns (resp: Response, ghost tr: Trail, ghost es: seq<Event>)
      requires Valid()
      modifies this, nm
      ensures Valid() && On(old(Snap()), es) && (resp == Conflict || Answered(resp, payload, key))
      ensures Later(old(rows), tr.first.rows) && |tr.first.rows| == |old(rows)|
      ensures !NoneLive(tr.first.rows, payload, key) ==> tr.row == None && Repeated(tr.first, Snap(), resp, said)
      ensures NoneLive(tr.first.rows, payload, key) && !NoneLive(tr.second.rows, payload, key) ==>
        Repeated(tr.second, Snap(), resp, said)
      ensures NoneLive(tr.first.rows, payload, key) ==>
        Later(tr.first.rows, tr.second.rows) && Attempted(tr, Snap(), resp, payload, key, sender, fee, said, now)
      ensures quiet && NoneLive(old(rows), payload, key) ==> tr.row == Some(|old(rows)|)
      ensures resp == Conflict ==> AnyRow(rows, payload, key) && tr.row == None
      ensures tr.row.Some? ==>
        && (exists next :: FromFloor(tr, next, jobNonces, sender, pending))
        && nm.next == CacheThen(tr.reply, tr.mid.rows[tr.row.value].tx.nonce, pending)
    {
      ghost var s0 := Snap();
      var v := Look();
      var live;
      live, es := LiveRow(payload, key, v, now, s0, []);
      tr := Trail(Snap(), Snap(), Snap(), Snap(), said, v, None);
      if live.Some? {
        ghost var mid;
        resp, mid, es := Duplicate(live.value, said, s0, es);
        return;
      }
      resp, tr, es := AwaitLock(payload, key, sender, fee, jobNonces, pending, said, now, s0, es);
    }

    /** Nothing live at the first look: wait for the nonce lock, others running, and go on under it. */
    method AwaitLock(
      payload: nat, key: nat, sender: nat, fee: nat, jobNonces: seq<nat>, pending: nat, said: Reply, now: int,
      ghost s0: State, ghost es0: seq<Event>)
      returns (resp: Response, ghost tr: Trail, ghost es: seq<Event>)
      requires Valid() && On(s0, es0)
      modifies this, nm
      ensures Valid() && On(s0, es) && (resp == Conflict || Answered(resp, payload, key))
      ensures tr.first == old(Snap()) && Later(tr.first.rows, tr.second.rows)
      ensures !NoneLive(tr.second.rows, payload, key) ==> Repeated(tr.second, Snap(), resp, said)
      ensures Attempted(tr, Snap(), resp, payload, key, sender, fee, said, now)
      ensures quiet && NoneLive(old(rows), payload, key) ==> tr.row == Some(|old(rows)|)
      ensures resp == Conflict ==> AnyRow(rows, payload, key) && tr.row == None
      ensures tr.row.Some? ==>
        && (exists next :: FromFloor(tr, next, jobNonces, sender, pending))
        && nm.next == CacheThen(tr.reply, tr.mid.rows[tr.row.value].tx.nonce, pending)
    {
      ghost var first := Snap();
      es := Others(s0, es0);
      OtherSenders();
      ghost var next := nm.next;
      resp, tr, es := Locked(payload, key, sender, fee, jobNonces, pending, said, now, s0, es);
      tr := tr.(first := first);
      assert tr.row.Some? ==> FromFloor(tr, next, jobNonces, sender, pending);
    }
  }

  /**
   What one request met: the table after its first and its second look for a live row, the state in which its insert was
   tried and the one in which the node's answer was written down, that answer, the receipts looked up after it, and the
   row it recorded.
   */
  datatype Trail = Trail(
    first: State, second: State, at: State, mid: State, reply: Reply, look: View, row: Option<nat>)

  /** Answers that record no row. */
  predicate RepeatAnswer(resp: Response) {
    resp.Already? || resp.Accepted? || resp.ServerError? || resp == Conflict
  }

  /** A live row answers for the request: confirmed, or its bytes went out again if they were in doubt. */
  ghost predicate Repeated(s: State, end: State, resp: Response, said: Reply) {
    && RepeatAnswer(resp) && resp != Conflict && resp.i < |s.rows| <= |end.rows| && s.rows[resp.i].status != Failed
    && (resp.Already? <==> s.rows[resp.i].status == Confirmed)
    && (s.rows[resp.i].status == Sending && (said == Taken || said == Known || said == Unclear) ==>
          s.rows[resp.i].tx in end.pool)
    && (s.rows[resp.i].status == Sending && resp.Accepted? ==>
          (said == Taken || said == Known || said == Underpriced) ==> end.rows[resp.i].status == Sent)
  }

  /** Some row of this payload and key is in the table. */
  ghost predicate AnyRow(rows: seq<Row>, payload: nat, key: nat) {
    exists j :: 0 <= j < |rows| && Of(rows[j], payload, key)
  }

  /** The row was inserted, and the node's answer decides what became of it. */
  ghost predicate RecordedAs(tr: Trail, end: State, resp: Response, row: Row, said: Reply) {
    && tr.row == Some(|tr.at.rows|) && Later(tr.at.rows + [row], tr.mid.rows)
    && Ended(tr.mid, end, |tr.at.rows|, tr.reply, tr.look, resp)
    && (tr.reply == if row.tx in tr.mid.pool || IsMined(tr.mid, row.tx) then Known else said)
  }

  /** Under the lock: one new row of this request when nothing live was in the way, else no row at all. */
  ghost predicate Attempted(
    tr: Trail, end: State, resp: Response, payload: nat, key: nat, sender: nat, fee: nat, said: Reply, now: int)
  {
    && (tr.row.Some? <==> NoneLive(tr.second.rows, payload, key) && NoneLive(tr.at.rows, payload, key))
    && (NoneLive(tr.second.rows, payload, key) ==> Later(tr.second.rows, tr.at.rows))
    && (tr.row == None ==> RepeatAnswer(resp))
    && (tr.row.Some? ==> exists nonce ::
          RecordedAs(tr, end, resp, Row(payload, key, Tx(sender, nonce, payload, fee), Sending, now), said))
  }

  /** The nonce of the new row came from the allocator, raised to the floor over both tables. */
  ghost predicate FromFloor(tr: Trail, next: Option<nat>, jobNonces: seq<nat>, sender: nat, pending: nat) {
    tr.row.Some? && tr.row.value < |tr.mid.rows| && exists f ::
      Nonce.IsFloor(Nonce.Elements(jobNonces) + DistNonces(tr.second.rows, sender), f)
      && tr.mid.rows[tr.row.value].tx.nonce == Nonce.Reserved(next, f, pending)
  }

  /** The cache once the node has answered for nonce `n`. */
  function CacheThen(reply: Reply, n: nat, pending: nat): Option<nat> {
    match reply
    case NoFunds => Some(n)
    case Reverts => Some(n)
    case TooLow => Some(pending)
    case Underpriced => Some(pending)
    case _ => Some(n + 1)
  }

  predicate Of(row: Row, payload: nat, key: nat) {
    row.payload == payload && row.key == key
  }

  /** The node did not refuse the bytes, so it may hold them. */
  predicate MayHold(reply: Reply) {
    reply == Taken || reply == Known || reply == Unclear
  }

  /** The route counts a duplicate's row as sent. */
  predicate Pools(reply: Reply) {
    reply == Taken || reply == Known || reply == Underpriced
  }

  /** Which responses each answer of the node allows. */
  predicate Answers(reply: Reply, resp: Response, i: nat) {
    match reply
    case Taken => resp == Distributed(i) || resp == ServerError(i)
    case Known => resp == Distributed(i) || resp == ServerError(i)
    case Unclear => resp == Uncertain(i)
    case NoFunds => resp == Refused(i)
    case Reverts => resp == Refused(i)
    case TooLow => resp == Refused(i) || resp.PaidEarlier? || resp == ServerError(i)
    case Underpriced => resp == Refused(i) || resp.PaidEarlier? || resp == ServerError(i)
  }

  lemma OneMoreNonce(rows: seq<Row>, row: Row, sender: nat)
    ensures DistNonces(rows + [row], sender) ==
      DistNonces(rows, sender) + if Holds(row, sender) then {row.tx.nonce} else {}
  {
    var all := rows + [row];
    forall n | n in DistNonces(rows, sender) ensures n in DistNonces(all, sender) {
      var i :| 0 <= i < |rows| && Holds(rows[i], sender) && rows[i].tx.nonce == n;
      assert all[i] == rows[i];
    }
    if Holds(row, sender) {
      assert all[|rows|] == row;
    }
  }
}
