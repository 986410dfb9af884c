/**
 The allocator against the two tables it serves. Every event of the relayer and of the emissions route moves the
 allocator as `Nonce` describes, which decides when two in-flight rows of one account, relay jobs and distributions
 together, hold the same nonce.
 */
module Allocation {
  import opened Options
  import opened Nonce
  import Relay
  import Emissions
  import WorkerSpec

  /** Both tables, and the process memory around the nonce lock: the cache, and the floor an open send has read. */
  datatype Tables = Tables(relay: Relay.State, dist: Emissions.State, next: Option<nat>, floor: Option<Option<nat>>)

  datatype Step =
    | FloorRead(f: Option<nat>)
    | GiveUp(pending: nat, reserved: bool)     // the claim failed, or signing raised after the reserve
    | Relayed(e: Relay.Event, pending: nat, handBack: bool)
    | Distributed(d: Emissions.Event, f: Option<nat>, pending: nat, handBack: bool)
    | Conflicted(f: Option<nat>, pending: nat) // the index refused the insert
    | LateHandBack(n: nat)                     // a refusal answered after the row was settled by somebody else
    | Resync(pending: nat)
    | Restart                                  // invalidate, or a new process

  /** The nonce a row of `me` holds while it is in flight. */
  function Hold(t: Tables, me: nat, o: Owner): Option<nat> {
    match o
    case RelayJob(j) =>
      if j < |t.relay.jobs| && WorkerSpec.HoldsNonce(t.relay.jobs[j], me) then t.relay.jobs[j].nonce else None
    case Distribution(i) =>
      if i < |t.dist.rows| && Emissions.Holds(t.dist.rows[i], me) then Some(t.dist.rows[i].tx.nonce) else None
  }

  function Owners(t: Tables): set<Owner> {
    (set j | 0 <= j < |t.relay.jobs| :: RelayJob(j)) + (set i | 0 <= i < |t.dist.rows| :: Distribution(i))
  }

  function Held(t: Tables, me: nat): map<Owner, nat> {
    map o | o in Owners(t) && Hold(t, me, o).Some? :: Hold(t, me, o).value
  }

  function Abs(t: Tables, me: nat): Alloc {
    Alloc(t.next, Held(t, me), t.floor)
  }

  lemma HeldAt(t: Tables, me: nat, o: Owner)
    ensures o in Held(t, me) <==> Hold(t, me, o).Some?
    ensures o in Held(t, me) ==> Held(t, me)[o] == Hold(t, me, o).value
  {
    assert Hold(t, me, o).Some? ==> o in Owners(t);
  }

  /** Some row of the account that is sending or sent carries the nonce. */
  predicate InUse(t: Tables, me: nat, n: nat) {
    || (exists j :: 0 <= j < |t.relay.jobs| && t.relay.jobs[j].status in {Relay.Sending, Relay.Sent} &&
          t.relay.jobs[j].sender == me && t.relay.jobs[j].nonce == Some(n))
    || (exists i :: 0 <= i < |t.dist.rows| && t.dist.rows[i].status in {Emissions.Sending, Emissions.Sent} &&
          t.dist.rows[i].tx.sender == me && t.dist.rows[i].tx.nonce == n)
  }

  /** What `NonceFloor` of the worker and of the route take the floor of is exactly what the in-flight rows hold. */
  lemma HeldNonces(t: Tables, me: nat)
    ensures Held(t, me).Values == WorkerSpec.JobNonces(t.relay.jobs, me) + Emissions.DistNonces(t.dist.rows, me)
    ensures forall n :: n in Held(t, me).Values <==> InUse(t, me, n)
  {
    forall n: nat | InUse(t, me, n)
      ensures n in WorkerSpec.JobNonces(t.relay.jobs, me) + Emissions.DistNonces(t.dist.rows, me)
    {
      if j :|
          && 0 <= j < |t.relay.jobs| && t.relay.jobs[j].status in {Relay.Sending, Relay.Sent}
          && t.relay.jobs[j].sender == me && t.relay.jobs[j].nonce == Some(n)
      {
        assert WorkerSpec.HoldsNonce(t.relay.jobs[j], me);
      } else {
        var i :| 0 <= i < |t.dist.rows| && t.dist.rows[i].status in {Emissions.Sending, Emissions.Sent} &&
          t.dist.rows[i].tx.sender == me && t.dist.rows[i].tx.nonce == n;
        assert Emissions.Holds(t.dist.rows[i], me);
      }
    }
    forall n | n in Held(t, me).Values
      ensures n in WorkerSpec.JobNonces(t.relay.jobs, me) + Emissions.DistNonces(t.dist.rows, me)
    {
      var o :| o in Held(t, me) && Held(t, me)[o] == n;
      HeldAt(t, me, o);
    }
    forall n | n in WorkerSpec.JobNonces(t.relay.jobs, me) ensures n in Held(t, me).Values {
      var j :|
        0 <= j < |t.relay.jobs| && WorkerSpec.HoldsNonce(t.relay.jobs[j], me) && t.relay.jobs[j].nonce.value == n;
      HeldAt(t, me, RelayJob(j));
    }
    forall n | n in Emissions.DistNonces(t.dist.rows, me) ensures n in Held(t, me).Values {
      var i :| 0 <= i < |t.dist.rows| && Emissions.Holds(t.dist.rows[i], me) && t.dist.rows[i].tx.nonce == n;
      HeldAt(t, me, Distribution(i));
    }
  }

  /** The allocator's part of a step. */
  function MoveOf(t: Tables, me: nat, step: Step): Move {
    match step
    case FloorRead(f) => ReadFloor(f)
    case GiveUp(p, reserved) => if reserved then WorkerHandBack(p) else AbandonSend
    case Relayed(e, p, handBack) => RelayMove(t, me, e, p, handBack)
    case Distributed(e, f, p, handBack) => RouteMove(t, me, e, f, p, handBack)
    case Conflicted(f, p) => RouteHandBack(f, p)
    case LateHandBack(n) => HandBack(n)
    case Resync(p) => Resynced(p)
    case Restart => Forget
  }

  function RelayMove(t: Tables, me: nat, e: Relay.Event, p: nat, handBack: bool): Move {
    if e.Sign? then (if t.relay.account == me then WorkerReserve(RelayJob(e.j), p) else Stay)
    else if e.Refuse? || e.Settle? then
      (if Hold(t, me, RelayJob(e.j)) == None then Stay
       else if e.Refuse? && handBack then Refused(RelayJob(e.j)) else Superseded(RelayJob(e.j), p))
    else if e.Confirm? || e.FailReceipt? then Leave(RelayJob(e.j))
    else Stay
  }

  function RouteMove(t: Tables, me: nat, e: Emissions.Event, f: Option<nat>, p: nat, handBack: bool): Move {
    if e.Record? then (if e.row.tx.sender == me then RouteReserve(Distribution(|t.dist.rows|), f, p) else Stay)
    else if e.Refuse? || e.RetireLow? then
      (if Hold(t, me, Distribution(e.i)) == None then Stay
       else if e.Refuse? && handBack then Refused(Distribution(e.i)) else Superseded(Distribution(e.i), p))
    else if e.Confirm? || e.Revert? || e.Expire? then Leave(Distribution(e.i))
    else if e.Flip? then Leave(Distribution(e.k))
    else if e.MarkSent? then MarkMove(t, me, e.i)
    else Stay
  }

  /**
   "sent" is written outside the nonce lock, whatever has become of the row since it was read: a row that had given its
   nonce up holds it again.
   */
  function MarkMove(t: Tables, me: nat, i: nat): Move {
    if i < |t.dist.rows| && t.dist.rows[i].tx.sender == me && Hold(t, me, Distribution(i)) == None
    then Rejoin(Distribution(i), t.dist.rows[i].tx.nonce)
    else Stay
  }

  /** The callers' side: each signature carries the nonce it was given. */
  ghost predicate Can(h: Relay.Hyp, k: Emissions.Hyp, me: nat, t: Tables, step: Step) {
    && CanMove(Abs(t, me), MoveOf(t, me, step))
    && (step.Relayed? ==> Relay.Enabled(h, t.relay, step.e) && WorkerSigns(t, me, step.e, step.pending))
    && (step.Distributed? ==>
          Emissions.Enabled(k, t.dist, step.d) && RouteSigns(t, me, step.d, step.f, step.pending))
  }

  predicate WorkerSigns(t: Tables, me: nat, e: Relay.Event, p: nat) {
    e.Sign? && t.relay.account == me ==> t.floor.Some? && e.nonce == Reserved(t.next, t.floor.value, p)
  }

  predicate RouteSigns(t: Tables, me: nat, e: Emissions.Event, f: Option<nat>, p: nat) {
    e.Record? && e.row.tx.sender == me ==> e.row.tx.nonce == Reserved(t.next, f, p)
  }

  ghost function After(h: Relay.Hyp, k: Emissions.Hyp, me: nat, t: Tables, step: Step): Tables
    requires Can(h, k, me, t, step)
  {
    var a := Moved(Abs(t, me), MoveOf(t, me, step));
    Tables(
      if step.Relayed? then Relay.Next(h, t.relay, step.e) else t.relay,
      if step.Distributed? then Emissions.Next(k, t.dist, step.d) else t.dist,
      a.next, a.floor)
  }

  // ------------------------------------------------------------------ what an event does to the held nonces

  /** Only this owner's hold may change, and it becomes `n`. */
  ghost predicate Only(t: Tables, u: Tables, me: nat, o: Owner, n: Option<nat>) {
    forall q :: Hold(u, me, q) == if q == o then n else Hold(t, me, q)
  }

  ghost predicate Same(t: Tables, u: Tables, me: nat) {
    forall q :: Hold(u, me, q) == Hold(t, me, q)
  }

  lemma HeldOnly(t: Tables, u: Tables, me: nat, o: Owner, n: Option<nat>)
    requires Only(t, u, me, o, n)
    ensures Held(u, me) == if n.Some? then Held(t, me)[o := n.value] else Held(t, me) - {o}
  {
    var m := if n.Some? then Held(t, me)[o := n.value] else Held(t, me) - {o};
    forall q ensures (q in Held(u, me) <==> q in m) && (q in m ==> Held(u, me)[q] == m[q]) {
      HeldAt(t, me, q);
      HeldAt(u, me, q);
    }
  }

  lemma HeldSame(t: Tables, u: Tables, me: nat)
    requires Same(t, u, me)
    ensures Held(u, me) == Held(t, me)
  {
    forall q
      ensures (q in Held(u, me) <==> q in Held(t, me)) && (q in Held(t, me) ==> Held(u, me)[q] == Held(t, me)[q])
    {
      HeldAt(t, me, q);
      HeldAt(u, me, q);
    }
  }

  lemma {:induction false} CancelHolds(s: Relay.State, o: nat, seen: nat, me: nat, j: nat)
    requires seen <= |s.jobs| && j < |s.jobs|
    ensures var job := Relay.CancelJobs(s, o, seen).jobs[j];
      WorkerSpec.HoldsNonce(job, me) == WorkerSpec.HoldsNonce(s.jobs[j], me) && job.nonce == s.jobs[j].nonce
    decreases seen
  {
    if seen > 0 {
      CancelHolds(s, o, seen - 1, me, j);
    }
  }

  /** Four of the relayer's events end a hold. */
  predicate Ends(e: Relay.Event) {
    e.Refuse? || e.Settle? || e.Confirm? || e.FailReceipt?
  }

  lemma CancelSame(h: Relay.Hyp, s: Relay.State, e: Relay.Event, me: nat)
    requires Relay.Enabled(h, s, e) && e.CancelOrder?
    ensures forall j :: 0 <= j < |s.jobs| ==>
      WorkerSpec.HoldsNonce(Relay.Next(h, s, e).jobs[j], me) == WorkerSpec.HoldsNonce(s.jobs[j], me)
      && Relay.Next(h, s, e).jobs[j].nonce == s.jobs[j].nonce
  {
    forall j | 0 <= j < |s.jobs|
      ensures WorkerSpec.HoldsNonce(Relay.Next(h, s, e).jobs[j], me) == WorkerSpec.HoldsNonce(s.jobs[j], me)
      ensures Relay.Next(h, s, e).jobs[j].nonce == s.jobs[j].nonce
    {
      CancelHolds(Relay.Flag(s, e.o), e.o, e.seen, me, j);
    }
  }

  /** Signing takes a hold, four events end one, and nothing else touches any. */
  lemma RelayHolds(h: Relay.Hyp, me: nat, t: Tables, e: Relay.Event, u: Tables)
    requires Relay.Enabled(h, t.relay, e) && u.relay == Relay.Next(h, t.relay, e) && u.dist == t.dist
    requires !e.Sign? && !Ends(e)
    ensures Same(t, u, me)
  {
    if e.CancelOrder? {
      CancelSame(h, t.relay, e, me);
    }
  }

  lemma RelayEnds(h: Relay.Hyp, me: nat, t: Tables, e: Relay.Event, u: Tables)
    requires Relay.Enabled(h, t.relay, e) && u.relay == Relay.Next(h, t.relay, e) && u.dist == t.dist && Ends(e)
    ensures Only(t, u, me, RelayJob(e.j), None)
  {
  }

  lemma RelaySigns(h: Relay.Hyp, me: nat, t: Tables, e: Relay.Event, u: Tables)
    requires Relay.Enabled(h, t.relay, e) && u.relay == Relay.Next(h, t.relay, e) && u.dist == t.dist && e.Sign?
    ensures Only(t, u, me, RelayJob(e.j), if t.relay.account == me then Some(e.nonce) else None)
  {
  }

  /** Five of the route's events end the hold of row `i`. */
  predicate Closes(e: Emissions.Event) {
    e.Refuse? || e.RetireLow? || e.Confirm? || e.Revert? || e.Expire?
  }

  lemma RouteRecords(k: Emissions.Hyp, me: nat, t: Tables, e: Emissions.Event, u: Tables)
    requires Emissions.Enabled(k, t.dist, e) && u.dist == Emissions.Next(k, t.dist, e)
    requires u.relay == t.relay && e.Record?
    ensures
      Only(t, u, me, Distribution(|t.dist.rows|), if e.row.tx.sender == me then Some(e.row.tx.nonce) else None)
  {
  }

  lemma RouteEnds(k: Emissions.Hyp, me: nat, t: Tables, e: Emissions.Event, u: Tables)
    requires Emissions.Enabled(k, t.dist, e) && u.dist == Emissions.Next(k, t.dist, e) && u.relay == t.relay
    requires Closes(e) || e.Flip?
    ensures Only(t, u, me, Distribution(if e.Flip? then e.k else e.i), None)
  {
  }

  lemma RouteHolds(k: Emissions.Hyp, me: nat, t: Tables, e: Emissions.Event, u: Tables)
    requires Emissions.Enabled(k, t.dist, e) && u.dist == Emissions.Next(k, t.dist, e) && u.relay == t.relay
    requires !e.Record? && !Closes(e) && !e.Flip? && !e.MarkSent?
    ensures Same(t, u, me)
  {
  }

  lemma RouteMarks(k: Emissions.Hyp, me: nat, t: Tables, e: Emissions.Event, u: Tables)
    requires Emissions.Enabled(k, t.dist, e) && u.dist == Emissions.Next(k, t.dist, e) && u.relay == t.relay
    requires e.MarkSent?
    ensures var tx := t.dist.rows[e.i].tx;
      Only(t, u, me, Distribution(e.i), if tx.sender == me then Some(tx.nonce) else None)
  {
  }

  // ------------------------------------------------------------------ uniqueness over the tables

  /** Each step of the tables is a move of the allocator. */
  lemma StepMoves(h: Relay.Hyp, k: Emissions.Hyp, me: nat, t: Tables, step: Step)
    requires Can(h, k, me, t, step)
    ensures Abs(After(h, k, me, t, step), me) == Moved(Abs(t, me), MoveOf(t, me, step))
  {
    if step.Relayed? {
      RelayMoves(h, k, me, t, step.e, step.pending, step.handBack);
    } else if step.Distributed? {
      RouteMoves(h, k, me, t, step.d, step.f, step.pending, step.handBack);
    } else {
      HeldSame(t, After(h, k, me, t, step), me);
    }
  }

  /** When only `o` changes hands, the held map changes as a reserve or a leave of `o` does. */
  lemma OnlyMoves(t: Tables, u: Tables, me: nat, m: Move, o: Owner, n: Option<nat>)
    requires CanMove(Abs(t, me), m) && Only(t, u, me, o, n)
    requires u.next == Moved(Abs(t, me), m).next && u.floor == Moved(Abs(t, me), m).floor
    requires match m
      case WorkerReserve(q, p) => q == o && n == Some(Reserved(t.next, t.floor.value, p))
      case RouteReserve(q, f, p) => q == o && n == Some(Reserved(t.next, f, p))
      case Leave(q) => q == o && n == None
      case Refused(q) => q == o && n == None
      case Superseded(q, _) => q == o && n == None
      case Rejoin(q, r) => q == o && n == Some(r)
      case _ => m == Stay && n == Hold(t, me, o)
    ensures Abs(u, me) == Moved(Abs(t, me), m)
  {
    HeldOnly(t, u, me, o, n);
    HeldAt(t, me, o);
  }

  lemma RelayMoves(h: Relay.Hyp, k: Emissions.Hyp, me: nat, t: Tables, e: Relay.Event, p: nat, handBack: bool)
    requires Can(h, k, me, t, Relayed(e, p, handBack))
    ensures Abs(After(h, k, me, t, Relayed(e, p, handBack)), me) == Moved(Abs(t, me), RelayMove(t, me, e, p, handBack))
  {
    var u, m := After(h, k, me, t, Relayed(e, p, handBack)), RelayMove(t, me, e, p, handBack);
    if e.Sign? {
      RelaySigns(h, me, t, e, u);
      OnlyMoves(t, u, me, m, RelayJob(e.j), if t.relay.account == me then Some(e.nonce) else None);
    } else if Ends(e) {
      RelayEnds(h, me, t, e, u);
      OnlyMoves(t, u, me, m, RelayJob(e.j), None);
    } else {
      RelayHolds(h, me, t, e, u);
      HeldSame(t, u, me);
    }
  }

  lemma RouteMoves(
    h: Relay.Hyp, k: Emissions.Hyp, me: nat, t: Tables, e: Emissions.Event, f: Option<nat>, p: nat, handBack: bool)
    requires Can(h, k, me, t, Distributed(e, f, p, handBack))
    ensures var u := After(h, k, me, t, Distributed(e, f, p, handBack));
      Abs(u, me) == Moved(Abs(t, me), RouteMove(t, me, e, f, p, handBack))
  {
    var u := After(h, k, me, t, Distributed(e, f, p, handBack));
    var m := RouteMove(t, me, e, f, p, handBack);
    if e.Record? {
      RouteRecords(k, me, t, e, u);
      OnlyMoves(t, u, me, m, Distribution(|t.dist.rows|), if e.row.tx.sender == me then Some(e.row.tx.nonce) else None);
    } else if Closes(e) || e.Flip? {
      RouteEnds(k, me, t, e, u);
      OnlyMoves(t, u, me, m, Distribution(if e.Flip? then e.k else e.i), None);
    } else if e.MarkSent? {
      RouteMarks(k, me, t, e, u);
      var tx := t.dist.rows[e.i].tx;
      HeldAt(t, me, Distribution(e.i));
      OnlyMoves(t, u, me, m, Distribution(e.i), if tx.sender == me then Some(tx.nonce) else None);
    } else {
      RouteHolds(k, me, t, e, u);
      HeldSame(t, u, me);
    }
  }

  ghost predicate Run(h: Relay.Hyp, k: Emissions.Hyp, me: nat, steps: seq<Step>, ts: seq<Tables>) {
    && |ts| == |steps| + 1
    && ts[0].relay.jobs == [] && ts[0].dist.rows == [] && ts[0].next == None && ts[0].floor == None
    && forall i :: 0 <= i < |steps| ==>
         Can(h, k, me, ts[i], steps[i]) && ts[i + 1] == After(h, k, me, ts[i], steps[i])
  }

  /** No two in-flight rows of the account hold one nonce. */
  ghost predicate OneEach(t: Tables, me: nat) {
    forall o, q :: Hold(t, me, o).Some? && Hold(t, me, q) == Hold(t, me, o) ==> o == q
  }

  /** The nonce this step brings into flight, if any, is held by no in-flight row of either table. */
  ghost predicate StepFree(t: Tables, me: nat, step: Step) {
    var n := Taking(Abs(t, me), MoveOf(t, me, step));
    n.Some? ==> forall o :: Hold(t, me, o) != n
  }

  lemma OneEachIff(t: Tables, me: nat)
    ensures OneEach(t, me) <==> Unique(Held(t, me))
  {
    forall o ensures (o in Held(t, me) <==> Hold(t, me, o).Some?)
    {
      HeldAt(t, me, o);
    }
    forall o | o in Held(t, me) ensures Hold(t, me, o) == Some(Held(t, me)[o]) {
      HeldAt(t, me, o);
    }
  }

  lemma StepFreeIff(t: Tables, me: nat, step: Step)
    ensures StepFree(t, me, step) <==> TakesFree(Abs(t, me), MoveOf(t, me, step))
  {
    var n := Taking(Abs(t, me), MoveOf(t, me, step));
    if n.Some? {
      forall o | Hold(t, me, o) == n ensures n.value in Held(t, me).Values {
        HeldAt(t, me, o);
      }
      if n.value in Held(t, me).Values {
        var o :| o in Held(t, me) && Held(t, me)[o] == n.value;
        HeldAt(t, me, o);
      }
    }
  }

  /** One step keeps nonces unique if and only if the nonce it brings into flight is free. */
  lemma StepUniqueIff(h: Relay.Hyp, k: Emissions.Hyp, me: nat, t: Tables, step: Step)
    requires OneEach(t, me) && Can(h, k, me, t, step)
    ensures OneEach(After(h, k, me, t, step), me) <==> StepFree(t, me, step)
  {
    StepMoves(h, k, me, t, step);
    OneEachIff(t, me);
    OneEachIff(After(h, k, me, t, step), me);
    StepFreeIff(t, me, step);
    MoveUniqueIff(Abs(t, me), MoveOf(t, me, step));
  }

  ghost predicate AllOneEach(ts: seq<Tables>, me: nat, n: nat)
    requires n < |ts|
  {
    forall i :: 0 <= i <= n ==> OneEach(ts[i], me)
  }

  ghost predicate AllStepsFree(steps: seq<Step>, ts: seq<Tables>, me: nat, n: nat)
    requires n <= |steps| && n <= |ts|
  {
    forall i :: 0 <= i < n ==> StepFree(ts[i], me, steps[i])
  }

  lemma UniqueStep(h: Relay.Hyp, k: Emissions.Hyp, me: nat, steps: seq<Step>, ts: seq<Tables>, n: nat)
    requires Run(h, k, me, steps, ts) && 0 < n <= |steps| && OneEach(ts[n - 1], me)
    ensures OneEach(ts[n], me) <==> StepFree(ts[n - 1], me, steps[n - 1])
  {
    StepUniqueIff(h, k, me, ts[n - 1], steps[n - 1]);
  }

  /**
   Over every run of both services, no two in-flight rows of one account ever hold the same nonce if and only if every
   nonce was free when a signature or a late "sent" brought it into flight.
   */
  lemma {:induction false} TablesUniqueIff(
    h: Relay.Hyp, k: Emissions.Hyp, me: nat, steps: seq<Step>, ts: seq<Tables>, n: nat)
    requires Run(h, k, me, steps, ts) && n <= |steps|
    ensures AllOneEach(ts, me, n) <==> AllStepsFree(steps, ts, me, n)
    decreases n
  {
    if n > 0 {
      TablesUniqueIff(h, k, me, steps, ts, n - 1);
      assert AllOneEach(ts, me, n) <==> AllOneEach(ts, me, n - 1) && OneEach(ts[n], me);
      assert AllStepsFree(steps, ts, me, n) <==>
        AllStepsFree(steps, ts, me, n - 1) && StepFree(ts[n - 1], me, steps[n - 1]);
      if OneEach(ts[n - 1], me) {
        UniqueStep(h, k, me, steps, ts, n);
      }
    }
  }

  /** What the services can see to: it is enough that every step is timely. */
  lemma {:induction false} TablesUnique(
    h: Relay.Hyp, k: Emissions.Hyp, me: nat, steps: seq<Step>, ts: seq<Tables>, n: nat)
    requires Run(h, k, me, steps, ts) && n <= |steps|
    requires forall i :: 0 <= i < n ==> Timely(Abs(ts[i], me), MoveOf(ts[i], me, steps[i]))
    ensures Allocated(Abs(ts[n], me)) && OneEach(ts[n], me)
    decreases n
  {
    if n > 0 {
      TablesUnique(h, k, me, steps, ts, n - 1);
      StepMoves(h, k, me, ts[n - 1], steps[n - 1]);
      MoveAllocates(Abs(ts[n - 1], me), MoveOf(ts[n - 1], me, steps[n - 1]));
    }
    OneEachIff(ts[n], me);
  }

  /** The worker's signature duplicates a nonce exactly when an in-flight row of either table holds it. */
  lemma SignUniqueIff(h: Relay.Hyp, k: Emissions.Hyp, me: nat, t: Tables, e: Relay.Event, p: nat)
    requires OneEach(t, me) && Can(h, k, me, t, Relayed(e, p, false)) && e.Sign? && t.relay.account == me
    ensures OneEach(After(h, k, me, t, Relayed(e, p, false)), me) <==> forall o :: Hold(t, me, o) != Some(e.nonce)
  {
    StepUniqueIff(h, k, me, t, Relayed(e, p, false));
  }

  /** Marking a distribution sent is safe exactly when it still holds its nonce, or no in-flight row does. */
  lemma MarkUniqueIff(h: Relay.Hyp, k: Emissions.Hyp, me: nat, t: Tables, i: nat, f: Option<nat>, p: nat)
    requires OneEach(t, me) && Can(h, k, me, t, Distributed(Emissions.MarkSent(i), f, p, false))
    requires t.dist.rows[i].tx.sender == me
    ensures OneEach(After(h, k, me, t, Distributed(Emissions.MarkSent(i), f, p, false)), me) <==>
      (Hold(t, me, Distribution(i)).Some? || forall o :: Hold(t, me, o) != Some(t.dist.rows[i].tx.nonce))
  {
    StepUniqueIff(h, k, me, t, Distributed(Emissions.MarkSent(i), f, p, false));
  }

  // ------------------------------------------------------------------ a late "sent"

  const REFUSED := Emissions.Row(7, 0, Emissions.Tx(1, 0, 7, 0), Emissions.Sending, 0)
  const TAKER := Emissions.Row(8, 0, Emissions.Tx(1, 0, 8, 0), Emissions.Sending, 0)

  lemma OneStep(h: Relay.Hyp, k: Emissions.Hyp, me: nat, steps: seq<Step>, ts: seq<Tables>, step: Step)
    requires Run(h, k, me, steps, ts) && Can(h, k, me, ts[|steps|], step)
    ensures Run(h, k, me, steps + [step], ts + [After(h, k, me, ts[|steps|], step)])
  {
  }

  /** Nothing in flight under this account: the floor is empty. */
  lemma NoneHeld(t: Tables, me: nat)
    requires forall o :: Hold(t, me, o) == None
    ensures Held(t, me) == map[] && IsFloor(Held(t, me).Values, None)
  {
    forall o ensures o !in Held(t, me) {
      HeldAt(t, me, o);
    }
  }

  /**
   A distribution is refused for lack of funds and hands its nonce back, and another one takes it. A repeat of the first
   request, which had read its row as sending outside the lock, is answered "underpriced", because the nonce is taken,
   and marks the row sent: both rows are in flight with one nonce. Every environment hypothesis may hold.
   */
  lemma LateSentDuplicates(h: Relay.Hyp, k: Emissions.Hyp, s: Relay.State) returns (steps: seq<Step>, ts: seq<Tables>)
    requires s.jobs == []
    ensures Run(h, k, 1, steps, ts) && !OneEach(ts[|steps|], 1)
  {
    var t0 := Tables(s, Emissions.State([], {}, map[]), None, None);
    NoneHeld(t0, 1);
    var first := Distributed(Emissions.Record(REFUSED), None, 0, false);
    OneStep(h, k, 1, [], [t0], first);
    var t1 := After(h, k, 1, t0, first);
    assert [] + [first] == [first] && [t0] + [t1] == [t0, t1];
    steps, ts := RefusedFirst(h, k, [first], [t0, t1]);
  }

  /** Refused: its nonce goes back. */
  lemma RefusedFirst(h: Relay.Hyp, k: Emissions.Hyp, before: seq<Step>, was: seq<Tables>)
    returns (steps: seq<Step>, ts: seq<Tables>)
    requires Run(h, k, 1, before, was) && was[|before|].relay.jobs == [] && was[|before|].next == Some(1)
    requires was[|before|].dist == Emissions.State([REFUSED], {}, map[])
    ensures Run(h, k, 1, steps, ts) && !OneEach(ts[|steps|], 1)
  {
    var t1 := was[|before|];
    HeldAt(t1, 1, Distribution(0));
    var refuse := Distributed(Emissions.Refuse(0), None, 0, true);
    OneStep(h, k, 1, before, was, refuse);
    var t2 := After(h, k, 1, t1, refuse);
    steps, ts := RetakenNonce(h, k, before + [refuse], was + [t2]);
  }

  lemma RetakenNonce(h: Relay.Hyp, k: Emissions.Hyp, before: seq<Step>, was: seq<Tables>)
    returns (steps: seq<Step>, ts: seq<Tables>)
    requires Run(h, k, 1, before, was) && was[|before|].relay.jobs == [] && was[|before|].next == Some(0)
    requires was[|before|].dist == Emissions.State([REFUSED.(status := Emissions.Failed)], {}, map[])
    ensures Run(h, k, 1, steps, ts) && !OneEach(ts[|steps|], 1)
  {
    var t2 := was[|before|];
    NoneHeld(t2, 1);
    var take := Distributed(Emissions.Record(TAKER), None, 0, false);
    OneStep(h, k, 1, before, was, take);
    var t3 := After(h, k, 1, t2, take);
    steps, ts := MarkedLate(h, k, before + [take], was + [t3]);
  }

  /** The refused row is marked sent while the other one holds its nonce. */
  lemma MarkedLate(h: Relay.Hyp, k: Emissions.Hyp, before: seq<Step>, was: seq<Tables>)
    returns (steps: seq<Step>, ts: seq<Tables>)
    requires Run(h, k, 1, before, was)
    requires was[|before|].dist == Emissions.State([REFUSED.(status := Emissions.Failed), TAKER], {}, map[])
    ensures Run(h, k, 1, steps, ts) && !OneEach(ts[|steps|], 1)
  {
    var t3 := was[|before|];
    HeldAt(t3, 1, Distribution(0));
    var mark := Distributed(Emissions.MarkSent(0), None, 0, false);
    OneStep(h, k, 1, before, was, mark);
    var t4 := After(h, k, 1, t3, mark);
    assert Hold(t4, 1, Distribution(0)) == Some(0) == Hold(t4, 1, Distribution(1));
    steps, ts := before + [mark], was + [t4];
  }
}
