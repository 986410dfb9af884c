/**
 The process-wide nonce allocator of the relayer account, shared by the worker and the emissions route, and
 what it takes for no two in-flight rows to hold one nonce.
 */
module Nonce {
  import opened Options

  /** The nonce `reserve` hands out: the cache, or the node's pending count, raised to the floor. */
  function Reserved(next: Option<nat>, floor: Option<nat>, pending: nat): nat {
    var base := if next.Some? then next.value else pending;
    if floor.Some? && floor.value > base then floor.value else base
  }

  function Released(next: Option<nat>, n: nat): Option<nat> {
    if next.Some? && n + 1 == next.value then Some(n) else next
  }

  class NonceManager {
    var next: Option<nat>

    constructor ()
      ensures next == None
    {
      next := None;
    }

    /** `pending` is the node's answer, read only when the cache is empty. */
    method Reserve(floor: Option<nat>, pending: nat) returns (n: nat)
      modifies this
      ensures n == Reserved(old(next), floor, pending) && next == Some(n + 1)
    {
      if next == None {
        next := Some(pending);
      }
      if floor.Some? && floor.value > next.value {
        next := floor;
      }
      n := next.value;
      next := Some(next.value + 1);
    }

    method Resync(pending: nat)
      modifies this
      ensures next == Some(pending)
    {
      next := Some(pending);
    }

    method Release(n: nat)
      modifies this
      ensures next == Released(old(next), n)
    {
      if next.Some? && n + 1 == next.value {
        next := Some(n);
      }
    }

    method Invalidate()
      modifies this
      ensures next == None
    {
      next := None;
    }
  }

  // ------------------------------------------------------------------ held nonces and floors

  /** A row of one of the two tables that sign with this account. */
  datatype Owner = RelayJob(j: nat) | Distribution(i: nat)

  /** One past the highest of these nonces; None when there is none. */
  ghost predicate IsFloor(nonces: set<nat>, f: Option<nat>) {
    && (f == None <==> nonces == {})
    && (f.Some? ==> f.value > 0 && f.value - 1 in nonces)
    && (forall n :: n in nonces ==> f.Some? && n < f.value)
  }

  function Elements(nonces: seq<nat>): set<nat> {
    set n | n in nonces
  }

  /** The larger of two tables' highest nonces, plus one, as the two max queries give it. */
  method Floor(nonces: seq<nat>) returns (f: Option<nat>)
    ensures IsFloor(Elements(nonces), f)
  {
    f := None;
    for i := 0 to |nonces|
      invariant IsFloor(Elements(nonces[..i]), f)
    {
      assert nonces[..i + 1] == nonces[..i] + [nonces[i]];
      assert Elements(nonces[..i + 1]) == Elements(nonces[..i]) + {nonces[i]};
      if f == None || f.value <= nonces[i] {
        f := Some(nonces[i] + 1);
      }
    }
    assert nonces[..|nonces|] == nonces;
  }

  // ------------------------------------------------------------------ the allocator and its two callers

  /**
   `held` maps the in-flight rows of this sender to their nonces. `floor` is what the worker read before it took the
   lock, None when no send is between the two; the emissions route reads its floor under the lock.
   */
  datatype Alloc = Alloc(next: Option<nat>, held: map<Owner, nat>, floor: Option<Option<nat>>)

  datatype Move =
    | ReadFloor(f: Option<nat>)                              // worker, before the lock
    | WorkerReserve(o: Owner, pending: nat)                  // worker, under the lock: claim, reserve, write-ahead row
    | WorkerHandBack(pending: nat)                           // worker: signing raised, no row was written
    | AbandonSend                                            // worker: the claim found the job gone
    | RouteReserve(o: Owner, f: Option<nat>, pending: nat)   // emissions, all under the lock
    | RouteHandBack(f: Option<nat>, pending: nat)            // emissions: the index refused the insert
    | Leave(o: Owner)                                        // a row leaves flight, the allocator untouched
    | Refused(o: Owner)                                      // refused: the row leaves and its nonce is handed back
    | Superseded(o: Owner, pending: nat)                     // underpriced or too low: the row leaves, then resync
    | Resynced(pending: nat)                                 // a reconcile step's resync
    | HandBack(n: nat)                                       // a refusal answered after the row had left flight
    | Rejoin(o: Owner, n: nat)                               // a row marked sent again, with the nonce it had given up
    | Forget                                                 // invalidate, or a new process
    | Stay                                                   // nothing of this sender's nonces moves

  ghost predicate CanMove(a: Alloc, m: Move) {
    match m
    case ReadFloor(f) => a.floor == None && IsFloor(a.held.Values, f)
    case WorkerReserve(o, _) => a.floor.Some? && o !in a.held
    case WorkerHandBack(_) => a.floor.Some?
    case AbandonSend => a.floor.Some?
    case RouteReserve(o, f, _) => o !in a.held && IsFloor(a.held.Values, f)
    case RouteHandBack(f, _) => IsFloor(a.held.Values, f)
    case Leave(o) => true
    case Refused(o) => o in a.held
    case Superseded(o, _) => o in a.held
    case Resynced(_) => true
    case HandBack(_) => true
    case Rejoin(o, _) => o !in a.held
    case Forget => true
    case Stay => true
  }

  ghost function Moved(a: Alloc, m: Move): Alloc
    requires CanMove(a, m)
  {
    match m
    case ReadFloor(f) => a.(floor := Some(f))
    case WorkerReserve(o, p) =>
      var n := Reserved(a.next, a.floor.value, p);
      Alloc(Some(n + 1), a.held[o := n], None)
    case WorkerHandBack(p) => Alloc(Some(Reserved(a.next, a.floor.value, p)), a.held, None)
    case AbandonSend => a.(floor := None)
    case RouteReserve(o, f, p) =>
      var n := Reserved(a.next, f, p);
      a.(next := Some(n + 1), held := a.held[o := n])
    case RouteHandBack(f, p) => a.(next := Some(Reserved(a.next, f, p)))
    case Leave(o) => a.(held := a.held - {o})
    case Refused(o) => a.(held := a.held - {o}, next := Released(a.next, a.held[o]))
    case Superseded(o, p) => a.(held := a.held - {o}, next := Some(p))
    case Resynced(p) => a.(next := Some(p))
    case HandBack(n) => a.(next := Released(a.next, n))
    case Rejoin(o, n) => a.(held := a.held[o := n])
    case Forget => Alloc(None, a.held, None)
    case Stay => a
  }

  /** Handing a just reserved nonce back leaves the cache at it, as `reserve` then `release` do. */
  lemma HandBackIsRelease(next: Option<nat>, floor: Option<nat>, pending: nat)
    ensures var n := Reserved(next, floor, pending); Released(Some(n + 1), n) == Some(n)
  {
  }

  /**
   What keeps every reserve above the held nonces. Between the worker's floor read and its reserve, no resync or late
   hand-back lowers the cache to a nonce that is still held; and a row only re-enters flight with a nonce that nobody
   holds and the outstanding send will not take.
   */
  ghost predicate Timely(a: Alloc, m: Move)
    requires CanMove(a, m)
  {
    && (a.floor.Some? && (m.Superseded? || m.Resynced?) ==> forall o :: o in Moved(a, m).held ==> a.held[o] < m.pending)
    && (a.floor.Some? && m.HandBack? ==> m.n !in a.held.Values)
    && (m.Rejoin? ==> m.n !in a.held.Values && Below(a, m.n))
  }

  ghost predicate Unique(held: map<Owner, nat>) {
    forall o, q :: o in held && q in held && held[o] == held[q] ==> o == q
  }

  /** Below what the outstanding send will reserve. */
  predicate Below(a: Alloc, n: nat) {
    a.floor.Some? ==>
      (a.floor.value.Some? && n < a.floor.value.value) || (a.next.Some? && n < a.next.value)
  }

  ghost predicate Allocated(a: Alloc) {
    Unique(a.held) && forall o :: o in a.held ==> Below(a, a.held[o])
  }

  lemma MoveAllocates(a: Alloc, m: Move)
    requires Allocated(a) && CanMove(a, m) && Timely(a, m)
    ensures Allocated(Moved(a, m))
  {
    var b := Moved(a, m);
    forall o | o in a.held ensures a.held[o] in a.held.Values && Below(a, a.held[o]) {
    }
    forall o | o in b.held ensures Below(b, b.held[o]) {
      if o in a.held { assert Below(a, a.held[o]); }
    }
  }

  ghost predicate Allocations(ms: seq<Move>, states: seq<Alloc>) {
    && |states| == |ms| + 1 && states[0] == Alloc(None, map[], None)
    && forall i :: 0 <= i < |ms| ==> CanMove(states[i], ms[i]) && states[i + 1] == Moved(states[i], ms[i])
  }

  /**
   Over every sequence of reserves, releases, resyncs, hand-backs, late marks and invalidations, whatever the node's
   pending count says, no two in-flight rows hold the same nonce, as long as every move is timely.
   */
  lemma {:induction false} NoncesUnique(ms: seq<Move>, states: seq<Alloc>, k: nat)
    requires Allocations(ms, states) && k < |states|
    requires forall i :: 0 <= i < k ==> Timely(states[i], ms[i])
    ensures Allocated(states[k])
    decreases k
  {
    if k > 0 {
      NoncesUnique(ms, states, k - 1);
      MoveAllocates(states[k - 1], ms[k - 1]);
    }
  }

  /** Reading the floor under the lock, as the emissions route does, needs no assumption at all. */
  lemma LockedFloorUnique(a: Alloc, o: Owner, f: Option<nat>, pending: nat)
    requires Unique(a.held) && CanMove(a, RouteReserve(o, f, pending))
    ensures Unique(Moved(a, RouteReserve(o, f, pending)).held)
  {
    forall q | q in a.held ensures a.held[q] < Reserved(a.next, f, pending) {
      assert a.held[q] in a.held.Values;
    }
  }

  /** The nonce a move brings into flight. */
  function Taking(a: Alloc, m: Move): Option<nat> {
    match m
    case WorkerReserve(_, p) => Some(Reserved(a.next, if a.floor.Some? then a.floor.value else None, p))
    case RouteReserve(_, f, p) => Some(Reserved(a.next, f, p))
    case Rejoin(_, n) => Some(n)
    case _ => None
  }

  /** No in-flight row holds the nonce this move brings into flight. */
  predicate TakesFree(a: Alloc, m: Move) {
    var n := Taking(a, m);
    n.Some? ==> n.value !in a.held.Values
  }

  lemma TakeUniqueIff(held: map<Owner, nat>, o: Owner, n: nat)
    requires Unique(held) && o !in held
    ensures Unique(held[o := n]) <==> n !in held.Values
  {
    var b := held[o := n];
    if n in held.Values {
      var q :| q in held && held[q] == n;
      assert b[q] == n == b[o] && q != o;
    } else {
      forall q | q in held ensures held[q] != n {
        assert held[q] in held.Values;
      }
    }
  }

  /** A move keeps nonces unique if and only if it takes a free one, or none. */
  lemma MoveUniqueIff(a: Alloc, m: Move)
    requires Unique(a.held) && CanMove(a, m)
    ensures Unique(Moved(a, m).held) <==> TakesFree(a, m)
  {
    if m.WorkerReserve? || m.RouteReserve? || m.Rejoin? {
      TakeUniqueIff(a.held, m.o, Taking(a, m).value);
    }
  }

  ghost predicate AllUnique(states: seq<Alloc>, n: nat)
    requires n < |states|
  {
    forall i :: 0 <= i <= n ==> Unique(states[i].held)
  }

  ghost predicate AllFree(ms: seq<Move>, states: seq<Alloc>, n: nat)
    requires n <= |ms| && n <= |states|
  {
    forall i :: 0 <= i < n ==> TakesFree(states[i], ms[i])
  }

  /** Over any sequence, nonces are unique throughout if and only if every nonce was free when it was taken. */
  lemma {:induction false} UniqueIffFree(ms: seq<Move>, states: seq<Alloc>, n: nat)
    requires Allocations(ms, states) && n <= |ms|
    ensures AllUnique(states, n) <==> AllFree(ms, states, n)
    decreases n
  {
    if n > 0 {
      UniqueIffFree(ms, states, n - 1);
      assert AllUnique(states, n) <==> AllUnique(states, n - 1) && Unique(states[n].held);
      assert AllFree(ms, states, n) <==> AllFree(ms, states, n - 1) && TakesFree(states[n - 1], ms[n - 1]);
      if Unique(states[n - 1].held) {
        MoveUniqueIff(states[n - 1], ms[n - 1]);
      }
    }
  }

  /** The worker's reserve keeps nonces unique exactly when no in-flight row holds the nonce it is about to take. */
  lemma ReserveUniqueIff(a: Alloc, o: Owner, pending: nat)
    requires Unique(a.held) && CanMove(a, WorkerReserve(o, pending))
    ensures Unique(Moved(a, WorkerReserve(o, pending)).held) <==>
      Reserved(a.next, a.floor.value, pending) !in a.held.Values
  {
    MoveUniqueIff(a, WorkerReserve(o, pending));
  }

  /**
   The floor test that suffices: the nonce lies above every held one exactly when the floor read early, or the cache
   (the pending count when it is empty) at reserve time, does.
   */
  lemma EarlyFloorIff(a: Alloc, current: Option<nat>, pending: nat)
    requires a.floor.Some? && IsFloor(a.held.Values, current)
    ensures (forall n :: n in a.held.Values ==> n < Reserved(a.next, a.floor.value, pending)) <==>
      || current == None || (a.floor.value.Some? && current.value <= a.floor.value.value)
      || current.value <= (if a.next.Some? then a.next.value else pending)
  {
  }

  lemma OneMove(ms: seq<Move>, states: seq<Alloc>, m: Move)
    requires Allocations(ms, states) && CanMove(states[|ms|], m)
    ensures Allocations(ms + [m], states + [Moved(states[|ms|], m)])
  {
  }

  /**
   Without that atomicity the worker re-issues a held nonce: a distribution's broadcast is in doubt (held, not in
   any pool), a second one is refused and resyncs to the node's count, and the worker reserves on its old floor.
   */
  lemma StaleFloorDuplicates() returns (ms: seq<Move>, states: seq<Alloc>)
    ensures Allocations(ms, states) && !Unique(states[|ms|].held)
  {
    ms, states := [], [Alloc(None, map[], None)];
    OneMove(ms, states, ReadFloor(None));
    ms, states := ms + [ReadFloor(None)], states + [Alloc(None, map[], Some(None))];
    OneMove(ms, states, RouteReserve(Distribution(0), None, 4));
    var one := Alloc(Some(5), map[Distribution(0) := 4], Some(None));
    ms, states := ms + [RouteReserve(Distribution(0), None, 4)], states + [one];
    assert one.held.Values == {4} by { assert one.held[Distribution(0)] == 4; }
    OneMove(ms, states, RouteReserve(Distribution(1), Some(5), 4));
    var two := Alloc(Some(6), map[Distribution(0) := 4, Distribution(1) := 5], Some(None));
    ms, states := ms + [RouteReserve(Distribution(1), Some(5), 4)], states + [two];
    ms, states := ReissuedNonce(ms, states, two);
  }

  lemma ReissuedNonce(ms: seq<Move>, states: seq<Alloc>, two: Alloc) returns (ns: seq<Move>, ends: seq<Alloc>)
    requires Allocations(ms, states) && states[|ms|] == two
    requires two == Alloc(Some(6), map[Distribution(0) := 4, Distribution(1) := 5], Some(None))
    ensures Allocations(ns, ends) && !Unique(ends[|ns|].held)
  {
    OneMove(ms, states, Superseded(Distribution(1), 4));
    var three := Moved(two, Superseded(Distribution(1), 4));
    ns, ends := ms + [Superseded(Distribution(1), 4)], states + [three];
    OneMove(ns, ends, WorkerReserve(RelayJob(0), 4));
    var four := Moved(three, WorkerReserve(RelayJob(0), 4));
    ns, ends := ns + [WorkerReserve(RelayJob(0), 4)], ends + [four];
    assert four.held[Distribution(0)] == 4 == four.held[RelayJob(0)];
  }
}
