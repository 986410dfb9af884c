/**
 The crossing engine. Other sessions may move any row this session has not locked, so every fill goes through a
 guarded update; run alone, the engine fills in price-then-id priority until the taker or the book is exhausted.
 */
module Matcher {
  import opened Options
  import opened Relay
  import opened Sums

  datatype Fill = Fill(maker: nat, qty: nat, job: Option<nat>)

  function Remaining(o: Order): int {
    o.amount - o.filled
  }

  /** `late` orders expire too soon to be matched. */
  predicate Crosses(taker: Order, maker: Order, takerLate: bool, makerLate: bool) {
    if taker.asset != maker.asset then false
    else if taker.isBuy == maker.isBuy then false
    else if taker.cancelled || maker.cancelled then false
    else if taker.maker == maker.maker then false
    else if takerLate || makerLate then false
    else if taker.isBuy then taker.price >= maker.price
    else maker.price >= taker.price
  }

  /** Price-then-id priority for this taker: cheapest sell first, dearest buy first, oldest first at one price. */
  predicate Better(orders: seq<Order>, isBuy: bool, a: nat, b: nat)
    requires a < |orders| && b < |orders|
  {
    if orders[a].price == orders[b].price then a < b
    else if isBuy then orders[a].price < orders[b].price
    else orders[b].price < orders[a].price
  }

  predicate Candidate(orders: seq<Order>, late: set<nat>, taker: nat, m: nat)
    requires taker < |orders|
  {
    && m < |orders| && m != taker && Remaining(orders[m]) > 0
    && Crosses(orders[taker], orders[m], taker in late, m in late)
  }

  /** The same in the columns of the two rows: what makes a resting order a maker for this taker. */
  ghost predicate Eligible(rows: seq<Order>, late: set<nat>, taker: nat, m: nat)
    requires taker < |rows|
  {
    && m < |rows| && m != taker && rows[m].filled < rows[m].amount
    && !rows[taker].cancelled && !rows[m].cancelled && taker !in late && m !in late
    && rows[m].asset == rows[taker].asset && rows[m].isBuy == !rows[taker].isBuy && rows[m].maker != rows[taker].maker
    && (rows[taker].isBuy ==> rows[m].price <= rows[taker].price)
    && (!rows[taker].isBuy ==> rows[taker].price <= rows[m].price)
  }

  lemma CandidateIff(rows: seq<Order>, late: set<nat>, taker: nat, m: nat)
    requires taker < |rows|
    ensures Candidate(rows, late, taker, m) <==> Eligible(rows, late, taker, m)
  {
  }

  /** `a` is served before `b`: for a buyer the lower price, for a seller the higher, and at one price the lower id. */
  ghost predicate ServedFirst(rows: seq<Order>, isBuy: bool, a: nat, b: nat)
    requires a < |rows| && b < |rows|
  {
    && (isBuy ==> rows[a].price <= rows[b].price) && (!isBuy ==> rows[b].price <= rows[a].price)
    && (rows[a].price == rows[b].price ==> a < b)
  }

  lemma BetterIff(rows: seq<Order>, isBuy: bool, a: nat, b: nat)
    requires a < |rows| && b < |rows|
    ensures Better(rows, isBuy, a, b) <==> ServedFirst(rows, isBuy, a, b)
  {
  }

  /** What this taker's fills must be, in prices, ids and quantities of the rows before them. */
  ghost predicate FilledByPriority(rows: seq<Order>, late: set<nat>, taker: nat, fills: seq<Fill>)
    requires taker < |rows|
  {
    Proper(rows, late, taker, fills) && InOrder(rows, late, taker, fills) && Exhaustive(rows, late, taker, fills)
  }

  /** Each fill is on an eligible order and within its room, and all but the last take the whole room. */
  ghost predicate Proper(rows: seq<Order>, late: set<nat>, taker: nat, fills: seq<Fill>)
    requires taker < |rows|
  {
    && (forall k :: 0 <= k < |fills| ==>
          Eligible(rows, late, taker, fills[k].maker)
          && 0 < fills[k].qty <= rows[fills[k].maker].amount - rows[fills[k].maker].filled)
    && (forall k :: 0 <= k < |fills| - 1 ==>
          fills[k].qty == rows[fills[k].maker].amount - rows[fills[k].maker].filled)
  }

  /** The fills go by price and id, and nobody who was left out would have been served before any of them. */
  ghost predicate InOrder(rows: seq<Order>, late: set<nat>, taker: nat, fills: seq<Fill>)
    requires taker < |rows| && Proper(rows, late, taker, fills)
  {
    && (forall i, k :: 0 <= i < k < |fills| ==>
          ServedFirst(rows, rows[taker].isBuy, fills[i].maker, fills[k].maker))
    && (forall k, m: nat :: 0 <= k < |fills| && Eligible(rows, late, taker, m) && Untouched(fills, m) ==>
          ServedFirst(rows, rows[taker].isBuy, fills[k].maker, m))
  }

  /** The fills stay within the taker's room, and end when it is used up or no eligible order has any left. */
  ghost predicate Exhaustive(rows: seq<Order>, late: set<nat>, taker: nat, fills: seq<Fill>)
    requires taker < |rows|
  {
    && Sum(Quantities(fills)) <= rows[taker].amount - rows[taker].filled
    && (Sum(Quantities(fills)) == rows[taker].amount - rows[taker].filled ||
        forall m: nat :: Eligible(rows, late, taker, m) ==> Drained(rows, fills, m))
  }

  /** One of the fills took all that was left of this row. */
  ghost predicate Drained(rows: seq<Order>, fills: seq<Fill>, m: nat) {
    m < |rows| && exists k :: 0 <= k < |fills| && fills[k].maker == m && fills[k].qty == rows[m].amount - rows[m].filled
  }

  predicate Ordered(orders: seq<Order>, isBuy: bool, q: seq<nat>) {
    && (forall i :: 0 <= i < |q| ==> q[i] < |orders|)
    && (forall i, j :: 0 <= i < j < |q| ==> Better(orders, isBuy, q[i], q[j]))
  }

  /** The book as this taker walks it: exactly the crossing makers with room, best first. */
  ghost predicate Queue(orders: seq<Order>, late: set<nat>, taker: nat, q: seq<nat>)
    requires taker < |orders|
  {
    Ordered(orders, orders[taker].isBuy, q) && forall m :: m in q <==> Candidate(orders, late, taker, m)
  }

  // ------------------------------------------------------------------ what priority and exhaustion determine

  function Rooms(orders: seq<Order>, q: seq<nat>): (r: seq<nat>)
    requires forall i :: 0 <= i < |q| ==> q[i] < |orders| && orders[q[i]].filled <= orders[q[i]].amount
    ensures |r| == |q| && forall i :: 0 <= i < |q| ==> r[i] == Remaining(orders[q[i]])
  {
    seq(|q|, i requires 0 <= i < |q| => orders[q[i]].amount - orders[q[i]].filled)
  }

  /** Fill the first as far as possible, then the next. */
  function Greedy(rooms: seq<nat>, need: nat): (alloc: seq<nat>)
    ensures |alloc| == |rooms|
  {
    if rooms == [] then []
    else
      var q := if rooms[0] < need then rooms[0] else need;
      [q] + Greedy(rooms[1..], need - q)
  }

  /** No maker gets anything while a better one has room, and filling stops only for want of taker or makers. */
  ghost predicate PriorityFill(rooms: seq<nat>, need: nat, alloc: seq<nat>) {
    && |alloc| == |rooms| && Sum(alloc) <= need
    && (forall i :: 0 <= i < |rooms| ==> alloc[i] <= rooms[i])
    && (forall i, j :: 0 <= i < j < |rooms| && alloc[j] > 0 ==> alloc[i] == rooms[i])
    && (Sum(alloc) == need || alloc == rooms)
  }

  lemma {:induction false} SumFront(ws: seq<nat>)
    requires ws != []
    ensures Sum(ws) == ws[0] + Sum(ws[1..])
  {
    var n := |ws| - 1;
    if n > 0 {
      SumFront(ws[..n]);
      assert ws[..n][1..] == ws[1..][..n - 1];
    }
  }

  lemma {:induction false} SumZeros(ws: seq<nat>)
    requires Sum(ws) == 0
    ensures forall i :: 0 <= i < |ws| ==> ws[i] == 0
  {
    forall i | 0 <= i < |ws| ensures ws[i] == 0 {
      SumAtLeast(ws, i);
    }
  }

  /** The best maker gets all it can, and the rest is a priority fill of the rest. */
  lemma PriorityTail(rooms: seq<nat>, need: nat, alloc: seq<nat>)
    requires PriorityFill(rooms, need, alloc) && rooms != []
    ensures alloc[0] == (if rooms[0] < need then rooms[0] else need)
    ensures PriorityFill(rooms[1..], need - alloc[0], alloc[1..])
  {
    var rest := alloc[1..];
    SumFront(alloc);
    if alloc[0] < rooms[0] {
      forall j | 0 <= j < |rest| ensures rest[j] == 0 {
        assert alloc[j + 1] == 0;
      }
      AllZero(rest);
    }
    forall i, j | 0 <= i < j < |rest| && rest[j] > 0 ensures rest[i] == rooms[1..][i] {
      assert alloc[j + 1] > 0 && alloc[i + 1] == rooms[i + 1];
    }
  }

  /** Price priority with exhaustion determines every quantity: it is the greedy allocation and nothing else. */
  lemma {:induction false} PriorityFillUnique(rooms: seq<nat>, need: nat, alloc: seq<nat>)
    requires PriorityFill(rooms, need, alloc)
    ensures alloc == Greedy(rooms, need)
  {
    if rooms == [] {
      assert alloc == [];
    } else {
      var q := alloc[0];
      PriorityTail(rooms, need, alloc);
      PriorityFillUnique(rooms[1..], need - q, alloc[1..]);
      GreedyCons(rooms, need, alloc);
    }
  }

  lemma GreedyCons(rooms: seq<nat>, need: nat, alloc: seq<nat>)
    requires rooms != [] && alloc != [] && alloc[0] == (if rooms[0] < need then rooms[0] else need)
    requires alloc[1..] == Greedy(rooms[1..], need - alloc[0])
    ensures alloc == Greedy(rooms, need)
  {
    assert alloc == [alloc[0]] + alloc[1..];
  }

  /** One more maker at the front. */
  lemma PriorityStep(rooms: seq<nat>, need: nat, alloc: seq<nat>)
    requires rooms != [] && alloc != [] && alloc[0] == (if rooms[0] < need then rooms[0] else need)
    requires PriorityFill(rooms[1..], need - alloc[0], alloc[1..])
    ensures PriorityFill(rooms, need, alloc)
  {
    var rest := alloc[1..];
    SumFront(alloc);
    forall i | 0 < i < |rooms|
      ensures alloc[i] == rest[i - 1] && rooms[i] == rooms[1..][i - 1] && alloc[i] <= rooms[i]
    {
    }
    forall i, j | 0 <= i < j < |rooms| && alloc[j] > 0 ensures alloc[i] == rooms[i] {
      assert rest[j - 1] > 0;
      if alloc[0] < rooms[0] {
        SumZeros(rest);
        assert false;
      }
      if i > 0 { assert rest[i - 1] == rooms[1..][i - 1]; }
    }
  }

  /** The greedy allocation respects priority and exhausts the taker or the book. */
  lemma {:induction false} GreedyIsPriority(rooms: seq<nat>, need: nat)
    ensures PriorityFill(rooms, need, Greedy(rooms, need))
  {
    if rooms != [] {
      var q := if rooms[0] < need then rooms[0] else need;
      var rest := Greedy(rooms[1..], need - q);
      GreedyIsPriority(rooms[1..], need - q);
      assert ([q] + rest)[1..] == rest;
      PriorityStep(rooms, need, [q] + rest);
      GreedyCons(rooms, need, [q] + rest);
    }
  }

  lemma {:induction false} GreedyZero(rooms: seq<nat>)
    ensures forall i :: 0 <= i < |rooms| ==> Greedy(rooms, 0)[i] == 0
  {
    if rooms != [] {
      GreedyZero(rooms[1..]);
    }
  }

  /** The walk so far, with nobody else running: one fill per maker passed, the rest of the queue untouched. */
  ghost predicate Walked(was: seq<Order>, now: seq<Order>, taker: nat, q: seq<nat>, i: nat, fills: seq<Fill>) {
    && |now| == |was| && taker < |was| && i <= |q| && |fills| == i && (i > 0 ==> Remaining(now[taker]) > 0)
    && (forall o :: 0 <= o < |was| ==>
          SameTerms(was[o], now[o]) && was[o].filled <= was[o].amount && now[o].filled <= now[o].amount)
    && !now[taker].cancelled && (forall k :: 0 <= k < |q| ==> q[k] < |was| && q[k] != taker)
    && (forall k :: i <= k < |q| ==>
          now[q[k]].filled == was[q[k]].filled && !now[q[k]].cancelled && Remaining(was[q[k]]) > 0)
    && (forall k :: 0 <= k < i ==> fills[k].maker == q[k] && fills[k].qty > 0)
    && Greedy(Rooms(was, q), was[taker].amount - was[taker].filled)
         == Quantities(fills) + Greedy(Rooms(was, q)[i..], now[taker].amount - now[taker].filled)
  }

  /** These fills, one per maker from the front of the queue, are the greedy allocation. */
  ghost predicate Allocated(was: seq<Order>, taker: nat, q: seq<nat>, fills: seq<Fill>)
    requires taker < |was| && was[taker].filled <= was[taker].amount
    requires forall k :: 0 <= k < |q| ==> q[k] < |was| && was[q[k]].filled <= was[q[k]].amount
  {
    var alloc := Greedy(Rooms(was, q), was[taker].amount - was[taker].filled);
    && |fills| <= |q| && (forall k :: 0 <= k < |fills| ==> fills[k].maker == q[k] && fills[k].qty == alloc[k] > 0)
    && (forall k :: |fills| <= k < |q| ==> alloc[k] == 0)
  }

  lemma WalkStarts(was: seq<Order>, late: set<nat>, taker: nat, q: seq<nat>)
    requires taker < |was| && Crossers(was, late, taker, q) && q != []
    requires forall o :: 0 <= o < |was| ==> was[o].filled <= was[o].amount
    ensures Walked(was, was, taker, q, 0, [])
  {
    assert Candidate(was, late, taker, q[0]);
    var none: seq<Fill> := [];
    assert Rooms(was, q)[0..] == Rooms(was, q) && Quantities(none) == [];
  }

  /** The greedy allocation of the makers left, one maker later. */
  lemma GreedyOn(all: seq<nat>, rooms: seq<nat>, need: nat, i: nat, fills: seq<Fill>, f: Fill)
    requires i < |rooms| && f.qty == (if rooms[i] < need then rooms[i] else need)
    requires all == Quantities(fills) + Greedy(rooms[i..], need)
    ensures all == Quantities(fills + [f]) + Greedy(rooms[i + 1..], need - f.qty)
  {
    assert rooms[i..][1..] == rooms[i + 1..];
    assert Greedy(rooms[i..], need) == [f.qty] + Greedy(rooms[i + 1..], need - f.qty);
    assert Quantities(fills + [f]) == Quantities(fills) + [f.qty];
  }

  /** Rows of a fill with nobody else running. */
  lemma BookedRows(now: seq<Order>, taker: nat, maker: nat, qty: nat, relay: bool)
    requires taker < |now| && maker < |now| && taker != maker
    ensures var next := Booked(now, taker, maker, qty, relay);
      && next[taker].filled == now[taker].filled + qty && next[maker].filled == now[maker].filled + qty
      && (forall o :: 0 <= o < |now| ==> SameTerms(now[o], next[o]) && next[o].cancelled == now[o].cancelled)
      && (forall o :: 0 <= o < |now| && o != taker && o != maker ==> next[o] == now[o])
  {
  }

  /** A fill between two open crossing orders is the machine's match event, and this is its effect. */
  lemma FillIsEvent(h: Hyp, s: State, late: set<nat>, was: seq<Order>, taker: nat, maker: nat, qty: nat, relay: bool)
    requires |s.orders| == |was| == |s.onchain| && taker < |was| && Candidate(was, late, taker, maker)
    requires SameTerms(was[taker], s.orders[taker]) && SameTerms(was[maker], s.orders[maker])
    requires !s.orders[taker].cancelled && !s.orders[maker].cancelled
    requires 0 < qty == Least(Remaining(s.orders[taker]), Remaining(s.orders[maker]))
    ensures Enabled(h, s, EventOf(relay, taker, maker, qty))
    ensures Next(h, s, EventOf(relay, taker, maker, qty)) == s.(orders := Booked(s.orders, taker, maker, qty, relay),
              jobs := if relay then s.jobs + [NewJob(taker, maker, qty)] else s.jobs)
  {
    assert Crossing(s, taker, maker, qty);
    assert Taken(s, taker, maker, qty, if relay then 0 else qty) == Booked(s.orders, taker, maker, qty, relay);
  }

  /** One more maker; when the taker is not exhausted by it, the walk goes on. */
  lemma WalkOn(
    was: seq<Order>, now: seq<Order>, next: seq<Order>, taker: nat, q: seq<nat>, i: nat, fills: seq<Fill>, f: Fill,
    relay: bool)
    requires Walked(was, now, taker, q, i, fills) && i < |q| && (forall j, k :: 0 <= j < k < |q| ==> q[j] != q[k])
    requires f.maker == q[i] && 0 < f.qty == Least(Remaining(now[taker]), Remaining(now[q[i]]))
    requires next == Booked(now, taker, q[i], f.qty, relay)
    ensures Remaining(next[taker]) > 0 ==> Walked(was, next, taker, q, i + 1, fills + [f])
    ensures Remaining(next[taker]) == 0 ==> Allocated(was, taker, q, fills + [f])
  {
    BookedRows(now, taker, q[i], f.qty, relay);
    WalkGreedy(was, now, taker, q, i, fills, f);
    if Remaining(next[taker]) == 0 {
      WalkDone(was, taker, q, fills + [f], Rooms(was, q)[i + 1..]);
    } else {
      WalkRows(was, now, next, taker, q, i, fills, f);
    }
  }

  lemma WalkGreedy(was: seq<Order>, now: seq<Order>, taker: nat, q: seq<nat>, i: nat, fills: seq<Fill>, f: Fill)
    requires Walked(was, now, taker, q, i, fills) && i < |q|
    requires f.qty == Least(Remaining(now[taker]), Remaining(now[q[i]])) > 0
    ensures f.qty <= now[taker].amount - now[taker].filled
    ensures Greedy(Rooms(was, q), was[taker].amount - was[taker].filled)
      == Quantities(fills + [f]) + Greedy(Rooms(was, q)[i + 1..], now[taker].amount - now[taker].filled - f.qty)
  {
    var rooms := Rooms(was, q);
    assert rooms[i] == Remaining(now[q[i]]);
    var alloc := Greedy(rooms, was[taker].amount - was[taker].filled);
    GreedyOn(alloc, rooms, now[taker].amount - now[taker].filled, i, fills, f);
  }

  lemma WalkRows(
    was: seq<Order>, now: seq<Order>, next: seq<Order>, taker: nat, q: seq<nat>, i: nat, fills: seq<Fill>, f: Fill)
    requires Walked(was, now, taker, q, i, fills) && i < |q| && (forall j, k :: 0 <= j < k < |q| ==> q[j] != q[k])
    requires |next| == |now| && f.qty > 0 && f.maker == q[i] && Remaining(next[taker]) > 0
    requires forall o :: 0 <= o < |now| ==> SameTerms(now[o], next[o]) && next[o].cancelled == now[o].cancelled
    requires forall o :: 0 <= o < |now| ==>
      next[o].filled <= next[o].amount && (o != taker && o != q[i] ==> next[o] == now[o])
    requires Greedy(Rooms(was, q), was[taker].amount - was[taker].filled)
      == Quantities(fills + [f]) + Greedy(Rooms(was, q)[i + 1..], next[taker].amount - next[taker].filled)
    ensures Walked(was, next, taker, q, i + 1, fills + [f])
  {
    assert forall k :: i + 1 <= k < |q| ==> next[q[k]] == now[q[k]];
  }

  lemma WalkDone(was: seq<Order>, taker: nat, q: seq<nat>, fills: seq<Fill>, rest: seq<nat>)
    requires taker < |was| && was[taker].filled <= was[taker].amount && |fills| + |rest| == |q|
    requires forall k :: 0 <= k < |q| ==> q[k] < |was| && was[q[k]].filled <= was[q[k]].amount
    requires forall k :: 0 <= k < |fills| ==> fills[k].maker == q[k] && fills[k].qty > 0
    requires Greedy(Rooms(was, q), was[taker].amount - was[taker].filled) == Quantities(fills) + Greedy(rest, 0)
    ensures Allocated(was, taker, q, fills)
  {
    GreedyZero(rest);
    var alloc := Greedy(Rooms(was, q), was[taker].amount - was[taker].filled);
    forall k | |fills| <= k < |q| ensures alloc[k] == 0 {
      assert alloc[k] == Greedy(rest, 0)[k - |fills|];
    }
  }

  /** The taker had nothing left, or the queue ran out. */
  lemma WalkEnds(was: seq<Order>, now: seq<Order>, taker: nat, q: seq<nat>, i: nat, fills: seq<Fill>)
    requires Walked(was, now, taker, q, i, fills) && (i == |q| || Remaining(now[taker]) <= 0)
    ensures Allocated(was, taker, q, fills)
  {
    if i < |q| {
      WalkDone(was, taker, q, fills, Rooms(was, q)[i..]);
    }
  }

  /** No fill with this maker. */
  predicate Untouched(fills: seq<Fill>, m: nat) {
    forall i :: 0 <= i < |fills| ==> fills[i].maker != m
  }

  /** One fill takes all of this maker's room. */
  predicate TakenWhole(was: seq<Order>, fills: seq<Fill>, m: nat)
    requires m < |was|
  {
    exists k :: 0 <= k < |fills| && fills[k].maker == m && fills[k].qty == Remaining(was[m])
  }

  /**
   What the allocation means: every maker but the last one filled is exhausted, every maker not filled is worse than
   all that were, and filling stopped because the taker or every crossing maker was exhausted.
   */
  lemma AllocationMeaning(was: seq<Order>, late: set<nat>, taker: nat, q: seq<nat>, fills: seq<Fill>)
    requires taker < |was| && (forall o :: 0 <= o < |was| ==> was[o].filled <= was[o].amount)
    requires Queue(was, late, taker, q) && Allocated(was, taker, q, fills)
    ensures forall i :: 0 <= i < |fills| - 1 ==> fills[i].qty == Remaining(was[fills[i].maker])
    ensures forall k, m: nat :: 0 <= k < |fills| && Candidate(was, late, taker, m) && Untouched(fills, m) ==>
      Better(was, was[taker].isBuy, fills[k].maker, m)
    ensures Sum(Quantities(fills)) == Remaining(was[taker]) ||
      forall m: nat :: Candidate(was, late, taker, m) ==> TakenWhole(was, fills, m)
  {
    GreedyIsPriority(Rooms(was, q), was[taker].amount - was[taker].filled);
    Exhausts(was, late, taker, q, fills);
    forall k, m: nat | 0 <= k < |fills| && Candidate(was, late, taker, m) && Untouched(fills, m)
      ensures Better(was, was[taker].isBuy, fills[k].maker, m)
    {
      var j :| 0 <= j < |q| && q[j] == m;
    }
  }

  /** The allocation in raw prices, ids and quantities. */
  lemma AllocationByPriority(was: seq<Order>, late: set<nat>, taker: nat, q: seq<nat>, fills: seq<Fill>)
    requires taker < |was| && (forall o :: 0 <= o < |was| ==> was[o].filled <= was[o].amount)
    requires Queue(was, late, taker, q) && Allocated(was, taker, q, fills)
    ensures FilledByPriority(was, late, taker, fills)
  {
    AllocationProper(was, late, taker, q, fills);
    AllocationInOrder(was, late, taker, q, fills);
    AllocationExhausts(was, late, taker, q, fills);
  }

  /** The quantities: positive, within the maker's room, and all of it but for the last. */
  lemma AllocatedRooms(was: seq<Order>, taker: nat, q: seq<nat>, fills: seq<Fill>)
    requires taker < |was| && was[taker].filled <= was[taker].amount
    requires forall k :: 0 <= k < |q| ==> q[k] < |was| && was[q[k]].filled <= was[q[k]].amount
    requires Allocated(was, taker, q, fills)
    ensures forall k :: 0 <= k < |fills| ==> 0 < fills[k].qty <= was[q[k]].amount - was[q[k]].filled
    ensures forall k :: 0 <= k < |fills| - 1 ==> fills[k].qty == was[q[k]].amount - was[q[k]].filled
    ensures Sum(Quantities(fills)) <= was[taker].amount - was[taker].filled
  {
    var rooms, need := Rooms(was, q), was[taker].amount - was[taker].filled;
    var alloc := Greedy(rooms, need);
    GreedyIsPriority(rooms, need);
    forall k | 0 <= k < |fills| - 1 ensures fills[k].qty == rooms[k] {
      assert alloc[|fills| - 1] > 0;
    }
    SumPadded(alloc, |fills|);
    assert alloc[..|fills|] == Quantities(fills);
  }

  lemma AllocationProper(was: seq<Order>, late: set<nat>, taker: nat, q: seq<nat>, fills: seq<Fill>)
    requires taker < |was| && (forall o :: 0 <= o < |was| ==> was[o].filled <= was[o].amount)
    requires Queue(was, late, taker, q) && Allocated(was, taker, q, fills)
    ensures Proper(was, late, taker, fills)
  {
    AllocatedRooms(was, taker, q, fills);
    forall k | 0 <= k < |fills| ensures Eligible(was, late, taker, fills[k].maker) {
      assert q[k] in q;
      CandidateIff(was, late, taker, q[k]);
    }
  }

  lemma AllocationInOrder(was: seq<Order>, late: set<nat>, taker: nat, q: seq<nat>, fills: seq<Fill>)
    requires taker < |was| && (forall o :: 0 <= o < |was| ==> was[o].filled <= was[o].amount)
    requires Queue(was, late, taker, q) && Allocated(was, taker, q, fills) && Proper(was, late, taker, fills)
    ensures InOrder(was, late, taker, fills)
  {
    forall i, k | 0 <= i < k < |fills|
      ensures ServedFirst(was, was[taker].isBuy, fills[i].maker, fills[k].maker)
    {
      BetterIff(was, was[taker].isBuy, q[i], q[k]);
    }
    forall k, m: nat | 0 <= k < |fills| && Eligible(was, late, taker, m) && Untouched(fills, m)
      ensures ServedFirst(was, was[taker].isBuy, fills[k].maker, m)
    {
      CandidateIff(was, late, taker, m);
      var j :| 0 <= j < |q| && q[j] == m;
      assert j >= |fills| > k;
      BetterIff(was, was[taker].isBuy, q[k], m);
    }
  }

  lemma AllocationExhausts(was: seq<Order>, late: set<nat>, taker: nat, q: seq<nat>, fills: seq<Fill>)
    requires taker < |was| && (forall o :: 0 <= o < |was| ==> was[o].filled <= was[o].amount)
    requires Queue(was, late, taker, q) && Allocated(was, taker, q, fills)
    ensures Exhaustive(was, late, taker, fills)
  {
    AllocatedRooms(was, taker, q, fills);
    Exhausts(was, late, taker, q, fills);
    if Sum(Quantities(fills)) != was[taker].amount - was[taker].filled {
      forall m: nat | Eligible(was, late, taker, m) ensures Drained(was, fills, m) {
        CandidateIff(was, late, taker, m);
        assert TakenWhole(was, fills, m);
      }
    }
  }

  /** Filling stopped because the taker or every crossing maker was exhausted. */
  lemma Exhausts(was: seq<Order>, late: set<nat>, taker: nat, q: seq<nat>, fills: seq<Fill>)
    requires taker < |was| && (forall o :: 0 <= o < |was| ==> was[o].filled <= was[o].amount)
    requires Queue(was, late, taker, q) && Allocated(was, taker, q, fills)
    ensures Sum(Quantities(fills)) == Remaining(was[taker]) ||
      forall m: nat :: Candidate(was, late, taker, m) ==> TakenWhole(was, fills, m)
  {
    var rooms, need := Rooms(was, q), was[taker].amount - was[taker].filled;
    var alloc := Greedy(rooms, need);
    GreedyIsPriority(rooms, need);
    SumPadded(alloc, |fills|);
    assert alloc[..|fills|] == Quantities(fills);
    if Sum(alloc) != need {
      forall m: nat | Candidate(was, late, taker, m)
        ensures exists k :: 0 <= k < |fills| && fills[k].maker == m && fills[k].qty == Remaining(was[m])
      {
        var j :| 0 <= j < |q| && q[j] == m;
        assert alloc[j] == rooms[j] > 0;
        assert fills[j].maker == m;
      }
    }
  }

  lemma {:induction false} SumPadded(ws: seq<nat>, n: nat)
    requires n <= |ws| && forall k :: n <= k < |ws| ==> ws[k] == 0
    ensures Sum(ws) == Sum(ws[..n])
  {
    if n < |ws| {
      var last := |ws| - 1;
      SumPadded(ws[..last], n);
      assert ws[..last][..n] == ws[..n];
    } else {
      assert ws[..n] == ws;
    }
  }

  // ------------------------------------------------------------------ the engine

  predicate SameTerms(a: Order, b: Order) {
    b == a.(filled := b.filled, cancelled := b.cancelled, offchain := b.offchain)
  }

  /** Fill of order `o` in these fills of `taker`. */
  function FilledOn(fills: seq<Fill>, taker: nat, o: nat): nat {
    if fills == [] then 0
    else
      var last := fills[|fills| - 1];
      FilledOn(fills[..|fills| - 1], taker, o) + if o == taker || o == last.maker then last.qty else 0
  }

  function Quantities(fills: seq<Fill>): (q: seq<nat>)
    ensures |q| == |fills| && forall k :: 0 <= k < |q| ==> q[k] == fills[k].qty
  {
    seq(|fills|, k requires 0 <= k < |fills| => fills[k].qty)
  }

  class Engine {
    // committed rows, and what this session has read of them
    var orders: seq<Order>
    var jobs: seq<Job>
    var view: seq<Order>
    const relay: bool
    /** Fill of the rows this session has locked, as it was before its first update of them. */
    ghost var before: map<nat, nat>
    /** No other session runs. */
    ghost const quiet: bool
    /** The rest of the backend's state. */
    ghost const world: State

    ghost function Snap(): State
      reads this
    {
      world.(orders := orders, jobs := jobs)
    }

    ghost predicate Valid()
      reads this
    {
      && |view| <= |orders|
      && (forall o :: 0 <= o < |orders| ==> orders[o].filled <= orders[o].amount)
      && (forall o :: 0 <= o < |view| ==> SameTerms(view[o], orders[o]) && view[o].filled <= view[o].amount)
      && (forall o :: o in before ==> o < |view|)
      && (quiet ==> view == orders && |world.onchain| == |orders|)
    }

    /** Other sessions: they post orders, and fill, roll back or cancel any row this session has not locked. */
    method Others()
      requires Valid()
      modifies this`orders
      ensures Valid() && |old(orders)| <= |orders|
      ensures forall o :: 0 <= o < |old(orders)| ==> SameTerms(old(orders)[o], orders[o])
      ensures forall o :: o in before ==> orders[o] == old(orders)[o]
      ensures quiet ==> orders == old(orders)
    {
    }

    /** Guarded update: add `qty` if the row is open and has room; the session's copy is refreshed either way. */
    method Take(o: nat, qty: nat) returns (ok: bool)
      requires Valid() && o < |view|
      modifies this`orders, this`view, this`before
      ensures Valid() && |view| == |old(view)| && view == old(view)[o := view[o]]
      ensures view[o].filled == orders[o].filled && view[o].cancelled == orders[o].cancelled
      ensures forall x :: x in old(before) && x != o ==> orders[x] == old(orders)[x]
      ensures o in old(before) ==> orders[o].filled == old(orders)[o].filled + if ok then qty else 0
      ensures ok && o !in old(before) ==>
        o in before && before == old(before)[o := before[o]] && orders[o].filled == before[o] + qty
      ensures !ok || o in old(before) ==> before == old(before)
      ensures ok ==> !orders[o].cancelled
      ensures quiet ==> ok == (!old(orders)[o].cancelled && old(orders)[o].filled + qty <= old(orders)[o].amount)
      ensures quiet ==>
        orders == if ok then old(orders)[o := old(orders)[o].(filled := old(orders)[o].filled + qty)] else old(orders)
    {
      Others();
      ok := !orders[o].cancelled && orders[o].filled + qty <= orders[o].amount;
      if ok {
        before := if o in before then before else before[o := orders[o].filled];
        orders := orders[o := orders[o].(filled := orders[o].filled + qty)];
      }
      view := view[o := view[o].(filled := orders[o].filled, cancelled := orders[o].cancelled)];
    }

    /** Undo this session's own take; the row is still locked, so the guard holds. */
    method GiveBack(o: nat, qty: nat)
      requires Valid() && o < |view| && o in before && orders[o].filled == before[o] + qty
      modifies this`orders, this`view
      ensures Valid() && |view| == |old(view)| && view == old(view)[o := view[o]] && orders[o].filled == before[o]
      ensures view[o].filled == orders[o].filled && view[o].cancelled == orders[o].cancelled
      ensures forall x :: x in before && x != o ==> orders[x] == old(orders)[x]
    {
      Others();
      if orders[o].filled >= qty {
        orders := orders[o := orders[o].(filled := orders[o].filled - qty)];
      }
      view := view[o := view[o].(filled := orders[o].filled, cancelled := orders[o].cancelled)];
    }

    /** Maker first, then taker; a maker taken alone is given back. */
    method TakeBoth(taker: nat, maker: nat, qty: nat) returns (both: bool, gone: bool)
      requires Valid() && taker < |view| && maker < |view| && taker != maker && qty > 0
      requires maker in before ==> orders[maker].filled == before[maker]
      modifies this`orders, this`view, this`before
      ensures Valid() && |view| == |old(view)| && Extends(old(before), before, taker, maker)
      ensures forall o :: o in old(before) && o != taker && o != maker ==> orders[o] == old(orders)[o]
      ensures taker in old(before) ==> orders[taker].filled == old(orders)[taker].filled + if both then qty else 0
      ensures taker in before && taker !in old(before) ==>
        orders[taker].filled == before[taker] + if both then qty else 0
      ensures maker in before ==> orders[maker].filled == before[maker] + if both then qty else 0
      ensures if both then view[taker].filled == orders[taker].filled else gone ==> view[taker].cancelled
      ensures !both && !gone && view[taker].cancelled ==> view[taker] == old(view)[taker]
      ensures if both then !gone && taker in before && maker in before else Extends(old(before), before, maker, maker)
      ensures quiet && Free(old(orders)[taker], qty) && Free(old(orders)[maker], qty) ==>
        both && orders == Plus(Plus(old(orders), maker, qty), taker, qty)
    {
      gone := false;
      both := Take(maker, qty);
      if both {
        both := Take(taker, qty);
        if !both {
          GiveBack(maker, qty);
          gone := view[taker].cancelled;
        }
      }
    }

    /** One try at what both sides have left by the rows as read. */
    method TryOnce(taker: nat, maker: nat) returns (qty: nat, again: bool, gone: bool)
      requires Valid() && taker < |view| && maker < |view| && taker != maker
      requires maker in before ==> orders[maker].filled == before[maker]
      modifies this`orders, this`view, this`before
      ensures Valid() && |view| == |old(view)| && Extends(old(before), before, taker, maker) && !(again && gone)
      ensures forall o :: o in old(before) ==>
        orders[o].filled == old(orders)[o].filled + if o == taker || o == maker then qty else 0
      ensures forall o :: o in before && o !in old(before) ==> orders[o].filled == before[o] + qty
      ensures if qty > 0
              then !again && !gone && taker in before && maker in before && view[taker].filled == orders[taker].filled
              else Extends(old(before), before, maker, maker)
      ensures qty == 0 || qty == Least(Remaining(old(view)[taker]), Remaining(old(view)[maker]))
      ensures qty == 0 && !again && !gone ==> view == old(view) && Spent(view, taker, maker)
      ensures again || gone ==> !Spent(old(view), taker, maker) && qty == 0
      ensures gone ==> view[taker].cancelled
      ensures again && view[taker].cancelled ==> view[taker] == old(view)[taker]
      ensures quiet && !old(orders)[taker].cancelled && !old(orders)[maker].cancelled ==>
        !gone && !again && Alone(old(orders), orders, taker, maker, qty)
    {
      again, gone := false, false;
      qty := Least(Remaining(view[taker]), Remaining(view[maker]));
      if qty == 0 || view[maker].cancelled {
        qty := 0;
      } else {
        var both;
        both, gone := TakeBoth(taker, maker, qty);
        if !both {
          qty, again := 0, !gone;
        }
      }
    }

    /**
     At most two tries: what was read may be stale, never what was updated. A maker is passed over only when nothing was
     left by the rows as read, or when both tries were lost to others.
     */
    method FillOne(taker: nat, maker: nat) returns (qty: nat, gone: bool, ghost tries: nat)
      requires Valid() && taker < |view| && maker < |view| && taker != maker && maker !in before
      modifies this`orders, this`view, this`before
      ensures Valid() && |view| == |old(view)| && Extends(old(before), before, taker, maker)
      ensures forall o :: o in old(before) ==> orders[o].filled == old(orders)[o].filled + if o == taker then qty else 0
      ensures forall o :: o in before && o !in old(before) ==> orders[o].filled == before[o] + qty
      ensures qty > 0 ==> !gone && taker in before && maker in before && view[taker].filled == orders[taker].filled
      ensures 1 <= tries <= 2 && (tries == 1 && qty > 0 ==>
        qty == Least(Remaining(old(view)[taker]), Remaining(old(view)[maker])))
      ensures tries == 1 && qty == 0 ==> gone || Spent(view, taker, maker)
      ensures gone ==> qty == 0 && view[taker].cancelled
      ensures quiet && !old(orders)[taker].cancelled && !old(orders)[maker].cancelled ==>
        !gone && Alone(old(orders), orders, taker, maker, qty)
    {
      tries := 0;
      for t := 0 to 2
        invariant tries == t && (t == 0 ==> view == old(view))
        invariant Valid() && |view| == |old(view)| && Extends(old(before), before, maker, maker)
        invariant forall o :: o in old(before) ==> orders[o].filled == old(orders)[o].filled
        invariant maker in before ==> orders[maker].filled == before[maker]
        invariant quiet && !old(orders)[taker].cancelled && !old(orders)[maker].cancelled ==>
          t == 0 && orders == old(orders)
      {
        var again;
        tries := tries + 1;
        qty, again, gone := TryOnce(taker, maker);
        if !again {
          return;
        }
      }
      qty, gone := 0, false;
    }

    /** The crossing makers with room, in priority order. */
    method Makers(taker: nat, late: set<nat>) returns (q: seq<nat>)
      requires taker < |view|
      ensures Queue(view, late, taker, q)
      ensures forall m :: m in q <==> Eligible(view, late, taker, m)
      ensures forall i, k :: 0 <= i < k < |q| ==>
        q[i] < |view| && q[k] < |view| && ServedFirst(view, view[taker].isBuy, q[i], q[k])
    {
      q := [];
      for m := 0 to |view|
        invariant Ordered(view, view[taker].isBuy, q)
        invariant forall x: nat :: x in q <==> x < m && Candidate(view, late, taker, x)
      {
        if m != taker && Crosses(view[taker], view[m], taker in late, m in late) && Remaining(view[m]) > 0 {
          q := Place(view, view[taker].isBuy, q, m);
        }
      }
      forall m ensures m in q <==> Eligible(view, late, taker, m) {
        CandidateIff(view, late, taker, m);
      }
      forall i, k | 0 <= i < k < |q| ensures ServedFirst(view, view[taker].isBuy, q[i], q[k]) {
        BetterIff(view, view[taker].isBuy, q[i], q[k]);
      }
    }

    /** The fill's job (or offchain record) and its trade. */
    method Record(taker: nat, maker: nat, qty: nat) returns (f: Fill)
      requires Valid() && taker in before && maker in before && taker != maker
      modifies this`orders, this`jobs, this`view
      ensures Valid() && |view| == |old(view)| && f == Fill(maker, qty, if relay then Some(|old(jobs)|) else None)
      ensures jobs == if relay then old(jobs) + [NewJob(taker, maker, qty)] else old(jobs)
      ensures view == if relay then old(view) else Offchain(Offchain(old(view), taker, qty), maker, qty)
      ensures orders == if relay then old(orders) else Offchain(Offchain(old(orders), taker, qty), maker, qty)
    {
      var job := None;
      if relay {
        job := Some(|jobs|);
        jobs := jobs + [Job(taker, maker, qty, Pending, 0, None, [], None, None, NO_BOOK)];
      } else {
        orders := Offchain(Offchain(orders, taker, qty), maker, qty);
        view := Offchain(Offchain(view, taker, qty), maker, qty);
      }
      f := Fill(maker, qty, job);
    }

    /** One maker of the queue: fill it if possible, record the fill, and say whether the walk is over. */
    method MatchOne(taker: nat, maker: nat) returns (f: Option<Fill>, stop: bool)
      requires Valid() && taker < |view| && maker < |view| && taker != maker && maker !in before
      modifies this`orders, this`view, this`before, this`jobs
      ensures Valid() && |view| == |old(view)| && Extends(old(before), before, taker, maker)
      ensures forall o :: o in old(before) ==>
        orders[o].filled == old(orders)[o].filled + if o == taker then Qty(f) else 0
      ensures forall o :: o in before && o !in old(before) ==> orders[o].filled == before[o] + Qty(f)
      ensures f.Some? ==> f.value == Fill(maker, Qty(f), if relay then Some(|old(jobs)|) else None)
      ensures f.Some? ==> Qty(f) > 0 && taker in before && maker in before && (stop <==> Remaining(orders[taker]) <= 0)
      ensures f == None ==> (stop <==> view[taker].cancelled || Remaining(view[taker]) <= 0)
      ensures jobs == if relay && f.Some? then old(jobs) + [NewJob(taker, maker, Qty(f))] else old(jobs)
      ensures quiet && !old(orders)[taker].cancelled && !old(orders)[maker].cancelled ==>
        && Qty(f) == Least(Remaining(old(orders)[taker]), Remaining(old(orders)[maker]))
        && orders == (if f.Some? then Booked(old(orders), taker, maker, Qty(f), relay) else old(orders))
        && (f == None && Remaining(orders[taker]) <= 0 ==> stop)
    {
      var qty, gone;
      ghost var tries;
      qty, gone, tries := FillOne(taker, maker);
      f := None;
      if gone {
        stop := true;
      } else if qty == 0 {
        stop := view[taker].cancelled || Remaining(view[taker]) <= 0;
      } else {
        var fill := Record(taker, maker, qty);
        f := Some(fill);
        stop := Remaining(view[taker]) <= 0;
      }
    }

    /** `MatchOne` for the next maker of the queue, its fill appended. */
    method MatchNext(taker: nat, q: seq<nat>, i: nat, fills: seq<Fill>, ghost jobs0: seq<Job>)
      returns (r: seq<Fill>, stop: bool)
      requires Valid() && taker < |view| && Walkable(q, |view|, taker) && i < |q|
      requires Booking(orders, before, jobs, relay, fills, taker, q, i, jobs0)
      modifies this`orders, this`view, this`before, this`jobs
      ensures Valid() && |view| == |old(view)| && Booking(orders, before, jobs, relay, r, taker, q, i + 1, jobs0)
      ensures |fills| <= |r| <= |fills| + 1
      ensures jobs == if relay && |r| > |fills| then old(jobs) + [NewJob(taker, q[i], r[|fills|].qty)] else old(jobs)
      ensures quiet && !old(orders)[taker].cancelled && !old(orders)[q[i]].cancelled ==>
        Solo(old(orders), orders, taker, q[i], fills, r, relay, stop)
    {
      ghost var rows, locked, enqueued := orders, before, jobs;
      var f;
      f, stop := MatchOne(taker, q[i]);
      r := if f.Some? then fills + [f.value] else fills;
      LocksInQueue(locked, before, taker, q, i);
      HeldStep(rows, locked, orders, before, fills, taker, q[i], Qty(f));
      if f.Some? {
        assert q[i] in q;
        FillNumbered(enqueued, relay, fills, taker, q, jobs0, f.value);
        BookingSome(rows, locked, enqueued, orders, before, jobs, relay, fills, taker, q, i, jobs0, f.value);
      } else {
        BookingNone(rows, locked, orders, before, jobs, relay, fills, taker, q, i, jobs0);
      }
    }

    /** One step of the walk, with its event when nobody else runs. */
    method Advance(
      taker: nat, q: seq<nat>, i: nat, fills: seq<Fill>, ghost s0: State, ghost es0: seq<Event>, ghost late: set<nat>,
      ghost h: Hyp)
      returns (r: seq<Fill>, stop: bool, ghost es: seq<Event>)
      requires Valid() && taker < |view| == |s0.orders| && Walkable(q, |view|, taker) && i < |q|
      requires Booking(orders, before, jobs, relay, fills, taker, q, i, s0.jobs)
      requires Crossers(s0.orders, late, taker, q)
      requires forall o :: 0 <= o < |s0.orders| ==> s0.orders[o].filled <= s0.orders[o].amount
      requires quiet ==> Course(h, s0, es0, Snap(), taker, q, i, fills, false, relay)
      modifies this`orders, this`view, this`before, this`jobs
      ensures Valid() && |view| == |old(view)| && Booking(orders, before, jobs, relay, r, taker, q, i + 1, s0.jobs)
      ensures quiet ==> Course(h, s0, es, Snap(), taker, q, i + 1, r, stop, relay)
    {
      ghost var s := Snap();
      r, stop := MatchNext(taker, q, i, fills, s0.jobs);
      es := es0;
      if quiet {
        es := SoloStep(h, s0, es0, s, Snap(), late, taker, q, i, fills, r, relay, stop);
      }
    }

    /** The walk over the queue, until a fill or a refusal ends it. */
    method FillQueue(taker: nat, q: seq<nat>, ghost late: set<nat>, ghost h: Hyp)
      returns (fills: seq<Fill>, ghost es: seq<Event>)
      requires Valid() && taker < |view| == |orders| && before == map[] && Crossers(orders, late, taker, q)
      modifies this`orders, this`view, this`before, this`jobs
      ensures Valid() && Booking(orders, before, jobs, relay, fills, taker, q, |q|, old(jobs))
      ensures quiet ==> Allocated(old(orders), taker, q, fills)
      ensures quiet ==> Path(h, old(Snap()), es, Snap()) && es == EventsOf(relay, taker, fills)
      ensures quiet ==> RowsAfter(old(orders), orders, taker, fills, relay)
    {
      fills, es := [], [];
      ghost var s0 := Snap();
      CourseStarts(h, s0, late, taker, q, relay);
      var i, stop := 0, false;
      while i < |q| && !stop
        invariant i <= |q| && |view| == |s0.orders| && Valid()
        invariant Booking(orders, before, jobs, relay, fills, taker, q, i, s0.jobs)
        invariant quiet ==> Course(h, s0, es, Snap(), taker, q, i, fills, stop, relay)
      {
        fills, stop, es := Advance(taker, q, i, fills, s0, es, late, h);
        i := i + 1;
      }
      BookingOn(orders, before, jobs, relay, fills, taker, q, i, s0.jobs);
      if quiet {
        CourseEnds(h, s0, es, Snap(), taker, q, i, fills, stop, relay);
      }
    }

    /**
     try_match. Whoever else runs, every locked row holds exactly its fill at the lock plus this call's fills, never
     over its amount, and each fill has its job. Alone, the fills are the greedy allocation over the crossing makers
     in priority order, and the call is a path of match events.
     */
    method TryMatch(taker: nat, late: set<nat>, halted: bool, ghost h: Hyp)
      returns (fills: seq<Fill>, ghost q: seq<nat>, ghost es: seq<Event>)
      requires Valid() && taker < |orders| && before == map[]
      modifies this`orders, this`view, this`before, this`jobs
      ensures Valid() && Booking(orders, before, jobs, relay, fills, taker, q, |q|, old(jobs))
      ensures halted ==> fills == [] && Snap() == old(Snap())
      ensures !halted ==> Queue(old(orders), late, taker, q)
      ensures !halted && quiet ==> Walkable(q, |old(orders)|, taker) && Allocated(old(orders), taker, q, fills)
      ensures !halted && quiet ==> FilledByPriority(old(orders), late, taker, fills)
      ensures quiet ==> Path(h, old(Snap()), es, Snap()) && |es| == |fills|
      ensures quiet ==> es == EventsOf(relay, taker, fills) && RowsAfter(old(orders), orders, taker, fills, relay)
    {
      fills, q, es := [], [], [];
      if !halted {
        view := orders;
        var makers := Makers(taker, late);
        q := makers;
        QueueCrossers(orders, late, taker, q);
        ghost var was := orders;
        fills, es := FillQueue(taker, makers, late, h);
        if quiet {
          AllocationByPriority(was, late, taker, q, fills);
        }
      }
    }
  }

  /** Nobody else running: the walk goes on, or the allocation is done; either way along match events. */
  ghost predicate Course(
    h: Hyp, s0: State, es: seq<Event>, s: State, taker: nat, q: seq<nat>, i: nat, fills: seq<Fill>, stop: bool,
    relay: bool)
    requires taker < |s0.orders| && s0.orders[taker].filled <= s0.orders[taker].amount
    requires forall k :: 0 <= k < |q| ==> q[k] < |s0.orders| && s0.orders[q[k]].filled <= s0.orders[q[k]].amount
  {
    && Path(h, s0, es, s) && Tracked(s0.orders, s.orders, es, taker, fills, relay)
    && (if stop then Allocated(s0.orders, taker, q, fills)
        else if q == [] then fills == [] else Walked(s0.orders, s.orders, taker, q, i, fills))
  }

  /** One match event per fill, in order. */
  function EventsOf(relay: bool, taker: nat, fills: seq<Fill>): (es: seq<Event>)
    ensures |es| == |fills|
    ensures forall k :: 0 <= k < |fills| ==>
      es[k] == if relay then Match(taker, fills[k].maker, fills[k].qty)
               else MatchOffchain(taker, fills[k].maker, fills[k].qty)
  {
    seq(|fills|, k requires 0 <= k < |fills| => EventOf(relay, taker, fills[k].maker, fills[k].qty))
  }

  /** Every row gained exactly its fills, and its offchain column those that no job carries. */
  ghost predicate RowsAfter(was: seq<Order>, now: seq<Order>, taker: nat, fills: seq<Fill>, relay: bool) {
    |now| == |was| && forall o :: 0 <= o < |was| ==> now[o] == RowAfter(was[o], FilledOn(fills, taker, o), relay)
  }

  function RowAfter(row: Order, gained: nat, relay: bool): Order {
    row.(filled := row.filled + gained, offchain := row.offchain + if relay then 0 else gained)
  }

  /** The events and the rows so far are those of the fills so far. */
  ghost predicate Tracked(
    was: seq<Order>, now: seq<Order>, es: seq<Event>, taker: nat, fills: seq<Fill>, relay: bool)
  {
    es == EventsOf(relay, taker, fills) && RowsAfter(was, now, taker, fills, relay)
  }

  lemma TrackedStep(
    was: seq<Order>, now: seq<Order>, es: seq<Event>, taker: nat, fills: seq<Fill>, f: Fill, relay: bool)
    requires Tracked(was, now, es, taker, fills, relay) && taker < |was| && f.maker < |was| && f.maker != taker
    ensures Tracked(was, Booked(now, taker, f.maker, f.qty, relay), es + [EventOf(relay, taker, f.maker, f.qty)],
                    taker, fills + [f], relay)
  {
    RowsStep(was, now, taker, fills, f, relay);
    assert es + [EventOf(relay, taker, f.maker, f.qty)] == EventsOf(relay, taker, fills + [f]);
  }

  lemma RowsStep(was: seq<Order>, now: seq<Order>, taker: nat, fills: seq<Fill>, f: Fill, relay: bool)
    requires RowsAfter(was, now, taker, fills, relay) && taker < |was| && f.maker < |was| && f.maker != taker
    ensures RowsAfter(was, Booked(now, taker, f.maker, f.qty, relay), taker, fills + [f], relay)
  {
    forall o | 0 <= o < |was| {
      FilledOnAppend(fills, f, taker, o);
    }
  }

  lemma CourseStarts(h: Hyp, s0: State, late: set<nat>, taker: nat, q: seq<nat>, relay: bool)
    requires taker < |s0.orders| && Crossers(s0.orders, late, taker, q)
    requires forall o :: 0 <= o < |s0.orders| ==> s0.orders[o].filled <= s0.orders[o].amount
    ensures Course(h, s0, [], s0, taker, q, 0, [], false, relay)
  {
    if q != [] { WalkStarts(s0.orders, late, taker, q); }
  }

  lemma CourseEnds(
    h: Hyp, s0: State, es: seq<Event>, s: State, taker: nat, q: seq<nat>, i: nat, fills: seq<Fill>, stop: bool,
    relay: bool)
    requires taker < |s0.orders| && s0.orders[taker].filled <= s0.orders[taker].amount
    requires forall k :: 0 <= k < |q| ==> q[k] < |s0.orders| && s0.orders[q[k]].filled <= s0.orders[q[k]].amount
    requires Course(h, s0, es, s, taker, q, i, fills, stop, relay) && (stop || i == |q|)
    ensures Allocated(s0.orders, taker, q, fills) && Path(h, s0, es, s) && es == EventsOf(relay, taker, fills)
    ensures RowsAfter(s0.orders, s.orders, taker, fills, relay)
  {
    if !stop && q != [] {
      WalkEnds(s0.orders, s.orders, taker, q, i, fills);
    }
  }

  lemma BookingOn(orders: seq<Order>, before: map<nat, nat>, jobs: seq<Job>, relay: bool, fills: seq<Fill>,
                  taker: nat, q: seq<nat>, i: nat, jobs0: seq<Job>)
    requires Booking(orders, before, jobs, relay, fills, taker, q, i, jobs0)
    ensures Booking(orders, before, jobs, relay, fills, taker, q, |q|, jobs0)
  {
    forall o | o in before && o != taker ensures o in q[..|q|] {
      var k :| 0 <= k < i && q[..i][k] == o;
      assert q[..|q|][k] == o;
    }
  }

  /** Makers of a queue: distinct rows other than the taker's. */
  predicate Walkable(q: seq<nat>, n: nat, taker: nat) {
    (forall k :: 0 <= k < |q| ==> q[k] < n && q[k] != taker) && (forall j, k :: 0 <= j < k < |q| ==> q[j] != q[k])
  }

  /** Distinct crossing makers with room: what the walk needs of its queue. */
  ghost predicate Crossers(orders: seq<Order>, late: set<nat>, taker: nat, q: seq<nat>)
    requires taker < |orders|
  {
    Walkable(q, |orders|, taker) && forall k :: 0 <= k < |q| ==> Candidate(orders, late, taker, q[k])
  }

  lemma QueueCrossers(orders: seq<Order>, late: set<nat>, taker: nat, q: seq<nat>)
    requires taker < |orders| && Queue(orders, late, taker, q)
    ensures Crossers(orders, late, taker, q)
  {
    assert forall k :: 0 <= k < |q| ==> q[k] in q;
  }

  /** What this call's fills did to the tables, whoever else was running. */
  ghost predicate Booking(orders: seq<Order>, before: map<nat, nat>, jobs: seq<Job>, relay: bool, fills: seq<Fill>,
                          taker: nat, q: seq<nat>, i: nat, jobs0: seq<Job>)
  {
    && i <= |q| && Held(orders, before, fills, taker)
    && (forall o :: o in before ==> o == taker || o in q[..i])
    && jobs == (if relay then jobs0 + JobsOf(taker, fills) else jobs0)
    && AllGenuine(q, fills, relay, |jobs0|)
  }

  /** The fills are on makers of the queue, and their jobs are numbered in order from `n`. */
  ghost predicate AllGenuine(q: seq<nat>, fills: seq<Fill>, relay: bool, n: nat) {
    forall k :: 0 <= k < |fills| ==> Genuine(q, fills[k], if relay then Some(n + k) else None)
  }

  /** A fill on a maker of the queue, with its own job. */
  ghost predicate Genuine(q: seq<nat>, f: Fill, job: Option<nat>) {
    f.maker in q && f.job == job
  }

  /** Nothing was filled on this maker. */
  lemma BookingNone(rows: seq<Order>, locked: map<nat, nat>, orders: seq<Order>, before: map<nat, nat>, jobs: seq<Job>,
                    relay: bool, fills: seq<Fill>, taker: nat, q: seq<nat>, i: nat, jobs0: seq<Job>)
    requires Booking(rows, locked, jobs, relay, fills, taker, q, i, jobs0) && i < |q| && Walkable(q, |rows|, taker)
    requires Extends(locked, before, taker, q[i]) && HeldPlus(orders, before, fills, taker, q[i], 0)
    ensures Booking(orders, before, jobs, relay, fills, taker, q, i + 1, jobs0)
  {
    LocksInQueue(locked, before, taker, q, i);
    HeldNone(orders, before, fills, taker, q[i]);
  }

  /** One more fill, with its job. */
  lemma BookingSome(
    rows: seq<Order>, locked: map<nat, nat>, enqueued: seq<Job>, orders: seq<Order>, before: map<nat, nat>,
    jobs: seq<Job>, relay: bool, fills: seq<Fill>, taker: nat, q: seq<nat>, i: nat, jobs0: seq<Job>, f: Fill)
    requires Booking(rows, locked, enqueued, relay, fills, taker, q, i, jobs0) && i < |q| && Walkable(q, |rows|, taker)
    requires Extends(locked, before, taker, q[i]) && HeldPlus(orders, before, fills, taker, q[i], f.qty)
    requires f.qty > 0 && taker in before && q[i] in before
    requires f.maker == q[i] && AllGenuine(q, fills + [f], relay, |jobs0|)
    requires jobs == if relay then enqueued + [NewJob(taker, q[i], f.qty)] else enqueued
    ensures Booking(orders, before, jobs, relay, fills + [f], taker, q, i + 1, jobs0)
  {
    LocksInQueue(locked, before, taker, q, i);
    HeldAppend(orders, before, fills, f, taker);
    JobsAppend(enqueued, jobs0, relay, taker, fills, f);
  }

  lemma FillNumbered(
    enqueued: seq<Job>, relay: bool, fills: seq<Fill>, taker: nat, q: seq<nat>, jobs0: seq<Job>, f: Fill)
    requires enqueued == if relay then jobs0 + JobsOf(taker, fills) else jobs0
    requires AllGenuine(q, fills, relay, |jobs0|) && f.maker in q && f.job == if relay then Some(|enqueued|) else None
    ensures AllGenuine(q, fills + [f], relay, |jobs0|)
  {
    JobsNumbered(enqueued, jobs0, relay, taker, fills);
    assert f.job == if relay then Some(|jobs0| + |fills|) else None;
    AllGenuineAppend(q, fills, f, relay, |jobs0|);
  }

  lemma JobsNumbered(enqueued: seq<Job>, jobs0: seq<Job>, relay: bool, taker: nat, fills: seq<Fill>)
    requires enqueued == if relay then jobs0 + JobsOf(taker, fills) else jobs0
    ensures relay ==> |enqueued| == |jobs0| + |fills|
  {
  }

  lemma HeldNone(orders: seq<Order>, before: map<nat, nat>, fills: seq<Fill>, taker: nat, maker: nat)
    requires HeldPlus(orders, before, fills, taker, maker, 0)
    ensures Held(orders, before, fills, taker)
  {
  }

  lemma LocksInQueue(locked: map<nat, nat>, before: map<nat, nat>, taker: nat, q: seq<nat>, i: nat)
    requires i < |q| && (forall j, k :: 0 <= j < k < |q| ==> q[j] != q[k]) && q[i] != taker
    requires (forall o :: o in locked ==> o == taker || o in q[..i]) && Extends(locked, before, taker, q[i])
    ensures q[i] !in locked && forall o :: o in before ==> o == taker || o in q[..i + 1]
  {
    assert q[..i + 1] == q[..i] + [q[i]];
  }

  lemma JobsAppend(enqueued: seq<Job>, jobs0: seq<Job>, relay: bool, taker: nat, fills: seq<Fill>, f: Fill)
    requires enqueued == if relay then jobs0 + JobsOf(taker, fills) else jobs0
    ensures relay ==> enqueued + [NewJob(taker, f.maker, f.qty)] == jobs0 + JobsOf(taker, fills + [f])
  {
    assert JobsOf(taker, fills + [f]) == JobsOf(taker, fills) + [NewJob(taker, f.maker, f.qty)];
  }

  lemma AllGenuineAppend(q: seq<nat>, fills: seq<Fill>, f: Fill, relay: bool, n: nat)
    requires AllGenuine(q, fills, relay, n) && f.maker in q && f.job == if relay then Some(n + |fills|) else None
    ensures AllGenuine(q, fills + [f], relay, n)
  {
  }

  /** One maker with nobody else running: filled by the smaller remainder, or nothing to fill. */
  ghost predicate Solo(
    was: seq<Order>, now: seq<Order>, taker: nat, maker: nat, fills: seq<Fill>, r: seq<Fill>, relay: bool, stop: bool)
    requires taker < |was| && maker < |was|
  {
    var qty := Least(Remaining(was[taker]), Remaining(was[maker]));
    if qty == 0 then r == fills && now == was && (Remaining(was[taker]) <= 0 ==> stop)
    else
      && |r| == |fills| + 1 && r == fills + [r[|fills|]] && r[|fills|].maker == maker && r[|fills|].qty == qty
      && now == Booked(was, taker, maker, qty, relay) && (stop <==> Remaining(now[taker]) <= 0)
  }

  /** One maker of the walk with nobody else running: a match event, or the end. */
  lemma SoloStep(h: Hyp, s0: State, es: seq<Event>, s: State, t: State, late: set<nat>, taker: nat, q: seq<nat>, i: nat,
                 fills: seq<Fill>, r: seq<Fill>, relay: bool, stop: bool)
    returns (fs: seq<Event>)
    requires taker < |s0.orders| && Crossers(s0.orders, late, taker, q) && i < |q|
    requires forall o :: 0 <= o < |s0.orders| ==> s0.orders[o].filled <= s0.orders[o].amount
    requires |s.onchain| == |s.orders|
    requires Course(h, s0, es, s, taker, q, i, fills, false, relay)
    requires Solo(s.orders, t.orders, taker, q[i], fills, r, relay, stop)
    requires t == s.(orders := t.orders,
      jobs := if relay && |r| > |fills| then s.jobs + [NewJob(taker, q[i], r[|fills|].qty)] else s.jobs)
    ensures Course(h, s0, fs, t, taker, q, i + 1, r, stop, relay)
  {
    fs := es;
    if |r| > |fills| {
      var qty := r[|fills|].qty;
      assert q[i] in q;
      FillIsEvent(h, s, late, s0.orders, taker, q[i], qty, relay);
      PathAppend(h, s0, es, s, EventOf(relay, taker, q[i], qty));
      WalkOn(s0.orders, s.orders, t.orders, taker, q, i, fills, r[|fills|], relay);
      TrackedStep(s0.orders, s.orders, es, taker, fills, r[|fills|], relay);
      fs := es + [EventOf(relay, taker, q[i], qty)];
    } else {
      WalkEnds(s0.orders, s.orders, taker, q, i, fills);
    }
  }

  function Qty(f: Option<Fill>): nat {
    if f.Some? then f.value.qty else 0
  }

  /** Both rows after one fill, with the offchain column when no job carries it. */
  function Booked(orders: seq<Order>, taker: nat, maker: nat, qty: nat, relay: bool): (r: seq<Order>)
    requires taker < |orders| && maker < |orders|
    ensures |r| == |orders|
  {
    var both := Both(orders, taker, maker, qty);
    if relay then both else Offchain(Offchain(both, taker, qty), maker, qty)
  }

  function Both(orders: seq<Order>, taker: nat, maker: nat, qty: nat): (r: seq<Order>)
    requires taker < |orders| && maker < |orders|
    ensures |r| == |orders|
  {
    Plus(Plus(orders, maker, qty), taker, qty)
  }

  /** The jobs these fills enqueue. */
  function JobsOf(taker: nat, fills: seq<Fill>): (r: seq<Job>)
    ensures |r| == |fills|
  {
    seq(|fills|, k requires 0 <= k < |fills| => NewJob(taker, fills[k].maker, fills[k].qty))
  }

  /** The machine event of one fill. */
  function EventOf(relay: bool, taker: nat, maker: nat, qty: nat): Event {
    if relay then Match(taker, maker, qty) else MatchOffchain(taker, maker, qty)
  }

  /** A row not locked so far has no fill yet. */
  lemma {:induction false} Unfilled(fills: seq<Fill>, taker: nat, maker: nat, locked: map<nat, nat>)
    requires forall k :: 0 <= k < |fills| ==> fills[k].maker in locked && taker in locked
    requires maker !in locked && maker != taker
    ensures FilledOn(fills, taker, maker) == 0 && (taker !in locked ==> FilledOn(fills, taker, taker) == 0)
  {
    if fills != [] {
      assert fills[0].maker in locked;
      Unfilled(fills[..|fills| - 1], taker, maker, locked);
    }
  }

  /** Every locked row holds exactly its first fill plus what these fills added to it. */
  ghost predicate Held(orders: seq<Order>, before: map<nat, nat>, fills: seq<Fill>, taker: nat) {
    && (forall o :: o in before ==> o < |orders| && orders[o].filled == before[o] + FilledOn(fills, taker, o))
    && (forall k :: 0 <= k < |fills| ==> fills[k].qty > 0 && fills[k].maker in before && taker in before)
  }

  /** As `Held`, with `qty` more on both rows of a fill not yet recorded. */
  ghost predicate HeldPlus(
    orders: seq<Order>, before: map<nat, nat>, fills: seq<Fill>, taker: nat, maker: nat, qty: nat)
  {
    && (forall o :: o in before ==> o < |orders|)
    && (forall o :: o in before ==>
          orders[o].filled == before[o] + FilledOn(fills, taker, o) + if o == taker || o == maker then qty else 0)
    && (forall k :: 0 <= k < |fills| ==> fills[k].qty > 0 && fills[k].maker in before && taker in before)
  }

  lemma HeldStep(rows: seq<Order>, locked: map<nat, nat>, orders: seq<Order>, before: map<nat, nat>, fills: seq<Fill>,
                 taker: nat, maker: nat, qty: nat)
    requires Held(rows, locked, fills, taker) && Extends(locked, before, taker, maker)
    requires maker !in locked && maker != taker
    requires forall o :: o in before ==> o < |orders|
    requires forall o :: o in locked ==> orders[o].filled == rows[o].filled + if o == taker then qty else 0
    requires forall o :: o in before && o !in locked ==> orders[o].filled == before[o] + qty
    ensures HeldPlus(orders, before, fills, taker, maker, qty)
  {
    Unfilled(fills, taker, maker, locked);
  }

  lemma HeldAppend(orders: seq<Order>, before: map<nat, nat>, fills: seq<Fill>, f: Fill, taker: nat)
    requires HeldPlus(orders, before, fills, taker, f.maker, f.qty) && f.qty > 0 && f.maker in before && taker in before
    ensures Held(orders, before, fills + [f], taker)
  {
    forall o
      ensures FilledOn(fills + [f], taker, o) ==
        FilledOn(fills, taker, o) + if o == taker || o == f.maker then f.qty else 0
    {
      FilledOnAppend(fills, f, taker, o);
    }
  }

  lemma FilledOnAppend(fills: seq<Fill>, f: Fill, taker: nat, o: nat)
    ensures FilledOn(fills + [f], taker, o) ==
      FilledOn(fills, taker, o) + if o == taker || o == f.maker then f.qty else 0
  {
    assert (fills + [f])[..|fills|] == fills;
  }

  function Offchain(orders: seq<Order>, o: nat, qty: nat): (r: seq<Order>)
    requires o < |orders|
    ensures |r| == |orders|
  {
    orders[o := orders[o].(offchain := orders[o].offchain + qty)]
  }

  /** Insert `m` where it belongs. */
  method Place(orders: seq<Order>, isBuy: bool, q: seq<nat>, m: nat) returns (r: seq<nat>)
    requires Ordered(orders, isBuy, q) && m < |orders| && m !in q
    ensures Ordered(orders, isBuy, r) && forall x :: x in r <==> x in q || x == m
  {
    var k := 0;
    while k < |q| && Better(orders, isBuy, q[k], m)
      invariant k <= |q| && forall i :: 0 <= i < k ==> Better(orders, isBuy, q[i], m)
    {
      k := k + 1;
    }
    r := q[..k] + [m] + q[k..];
  }

  /** By these rows there is nothing to match. */
  predicate Spent(view: seq<Order>, taker: nat, maker: nat)
    requires taker < |view| && maker < |view|
  {
    view[maker].cancelled || Remaining(view[taker]) <= 0 || Remaining(view[maker]) <= 0
  }

  predicate Free(o: Order, qty: nat) {
    !o.cancelled && o.filled + qty <= o.amount
  }

  function Plus(orders: seq<Order>, o: nat, qty: nat): (r: seq<Order>)
    requires o < |orders|
    ensures |r| == |orders|
  {
    orders[o := orders[o].(filled := orders[o].filled + qty)]
  }

  /** Locks are kept, with their first fill; only these two rows may be newly locked. */
  ghost predicate Extends(was: map<nat, nat>, now: map<nat, nat>, a: nat, b: nat) {
    && (forall o :: o in was ==> o in now && now[o] == was[o])
    && (forall o :: o in now && o !in was ==> o == a || o == b)
  }

  /** Nothing else moved: both sides are filled by the smaller remainder. */
  ghost predicate Alone(was: seq<Order>, now: seq<Order>, taker: nat, maker: nat, qty: nat) {
    && taker < |was| && maker < |was| && taker != maker
    && qty == Least(Remaining(was[taker]), Remaining(was[maker]))
    && now == if qty == 0 then was else Both(was, taker, maker, qty)
  }

  function Least(a: int, b: int): nat {
    if a <= 0 || b <= 0 then 0 else if a < b then a else b
  }
}
