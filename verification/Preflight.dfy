/**
 The worker's preflight: Exchange checks against the chain alone (hard reasons) and against the chain minus
 what other in-flight jobs will still spend ("busy" reasons).
 */
module Preflight {
  import opened Relay
  import opened Sums
  import opened Amounts

  datatype Role = TakerSide | MakerSide | Market
  datatype Cause =
    | Resolved | Expired | NonceStale | CancelledOnchain | Overfill
    | UsdcBalance | UsdcAllowance | CtfBalance | CtfApproval
  datatype Reason = Reason(busy: bool, role: Role, cause: Cause)

  /** Per-order chain facts outside the relayer model: expiry, Exchange nonce, on-chain cancel, token approval. */
  datatype SideFacts = SideFacts(expired: bool, nonceStale: bool, cancelled: bool)
  datatype Facts = Facts(resolved: bool, taker: SideFacts, maker: SideFacts, sellerApproved: bool)

  predicate SideFine(f: SideFacts) {
    !f.expired && !f.nonceStale && !f.cancelled
  }

  predicate Fine(f: Facts) {
    !f.resolved && SideFine(f.taker) && SideFine(f.maker) && f.sellerApproved
  }

  /** What one match takes from an address: USDC if it is the buyer, tokens of an asset if it is the seller. */
  function UsdcShare(s: State, taker: nat, maker: nat, fill: nat, a: nat): nat
    requires Sides(s, taker, maker)
  {
    if Buyer(s, taker, maker) == a then Spend(s, taker, maker, fill) else 0
  }

  function CtfShare(s: State, taker: nat, maker: nat, fill: nat, a: nat, asset: nat): nat
    requires Sides(s, taker, maker)
  {
    if Seller(s, taker, maker) == a && s.orders[taker].asset == asset then fill else 0
  }

  /** Amounts in-flight jobs will still take. */
  class Committed {
    var usdc: map<nat, nat>
    var ctf: map<(nat, nat), nat>
    var filled: map<nat, nat>

    constructor ()
      ensures usdc == map[] && ctf == map[] && filled == map[]
    {
      usdc, ctf, filled := map[], map[], map[];
    }

    method AddMatch(s: State, taker: nat, maker: nat, fill: nat)
      requires Sides(s, taker, maker)
      modifies this
      ensures forall a :: Get(usdc, a) == Get(old(usdc), a) + UsdcShare(s, taker, maker, fill, a)
      ensures forall a, k :: Get(ctf, (a, k)) == Get(old(ctf), (a, k)) + CtfShare(s, taker, maker, fill, a, k)
      ensures forall o :: Get(filled, o) == Get(old(filled), o) + if o == taker || o == maker then fill else 0
    {
      var volume := Volume(fill, s.orders[maker].price);
      var fee := Fee(volume, EXCHANGE_TAKER_FEE_BPS);
      var buyer, seller := s.orders[maker].maker, s.orders[taker].maker;
      if s.orders[taker].isBuy {
        buyer, seller := s.orders[taker].maker, s.orders[maker].maker;
      }
      var spend := if s.orders[taker].isBuy then volume + fee else volume;
      usdc := usdc[buyer := Get(usdc, buyer) + spend];
      var k := (seller, s.orders[taker].asset);
      ctf := ctf[k := Get(ctf, k) + fill];
      filled := filled[taker := Get(filled, taker) + fill];
      filled := filled[maker := Get(filled, maker) + fill];
    }
  }

  /** The tally over the jobs below `i` only. */
  function Partial(s: State, m: Measure, i: nat): nat
    requires i <= |s.jobs|
  {
    Sum(Weights(s, m)[..i])
  }

  lemma PartialStep(s: State, m: Measure, i: nat)
    requires i < |s.jobs|
    ensures Partial(s, m, i + 1) == Partial(s, m, i) + Weight(s, i, m)
  {
    var ws := Weights(s, m);
    assert ws[..i + 1][..i] == ws[..i];
  }

  ghost predicate CountsTo(c: Committed, s: State, i: nat)
    requires i <= |s.jobs|
    reads c
  {
    && (forall a :: Get(c.usdc, a) == Partial(s, BusyUsdc(a), i))
    && (forall a, k :: Get(c.ctf, (a, k)) == Partial(s, BusyCtf(a, k), i))
    && (forall o :: Get(c.filled, o) == Partial(s, BusyFill(o), i))
  }

  /** The dictionaries hold exactly the in-flight tallies of `s`. */
  ghost predicate Counts(c: Committed, s: State)
    reads c
  {
    && (forall a :: Get(c.usdc, a) == Tally(s, BusyUsdc(a)))
    && (forall a, k :: Get(c.ctf, (a, k)) == Tally(s, BusyCtf(a, k)))
    && (forall o :: Get(c.filled, o) == Tally(s, BusyFill(o)))
  }

  lemma CountsAll(c: Committed, s: State)
    requires CountsTo(c, s, |s.jobs|)
    ensures Counts(c, s)
  {
    forall m ensures Partial(s, m, |s.jobs|) == Tally(s, m) {
      assert Weights(s, m)[..|s.jobs|] == Weights(s, m);
    }
  }

  method CountJob(c: Committed, s: State, i: nat, busy: bool)
    requires i < |s.jobs| && Sides(s, s.jobs[i].taker, s.jobs[i].maker)
    requires CountsTo(c, s, i) && busy == InFlight(s.jobs[i])
    modifies c
    ensures CountsTo(c, s, i + 1)
  {
    var job := s.jobs[i];
    forall m ensures Partial(s, m, i + 1) == Partial(s, m, i) + Weight(s, i, m) {
      PartialStep(s, m, i);
    }
    if busy {
      c.AddMatch(s, job.taker, job.maker, job.fill);
    }
  }

  /** _committed: every in-flight job but the one being checked, which is pending. */
  method CommittedOf(s: State, j: nat) returns (c: Committed)
    requires j < |s.jobs| && s.jobs[j].status == Pending
    requires forall i :: 0 <= i < |s.jobs| ==> Sides(s, s.jobs[i].taker, s.jobs[i].maker)
    ensures fresh(c) && Counts(c, s)
  {
    c := new Committed();
    for i := 0 to |s.jobs|
      invariant fresh(c) && CountsTo(c, s, i)
    {
      CountJob(c, s, i, i != j && InFlight(s.jobs[i]));
    }
    CountsAll(c, s);
  }

  predicate AnyHard(reasons: seq<Reason>) {
    exists r :: r in reasons && !r.busy
  }

  predicate IsFault(r: Reason, role: Role) {
    !r.busy && (r.cause == Resolved || (r.role == role && r.cause != Overfill))
  }

  /** _culprits: the side's own state failed, or the market resolved; an overfill or a busy reason is nobody's fault. */
  predicate AtFault(reasons: seq<Reason>, role: Role) {
    exists r :: r in reasons && IsFault(r, role)
  }

  lemma FaultAppend(reasons: seq<Reason>, x: Reason, role: Role)
    ensures AtFault(reasons + [x], role) <==> AtFault(reasons, role) || IsFault(x, role)
  {
    assert x in reasons + [x];
    assert forall r :: r in reasons + [x] <==> r in reasons || r == x;
  }

  /**
   What one side of a match must bring, apart from its order: the buyer's USDC and allowance, or the seller's tokens.
   */
  predicate Brings(s: State, j: nat, f: Facts, role: Role)
    requires j < |s.jobs| && Sides(s, s.jobs[j].taker, s.jobs[j].maker)
  {
    var job := s.jobs[j];
    var buyer, seller := Buyer(s, job.taker, job.maker), Seller(s, job.taker, job.maker);
    var spend := Spend(s, job.taker, job.maker, job.fill);
    if (role == TakerSide) == s.orders[job.taker].isBuy
    then spend <= Get(s.funds.usdc, buyer) && spend <= Get(s.funds.allowance, buyer)
    else job.fill <= Get(s.funds.ctf, (seller, s.orders[job.taker].asset)) && f.sellerApproved
  }

  /** The chain alone is short of the need; or it covers the need, but not on top of what is in flight. */
  predicate Lacks(busy: bool, have: int, need: int, inFlight: int) {
    (!busy ==> have < need) && (busy ==> need <= have < need + inFlight)
  }

  predicate IsLack(x: Reason, role: Role, cause: Cause, have: int, need: int, inFlight: int) {
    x.role == role && x.cause == cause && Lacks(x.busy, have, need, inFlight)
  }

  /** _short: hard when the chain cannot cover the need, busy when it cannot also cover what is in flight. */
  method Short(have: nat, need: nat, busy: nat, role: Role, cause: Cause, reasons: seq<Reason>) returns (r: seq<Reason>)
    ensures r == [] <==> reasons == [] && need + busy <= have
    ensures AnyHard(r) <==> AnyHard(reasons) || have < need
    ensures cause != Resolved && cause != Overfill ==>
      forall side :: AtFault(r, side) <==> AtFault(reasons, side) || (side == role && have < need)
    ensures forall x :: x in r <==> (x in reasons || IsLack(x, role, cause, have, need, busy))
  {
    r := reasons;
    if have < need {
      r := Blame(reasons, role, cause);
    } else if busy > 0 && have < need + busy {
      r := Defer(reasons, role, cause);
    }
  }

  /** What is wrong with an order itself: an expiry, a stale nonce, a cancel on chain, or no room for the fill. */
  ghost predicate OrderFaulty(f: SideFacts, onchain: int, busy: int, amount: int, fill: int, x: Reason) {
    match x.cause
    case Expired => !x.busy && f.expired
    case NonceStale => !x.busy && f.nonceStale
    case CancelledOnchain => !x.busy && f.cancelled
    case Overfill => Lacks(x.busy, amount - onchain, fill, busy)
    case _ => false
  }

  method OrderState(onchain: nat, busy: nat, amount: nat, f: SideFacts, role: Role, fill: nat, reasons: seq<Reason>)
    returns (r: seq<Reason>)
    ensures r == [] <==> reasons == [] && SideFine(f) && onchain + busy + fill <= amount
    ensures AnyHard(r) <==> AnyHard(reasons) || !SideFine(f) || onchain + fill > amount
    ensures forall side :: AtFault(r, side) <==> AtFault(reasons, side) || (side == role && !SideFine(f))
    ensures forall x :: x in r <==> (x in reasons || (x.role == role && OrderFaulty(f, onchain, busy, amount, fill, x)))
  {
    r := reasons;
    if f.expired { r := Blame(r, role, Expired); }
    if f.nonceStale { r := Blame(r, role, NonceStale); }
    if f.cancelled { r := Blame(r, role, CancelledOnchain); }
    if onchain + fill > amount {
      r := Blame(r, role, Overfill);
    } else if onchain + busy + fill > amount {
      r := Defer(r, role, Overfill);
    }
  }

  /** A hard reason. */
  function Blame(reasons: seq<Reason>, role: Role, cause: Cause): (r: seq<Reason>)
    ensures r != [] && AnyHard(r)
    ensures forall side :: AtFault(r, side) <==> AtFault(reasons, side) || IsFault(Reason(false, role, cause), side)
    ensures forall x :: x in r <==> x in reasons || x == Reason(false, role, cause)
  {
    var r := reasons + [Reason(false, role, cause)];
    assert r[|r| - 1] in r;
    assert forall side :: AtFault(r, side) <==> AtFault(reasons, side) || IsFault(Reason(false, role, cause), side) by {
      forall side { FaultAppend(reasons, Reason(false, role, cause), side); }
    }
    r
  }

  /** A busy reason: someone else's in-flight claim. */
  function Defer(reasons: seq<Reason>, role: Role, cause: Cause): (r: seq<Reason>)
    ensures r != [] && (AnyHard(r) <==> AnyHard(reasons))
    ensures forall side :: AtFault(r, side) <==> AtFault(reasons, side)
    ensures forall x :: x in r <==> x in reasons || x == Reason(true, role, cause)
  {
    var r := reasons + [Reason(true, role, cause)];
    assert forall x :: x in r <==> x in reasons || x == Reason(true, role, cause);
    r
  }

  /** What a side lacks: the buying side USDC or allowance for its spend, the selling side tokens or their approval. */
  ghost predicate FundsFaulty(s: State, j: nat, f: Facts, x: Reason)
    requires j < |s.jobs| && Sides(s, s.jobs[j].taker, s.jobs[j].maker)
  {
    var job := s.jobs[j];
    var taker, maker := s.orders[job.taker], s.orders[job.maker];
    var buyer := if taker.isBuy then taker.maker else maker.maker;
    var seller := if taker.isBuy then maker.maker else taker.maker;
    var buying, selling := if taker.isBuy then TakerSide else MakerSide, if taker.isBuy then MakerSide else TakerSide;
    var spend := Spend(s, job.taker, job.maker, job.fill);
    match x.cause
    case UsdcBalance => x.role == buying && Lacks(x.busy, Get(s.funds.usdc, buyer), spend, Tally(s, BusyUsdc(buyer)))
    case UsdcAllowance =>
      x.role == buying && Lacks(x.busy, Get(s.funds.allowance, buyer), spend, Tally(s, BusyUsdc(buyer)))
    case CtfBalance =>
      x.role == selling &&
      Lacks(x.busy, Get(s.funds.ctf, (seller, taker.asset)), job.fill, Tally(s, BusyCtf(seller, taker.asset)))
    case CtfApproval => !x.busy && x.role == selling && !f.sellerApproved
    case _ => false
  }

  /** Exactly the reasons against a match: each cause with its side, hard or busy. */
  ghost predicate Against(s: State, j: nat, f: Facts, x: Reason)
    requires j < |s.jobs| && |s.onchain| == |s.orders| && Sides(s, s.jobs[j].taker, s.jobs[j].maker)
  {
    var t, m, fill := s.jobs[j].taker, s.jobs[j].maker, s.jobs[j].fill;
    || (f.resolved && x == Reason(false, Market, Resolved))
    || (x.role == TakerSide &&
        OrderFaulty(f.taker, s.onchain[t], Tally(s, BusyFill(t)), s.orders[t].amount, fill, x))
    || (x.role == MakerSide &&
        OrderFaulty(f.maker, s.onchain[m], Tally(s, BusyFill(m)), s.orders[m].amount, fill, x))
    || FundsFaulty(s, j, f, x)
  }

  /** The payer's USDC, and what of it the Exchange may take. */
  method CheckPayer(usdc: nat, allowance: nat, need: nat, busy: nat, payer: Role, reasons: seq<Reason>)
    returns (r: seq<Reason>)
    ensures forall x :: x in r <==>
      (x in reasons || IsLack(x, payer, UsdcBalance, usdc, need, busy)
       || IsLack(x, payer, UsdcAllowance, allowance, need, busy))
  {
    r := Short(usdc, need, busy, payer, UsdcBalance, reasons);
    r := Short(allowance, need, busy, payer, UsdcAllowance, r);
  }

  /** The funds half of preflight_match: the payer's USDC and allowance, the giver's tokens and approval. */
  method CheckFunds(s: State, j: nat, c: Committed, f: Facts, reasons: seq<Reason>) returns (r: seq<Reason>)
    requires j < |s.jobs| && Sides(s, s.jobs[j].taker, s.jobs[j].maker) && Counts(c, s)
    ensures forall x :: x in r <==> (x in reasons || FundsFaulty(s, j, f, x))
  {
    var job := s.jobs[j];
    var taker, maker := s.orders[job.taker], s.orders[job.maker];
    r := reasons;
    var volume := Volume(job.fill, maker.price);
    var need := if taker.isBuy then volume + Fee(volume, EXCHANGE_TAKER_FEE_BPS) else volume;
    var buyer, seller := Buyer(s, job.taker, job.maker), Seller(s, job.taker, job.maker);
    var payer, giver := if taker.isBuy then TakerSide else MakerSide, if taker.isBuy then MakerSide else TakerSide;
    r := CheckPayer(Get(s.funds.usdc, buyer), Get(s.funds.allowance, buyer), need, Get(c.usdc, buyer), payer, r);
    var lot := (seller, taker.asset);
    r := Short(Get(s.funds.ctf, lot), job.fill, Get(c.ctf, lot), giver, CtfBalance, r);
    if !f.sellerApproved { r := Blame(r, giver, CtfApproval); }
  }

  /**
   preflight_match. No reasons exactly when the chain covers this job on top of everything in flight; a hard reason
   exactly when it would fail against the chain alone, so a merely busy job is deferred, never failed; and a side is
   at fault exactly when the market resolved, its own order failed, or it lacks what it must bring.
   */
  method PreflightMatch(s: State, j: nat, c: Committed, f: Facts) returns (reasons: seq<Reason>)
    requires j < |s.jobs| && |s.onchain| == |s.orders| && Sides(s, s.jobs[j].taker, s.jobs[j].maker)
    requires Counts(c, s)
    ensures reasons == [] <==> Fine(f) && Affordable(s, j)
    ensures AnyHard(reasons) <==> !Fine(f) || !Executable(s, s.jobs[j].taker, s.jobs[j].maker, s.jobs[j].fill)
    ensures AtFault(reasons, TakerSide) <==> f.resolved || !SideFine(f.taker) || !Brings(s, j, f, TakerSide)
    ensures AtFault(reasons, MakerSide) <==> f.resolved || !SideFine(f.maker) || !Brings(s, j, f, MakerSide)
    ensures forall x :: x in reasons <==> Against(s, j, f, x)
  {
    var job := s.jobs[j];
    var taker, maker := s.orders[job.taker], s.orders[job.maker];
    reasons := [];
    if f.resolved { reasons := Blame(reasons, Market, Resolved); }
    reasons := OrderState(
      s.onchain[job.taker], Get(c.filled, job.taker), taker.amount, f.taker, TakerSide, job.fill, reasons);
    reasons := OrderState(
      s.onchain[job.maker], Get(c.filled, job.maker), maker.amount, f.maker, MakerSide, job.fill, reasons);
    reasons := CheckFunds(s, j, c, f, reasons);
    NoneAgainst(s, j, f, reasons);
    HardAgainst(s, j, f, reasons);
    FaultAgainst(s, j, f, reasons, TakerSide);
    FaultAgainst(s, j, f, reasons, MakerSide);
  }

  ghost predicate Lists(s: State, j: nat, f: Facts, reasons: seq<Reason>)
    requires j < |s.jobs| && |s.onchain| == |s.orders| && Sides(s, s.jobs[j].taker, s.jobs[j].maker)
  {
    forall x :: x in reasons <==> Against(s, j, f, x)
  }

  /** What the two orders and the market have against them. */
  lemma OrdersAgainst(s: State, j: nat, f: Facts, reasons: seq<Reason>)
    requires j < |s.jobs| && |s.onchain| == |s.orders| && Sides(s, s.jobs[j].taker, s.jobs[j].maker)
    requires Lists(s, j, f, reasons)
    ensures f.resolved <==> Reason(false, Market, Resolved) in reasons
    ensures !SideFine(f.taker) <==> exists c :: Reason(false, TakerSide, c) in reasons && OwnCause(c)
    ensures !SideFine(f.maker) <==> exists c :: Reason(false, MakerSide, c) in reasons && OwnCause(c)
  {
    assert f.taker.expired <==> Reason(false, TakerSide, Expired) in reasons;
    assert f.taker.nonceStale <==> Reason(false, TakerSide, NonceStale) in reasons;
    assert f.taker.cancelled <==> Reason(false, TakerSide, CancelledOnchain) in reasons;
    assert f.maker.expired <==> Reason(false, MakerSide, Expired) in reasons;
    assert f.maker.nonceStale <==> Reason(false, MakerSide, NonceStale) in reasons;
    assert f.maker.cancelled <==> Reason(false, MakerSide, CancelledOnchain) in reasons;
  }

  predicate OwnCause(c: Cause) {
    c == Expired || c == NonceStale || c == CancelledOnchain
  }

  predicate FundsCause(c: Cause) {
    c == UsdcBalance || c == UsdcAllowance || c == CtfBalance || c == CtfApproval
  }

  /** What the two sides lack. */
  lemma SidesAgainst(s: State, j: nat, f: Facts, reasons: seq<Reason>)
    requires j < |s.jobs| && |s.onchain| == |s.orders| && Sides(s, s.jobs[j].taker, s.jobs[j].maker)
    requires Lists(s, j, f, reasons)
    ensures !Brings(s, j, f, TakerSide) <==> exists c :: Reason(false, TakerSide, c) in reasons && FundsCause(c)
    ensures !Brings(s, j, f, MakerSide) <==> exists c :: Reason(false, MakerSide, c) in reasons && FundsCause(c)
  {
    var buying := if s.orders[s.jobs[j].taker].isBuy then TakerSide else MakerSide;
    var selling := if s.orders[s.jobs[j].taker].isBuy then MakerSide else TakerSide;
    var a, b := Reason(false, buying, UsdcBalance), Reason(false, buying, UsdcAllowance);
    var c, d := Reason(false, selling, CtfBalance), Reason(false, selling, CtfApproval);
    assert a in reasons <==> Against(s, j, f, a);
    assert b in reasons <==> Against(s, j, f, b);
    assert c in reasons <==> Against(s, j, f, c);
    assert d in reasons <==> Against(s, j, f, d);
  }

  /** Room for the fill on both orders, alone and on top of what is in flight. */
  lemma RoomAgainst(s: State, j: nat, f: Facts, reasons: seq<Reason>)
    requires j < |s.jobs| && |s.onchain| == |s.orders| && Sides(s, s.jobs[j].taker, s.jobs[j].maker)
    requires Lists(s, j, f, reasons)
    ensures var t, m, fill := s.jobs[j].taker, s.jobs[j].maker, s.jobs[j].fill;
      && (s.onchain[t] + fill > s.orders[t].amount <==> Reason(false, TakerSide, Overfill) in reasons)
      && (s.onchain[m] + fill > s.orders[m].amount <==> Reason(false, MakerSide, Overfill) in reasons)
      && (s.onchain[t] + Tally(s, BusyFill(t)) + fill > s.orders[t].amount <==>
            Reason(false, TakerSide, Overfill) in reasons || Reason(true, TakerSide, Overfill) in reasons)
      && (s.onchain[m] + Tally(s, BusyFill(m)) + fill > s.orders[m].amount <==>
            Reason(false, MakerSide, Overfill) in reasons || Reason(true, MakerSide, Overfill) in reasons)
  {
    assert Reason(false, TakerSide, Overfill) in reasons <==> Against(s, j, f, Reason(false, TakerSide, Overfill));
    assert Reason(true, TakerSide, Overfill) in reasons <==> Against(s, j, f, Reason(true, TakerSide, Overfill));
    assert Reason(false, MakerSide, Overfill) in reasons <==> Against(s, j, f, Reason(false, MakerSide, Overfill));
    assert Reason(true, MakerSide, Overfill) in reasons <==> Against(s, j, f, Reason(true, MakerSide, Overfill));
  }

  lemma NoneAgainst(s: State, j: nat, f: Facts, reasons: seq<Reason>)
    requires j < |s.jobs| && |s.onchain| == |s.orders| && Sides(s, s.jobs[j].taker, s.jobs[j].maker)
    requires Lists(s, j, f, reasons)
    ensures reasons == [] <==> Fine(f) && Affordable(s, j)
  {
    if reasons == [] {
      OrdersAgainst(s, j, f, reasons);
      RoomAgainst(s, j, f, reasons);
      NothingLacks(s, j, f, reasons);
    } else {
      assert Against(s, j, f, reasons[0]);
    }
  }

  lemma NothingLacks(s: State, j: nat, f: Facts, reasons: seq<Reason>)
    requires j < |s.jobs| && |s.onchain| == |s.orders| && Sides(s, s.jobs[j].taker, s.jobs[j].maker)
    requires Lists(s, j, f, reasons) && reasons == []
    ensures f.sellerApproved && Coverable(s, j)
  {
    var buying := if s.orders[s.jobs[j].taker].isBuy then TakerSide else MakerSide;
    var selling := if s.orders[s.jobs[j].taker].isBuy then MakerSide else TakerSide;
    assert Reason(false, selling, CtfApproval) !in reasons;
    assert Reason(false, buying, UsdcBalance) !in reasons && Reason(true, buying, UsdcBalance) !in reasons;
    assert Reason(false, buying, UsdcAllowance) !in reasons && Reason(true, buying, UsdcAllowance) !in reasons;
    assert Reason(false, selling, CtfBalance) !in reasons && Reason(true, selling, CtfBalance) !in reasons;
  }

  lemma HardAgainst(s: State, j: nat, f: Facts, reasons: seq<Reason>)
    requires j < |s.jobs| && |s.onchain| == |s.orders| && Sides(s, s.jobs[j].taker, s.jobs[j].maker)
    requires Lists(s, j, f, reasons)
    ensures AnyHard(reasons) <==> !Fine(f) || !Executable(s, s.jobs[j].taker, s.jobs[j].maker, s.jobs[j].fill)
  {
    OrdersAgainst(s, j, f, reasons);
    RoomAgainst(s, j, f, reasons);
    SidesAgainst(s, j, f, reasons);
    if AnyHard(reasons) {
      var x :| x in reasons && !x.busy;
      assert Against(s, j, f, x);
      assert x == Reason(false, x.role, x.cause);
    }
  }

  lemma FaultAgainst(s: State, j: nat, f: Facts, reasons: seq<Reason>, role: Role)
    requires j < |s.jobs| && |s.onchain| == |s.orders| && Sides(s, s.jobs[j].taker, s.jobs[j].maker)
    requires Lists(s, j, f, reasons) && (role == TakerSide || role == MakerSide)
    ensures AtFault(reasons, role) <==>
      f.resolved || !SideFine(if role == TakerSide then f.taker else f.maker) || !Brings(s, j, f, role)
  {
    OrdersAgainst(s, j, f, reasons);
    SidesAgainst(s, j, f, reasons);
    if AtFault(reasons, role) {
      var x :| x in reasons && IsFault(x, role);
      assert Against(s, j, f, x);
      assert x == Reason(false, x.role, x.cause);
    }
  }
}
