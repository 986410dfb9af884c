/**
 USDC arithmetic of one match, as Exchange.matchOrders computes it, and the upper bound that
 POST /orders reserves for a buy order.
 */
module Amounts {

  const PRICE_SCALE: nat := 1_000_000
  const BPS: nat := 10_000
  const EXCHANGE_TAKER_FEE_BPS: nat := 75

  /** Volume of a fill at the maker's price, rounded down. */
  function Volume(fill: nat, makerPrice: nat): nat {
    fill * makerPrice / PRICE_SCALE
  }

  /** Taker fee on a volume, rounded down. */
  function Fee(volume: nat, feeBps: nat): nat {
    volume * feeBps / BPS
  }

  function CeilDiv(x: nat, d: nat): nat
    requires d > 0
  {
    (x + d - 1) / d
  }

  /** Upper bound on what buying `remaining` at the limit price costs with the taker fee, each step rounded up. */
  function OrderUsdcNeed(remaining: nat, price: nat, feeBps: nat): nat {
    var volume := CeilDiv(remaining * price, PRICE_SCALE);
    volume + CeilDiv(volume * feeBps, BPS)
  }

  // ---------------------------------------------------------------- reservation bound

  /** One fill of a buy order: quantity and the price it was struck at. */
  datatype Strike = Strike(quantity: nat, price: nat)

  function Quantity(fills: seq<Strike>): (total: nat)
    ensures fills == [] ==> total == 0
  {
    if fills == [] then 0 else Quantity(fills[..|fills| - 1]) + fills[|fills| - 1].quantity
  }

  /** Volume plus taker fee actually paid over a list of fills, each rounded down on its own. */
  function Paid(fills: seq<Strike>, feeBps: nat): nat {
    if fills == [] then 0
    else
      var last := fills[|fills| - 1];
      var volume := Volume(last.quantity, last.price);
      Paid(fills[..|fills| - 1], feeBps) + volume + Fee(volume, feeBps)
  }

  lemma MulMono(x: int, y: int, d: int)
    requires x <= y && d >= 0
    ensures x * d <= y * d
  {
  }

  lemma DivMono(x: int, y: int, d: int)
    requires d > 0 && x <= y
    ensures x / d <= y / d
  {
    var p, q := x / d, y / d;
    assert x == p * d + x % d;
    assert y == q * d + y % d;
    if p >= q + 1 {
      MulMono(q + 1, p, d);
      assert false;
    }
  }

  /** The volume is the whole micro-USDC of quantity times price; the taker pays 75 basis points of it, rounded down. */
  lemma VolumeAndFee(fill: nat, price: nat, volume: nat)
    requires volume == Volume(fill, price)
    ensures volume * 1_000_000 <= fill * price < (volume + 1) * 1_000_000
    ensures var fee := Fee(volume, EXCHANGE_TAKER_FEE_BPS); fee * 10_000 <= volume * 75 < (fee + 1) * 10_000
  {
  }

  /** The rounded-up quotient is the least number whose product covers the dividend. */
  lemma CeilDivLeast(x: nat, d: nat, y: nat)
    requires d > 0
    ensures CeilDiv(x, d) <= y <==> x <= y * d
  {
    var q := CeilDiv(x, d);
    assert x + d - 1 == q * d + (x + d - 1) % d;
    if q <= y {
      MulMono(q, y, d);
    } else {
      MulMono(y + 1, q, d);
    }
  }

  /** A buy reserves the least volume covering the limit price, and the least fee covering that volume's share. */
  lemma NeedLeast(remaining: nat, price: nat, feeBps: nat, volume: nat, fee: nat)
    requires volume * 1_000_000 >= remaining * price && fee * 10_000 >= volume * feeBps
    ensures OrderUsdcNeed(remaining, price, feeBps) <= volume + fee
    ensures exists v: nat, f: nat ::
      v + f == OrderUsdcNeed(remaining, price, feeBps) && v * 1_000_000 >= remaining * price && f * 10_000 >= v * feeBps
  {
    var v := CeilDiv(remaining * price, PRICE_SCALE);
    var f := CeilDiv(v * feeBps, BPS);
    CeilDivLeast(remaining * price, PRICE_SCALE, volume);
    CeilDivLeast(remaining * price, PRICE_SCALE, v);
    CeilDivLeast(v * feeBps, BPS, f);
    MulMono(v, volume, feeBps);
    CeilDivLeast(v * feeBps, BPS, fee);
  }

  /** floor(x/d) + ceil(y/d) <= ceil((x+y)/d): a fill rounded down never outgrows what it frees. */
  lemma FloorPlusCeil(x: nat, y: nat, d: nat)
    requires d > 0
    ensures x / d + CeilDiv(y, d) <= CeilDiv(x + y, d)
  {
    var q, k := x / d, (y + d - 1) / d;
    assert x == q * d + x % d;
    assert y + d - 1 == k * d + (y + d - 1) % d;
    assert (q + k) * d == q * d + k * d;
    DivLower(q + k, x + y + d - 1, d);
  }

  lemma DivLower(q: int, z: int, d: int)
    requires d > 0 && q * d <= z
    ensures q <= z / d
  {
    var p := z / d;
    assert z == p * d + z % d;
    if p + 1 <= q {
      MulMono(p + 1, q, d);
      assert false;
    }
  }

  /** Splitting `quantity` off an order at a price within its limit keeps its reservation sufficient. */
  lemma FillWithinNeed(remaining: nat, limit: nat, quantity: nat, price: nat, feeBps: nat)
    requires quantity <= remaining && price <= limit
    ensures var volume := Volume(quantity, price);
            volume + Fee(volume, feeBps) + OrderUsdcNeed(remaining - quantity, limit, feeBps)
              <= OrderUsdcNeed(remaining, limit, feeBps)
  {
    var volume := Volume(quantity, price);
    var before := CeilDiv(remaining * limit, PRICE_SCALE);
    var after := CeilDiv((remaining - quantity) * limit, PRICE_SCALE);
    assert quantity * price <= quantity * limit by { MulMono(price, limit, quantity); }
    DivMono(quantity * price, quantity * limit, PRICE_SCALE);
    assert remaining * limit == quantity * limit + (remaining - quantity) * limit;
    FloorPlusCeil(quantity * limit, (remaining - quantity) * limit, PRICE_SCALE);
    assert volume + after <= before;
    FeeWithin(volume, after, before, feeBps);
  }

  lemma FeeWithin(volume: nat, after: nat, before: nat, feeBps: nat)
    requires volume + after <= before
    ensures Fee(volume, feeBps) + CeilDiv(after * feeBps, BPS) <= CeilDiv(before * feeBps, BPS)
  {
    FloorPlusCeil(volume * feeBps, after * feeBps, BPS);
    assert volume * feeBps + after * feeBps == (volume + after) * feeBps;
    MulMono(volume + after, before, feeBps);
    DivMono((volume + after) * feeBps + BPS - 1, before * feeBps + BPS - 1, BPS);
  }

  /**
   However a buy order is split into fills at or below its limit price, what it has paid (floors) plus
   what its remainder still reserves (ceilings) never exceeds the reservation of the whole order.
   */
  lemma {:induction false} ReservationBound(amount: nat, limit: nat, feeBps: nat, fills: seq<Strike>)
    requires Quantity(fills) <= amount
    requires forall f :: f in fills ==> f.price <= limit
    ensures Paid(fills, feeBps) + OrderUsdcNeed(amount - Quantity(fills), limit, feeBps)
              <= OrderUsdcNeed(amount, limit, feeBps)
  {
    if fills != [] {
      var front := fills[..|fills| - 1];
      var last := fills[|fills| - 1];
      ReservationBound(amount, limit, feeBps, front);
      FillWithinNeed(amount - Quantity(front), limit, last.quantity, last.price, feeBps);
    }
  }
}
