/** Fee policy of the relayer: fresh quotes, same-nonce replacements and the columns they are stored in. */
module Gas {
  import opened Options
  import Amounts

  const BPS: nat := 10_000

  datatype FeeQuote = FeeQuote(maxFee: nat, tip: nat, legacy: Option<nat>)

  datatype FeeSettings = FeeSettings(cap: nat, priority: nat, bumpBps: nat, gasBuffer: nat, gasCap: nat)

  function Max(x: nat, y: nat): nat { if x >= y then x else y }
  function Min(x: nat, y: nat): nat { if x <= y then x else y }

  function CeilBps(x: nat, bps: nat): nat {
    (x * bps + BPS - 1) / BPS
  }

  /** Fees for a fresh send; None when the cap cannot cover the base fee. Without a base fee: legacy gas price. */
  function QuoteFees(base: Option<nat>, suggestedTip: nat, gasPrice: Option<nat>, s: FeeSettings): Option<FeeQuote> {
    if base == None then
      if gasPrice == None || gasPrice.value == 0 || gasPrice.value > s.cap then None
      else Some(FeeQuote(gasPrice.value, gasPrice.value, gasPrice))
    else
      var tip := Max(suggestedTip, s.priority);
      if base.value + tip > s.cap then None
      else Some(FeeQuote(Min(2 * base.value + tip, s.cap), tip, None))
  }

  function Factor(s: FeeSettings): nat {
    BPS + Max(s.bumpBps, 1000)
  }

  /** Replacement fees for the same nonce; None when the cap blocks the bump. */
  function BumpFees(q: FeeQuote, s: FeeSettings, base: Option<nat>): Option<FeeQuote> {
    if q.legacy.Some? then
      var price := CeilBps(q.legacy.value, Factor(s));
      if price > s.cap then None else Some(FeeQuote(price, price, Some(price)))
    else
      var minTip := CeilBps(q.tip, Factor(s));
      var minMax := CeilBps(q.maxFee, Factor(s));
      var wanted := if base.Some? then Max(minMax, 2 * base.value + minTip) else minMax;
      var maxFee := Min(wanted, s.cap);
      if maxFee < minMax || minTip > maxFee then None else Some(FeeQuote(maxFee, minTip, None))
  }

  /** The two job columns; a legacy quote stores no priority fee. */
  function Store(q: FeeQuote): (nat, Option<nat>) {
    (q.maxFee, if q.legacy.Some? then None else Some(q.tip))
  }

  function Reload(columns: (nat, Option<nat>)): FeeQuote {
    if columns.1 == None then FeeQuote(columns.0, columns.0, Some(columns.0))
    else FeeQuote(columns.0, columns.1.value, None)
  }

  function GasLimit(estimate: nat, s: FeeSettings): Option<nat> {
    if estimate == 0 || estimate > s.gasCap then None
    else Some(Min(CeilBps(estimate, BPS + s.gasBuffer), s.gasCap))
  }

  // ------------------------------------------------------------------ properties

  /** The ordering required by the Specification section of EIP-1559, under the configured cap. */
  predicate WellPriced(q: FeeQuote, cap: nat) {
    q.tip <= q.maxFee <= cap && (q.legacy.Some? ==> q.legacy.value == q.maxFee == q.tip)
  }

  lemma CeilBpsRaises(x: nat, bps: nat)
    requires bps >= 11_000
    ensures CeilBps(x, bps) * 10 >= x * 11
    ensures x > 0 ==> CeilBps(x, bps) > x
  {
    Amounts.MulMono(11_000, bps, x);
    assert x * 11_000 <= x * bps;
    Amounts.DivMono(x * 11_000 + BPS - 1, x * bps + BPS - 1, BPS);
  }

  lemma CeilBpsCovers(x: nat, bps: nat)
    requires bps >= BPS
    ensures CeilBps(x, bps) >= x
  {
    Amounts.MulMono(BPS, bps, x);
    Amounts.DivMono(x * BPS + BPS - 1, x * bps + BPS - 1, BPS);
  }

  lemma QuoteWellPriced(base: Option<nat>, tip: nat, gasPrice: Option<nat>, s: FeeSettings)
    ensures QuoteFees(base, tip, gasPrice, s).Some? ==> WellPriced(QuoteFees(base, tip, gasPrice, s).value, s.cap)
  {
  }

  /** A replacement keeps the ordering and raises both fees by at least a tenth. */
  lemma BumpRaises(q: FeeQuote, s: FeeSettings, base: Option<nat>)
    requires WellPriced(q, s.cap) && BumpFees(q, s, base).Some?
    ensures var r := BumpFees(q, s, base).value;
      && WellPriced(r, s.cap)
      && r.maxFee * 10 >= q.maxFee * 11 && r.tip * 10 >= q.tip * 11
      && (q.maxFee > 0 ==> r.maxFee > q.maxFee)
      && r.legacy.Some? == q.legacy.Some?
  {
    CeilBpsRaises(q.maxFee, Factor(s));
    CeilBpsRaises(q.tip, Factor(s));
  }

  lemma CeilBpsLeast(x: nat, bps: nat, y: nat)
    ensures CeilBps(x, bps) <= y <==> x * bps <= y * BPS
  {
    Amounts.CeilDivLeast(x * bps, BPS, y);
  }

  /** The least fee that a node takes as a replacement: the configured raise, and never less than a tenth. */
  predicate LeastRaise(x: nat, y: nat, s: FeeSettings) {
    && y * 10_000 >= x * (10_000 + s.bumpBps) && y * 10 >= x * 11
    && (y > 0 ==> (y - 1) * 10_000 < x * (10_000 + s.bumpBps) || (y - 1) * 10 < x * 11)
  }

  lemma RaisesLeast(x: nat, s: FeeSettings)
    ensures LeastRaise(x, CeilBps(x, Factor(s)), s)
  {
    var y := CeilBps(x, Factor(s));
    CeilBpsLeast(x, Factor(s), y);
    Amounts.MulMono(10_000 + s.bumpBps, Factor(s), x);
    Amounts.MulMono(11_000, Factor(s), x);
    if y > 0 {
      CeilBpsLeast(x, Factor(s), y - 1);
    }
  }

  /**
   The fees of a fresh send. With a base fee the tip is the larger of the suggested and the configured one, and it
   goes out exactly when base fee and tip fit the cap; the max fee leaves room for a doubled base fee, or is the cap.
   */
  lemma QuoteExact(base: Option<nat>, tip: nat, gasPrice: Option<nat>, s: FeeSettings)
    ensures base == None && gasPrice.Some? && 0 < gasPrice.value <= s.cap ==>
      QuoteFees(base, tip, gasPrice, s) == Some(FeeQuote(gasPrice.value, gasPrice.value, gasPrice))
    ensures base == None && !(gasPrice.Some? && 0 < gasPrice.value <= s.cap) ==>
      QuoteFees(base, tip, gasPrice, s) == None
    ensures base.Some? ==>
      (QuoteFees(base, tip, gasPrice, s).Some? <==> base.value + tip <= s.cap && base.value + s.priority <= s.cap)
    ensures base.Some? && QuoteFees(base, tip, gasPrice, s).Some? ==>
      var q := QuoteFees(base, tip, gasPrice, s).value;
      && q.legacy == None && q.tip >= tip && q.tip >= s.priority && (q.tip == tip || q.tip == s.priority)
      && q.maxFee <= s.cap && q.maxFee <= 2 * base.value + q.tip
      && (q.maxFee == s.cap || q.maxFee == 2 * base.value + q.tip)
  {
  }

  /** A replacement raises both fees by as little as a node accepts, and is refused only over the cap. */
  lemma BumpExact(q: FeeQuote, s: FeeSettings, base: Option<nat>, least: nat)
    requires WellPriced(q, s.cap) && LeastRaise(q.maxFee, least, s)
    ensures BumpFees(q, s, base).Some? <==> least <= s.cap
    ensures least <= s.cap ==> LeastBump(q, BumpFees(q, s, base).value, least, s, base)
  {
    RaisesLeast(q.maxFee, s);
    RaisesLeast(q.tip, s);
    CeilBpsLeast(q.tip, Factor(s), least);
    CeilBpsLeast(q.maxFee, Factor(s), least);
    Amounts.MulMono(q.tip, q.maxFee, Factor(s));
  }

  /** Of the quote's own kind; dynamic fees also leave room for a doubled base fee, as far as the cap goes. */
  predicate LeastBump(q: FeeQuote, r: FeeQuote, least: nat, s: FeeSettings, base: Option<nat>) {
    && r.legacy == (if q.legacy.Some? then Some(least) else None) && LeastRaise(q.tip, r.tip, s)
    && (if q.legacy.Some? || base == None then r.maxFee == least
        else least <= r.maxFee <= s.cap && (r.maxFee == s.cap || (r.maxFee >= 2 * base.value + r.tip
               && (r.maxFee == least || r.maxFee == 2 * base.value + r.tip))))
  }

  /** The columns lose nothing of a well-priced quote. */
  lemma StoreReload(q: FeeQuote, cap: nat)
    requires WellPriced(q, cap)
    ensures Reload(Store(q)) == q
  {
  }

  /** Successive fees of one job: each bump works on the stored columns of the one before. */
  predicate Chain(qs: seq<FeeQuote>, bases: seq<Option<nat>>, s: FeeSettings) {
    && |qs| == |bases| + 1
    && forall i :: 0 <= i < |bases| ==> BumpFees(Reload(Store(qs[i])), s, bases[i]) == Some(qs[i + 1])
  }

  /**
   Through any chain of quote, store, reload and bump the ordering holds, each step raises both fees by at least
   a tenth, and from a positive fee at most cap - fee bumps succeed.
   */
  lemma {:induction false} BumpChain(qs: seq<FeeQuote>, bases: seq<Option<nat>>, s: FeeSettings, k: nat)
    requires Chain(qs, bases, s) && WellPriced(qs[0], s.cap) && k < |qs|
    ensures WellPriced(qs[k], s.cap)
    ensures forall i :: 0 <= i < k ==>
      qs[i + 1].maxFee * 10 >= qs[i].maxFee * 11 && qs[i + 1].tip * 10 >= qs[i].tip * 11
    ensures qs[0].maxFee > 0 ==> qs[k].maxFee >= qs[0].maxFee + k && k <= s.cap - qs[0].maxFee
    decreases k
  {
    if k > 0 {
      BumpChain(qs, bases, s, k - 1);
      StoreReload(qs[k - 1], s.cap);
      BumpRaises(qs[k - 1], s, bases[k - 1]);
    }
  }

  /**
   A bump that leaves the fees where they were: from a zero fee, exactly when nothing lifts it, as the quote is a legacy
   one, the block has no or a zero base fee, or the cap is zero. A zero fee is always replaced by something.
   */
  lemma BumpStuckIff(q: FeeQuote, s: FeeSettings, base: Option<nat>)
    requires WellPriced(q, s.cap)
    ensures BumpFees(q, s, base) == Some(q) <==>
      q.maxFee == 0 && (q.legacy.Some? || base == None || base.value == 0 || s.cap == 0)
    ensures q.maxFee == 0 ==> BumpFees(q, s, base).Some?
    ensures q.maxFee == 0 && q.legacy == None && base.Some? ==>
      BumpFees(q, s, base) == Some(FeeQuote(Min(2 * base.value, s.cap), 0, None))
  {
    if BumpFees(q, s, base).Some? {
      BumpRaises(q, s, base);
    }
    CeilZero(Factor(s));
  }

  lemma CeilZero(bps: nat)
    ensures CeilBps(0, bps) == 0
  {
  }

  /** The gas limit covers the estimate and respects the cap. */
  lemma GasLimitCovers(estimate: nat, s: FeeSettings)
    ensures GasLimit(estimate, s).Some? <==> 0 < estimate <= s.gasCap
    ensures GasLimit(estimate, s).Some? ==> estimate <= GasLimit(estimate, s).value <= s.gasCap
    ensures GasLimit(estimate, s).Some? ==>
      var limit := GasLimit(estimate, s).value;
      && (limit - 1) * 10_000 < estimate * (10_000 + s.gasBuffer)
      && (limit < s.gasCap ==> limit * 10_000 >= estimate * (10_000 + s.gasBuffer))
  {
    CeilBpsCovers(estimate, BPS + s.gasBuffer);
    var limit := CeilBps(estimate, BPS + s.gasBuffer);
    CeilBpsLeast(estimate, BPS + s.gasBuffer, limit);
    if 0 < estimate <= s.gasCap {
      CeilBpsLeast(estimate, BPS + s.gasBuffer, GasLimit(estimate, s).value - 1);
    }
  }
}
