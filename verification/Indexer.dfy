/**
 The chain indexer: several instances tick against one checkpoint row and one table of price points. The checkpoint
 never moves back, and behind it every well-formed AMM event has exactly the point one pass over the log would store.
 */
module Indexer {
  import opened Options

  datatype Kind = Seeded | Swap

  /** An AMM log entry; `malformed` when its arguments cannot be read. */
  datatype Entry = Entry(cid: nat, block: nat, index: nat, kind: Kind, malformed: bool)

  /** (condition id, block, log index): the unique key of a price point. */
  type Key = (nat, nat, nat)

  datatype Point = Point(ts: nat, price: nat)

  const SEED_PRICE_MICROS := 500_000

  /** The chain read at any height: logs per block, block times, and the pool's price at the end of a block. */
  datatype Chain = Chain(log: nat -> seq<Entry>, time: nat -> nat, poolPrice: (nat, nat) -> nat)

  datatype Settings = Settings(startBlock: nat, anvil: bool, lookback: nat)

  function KeyOf(e: Entry): Key {
    (e.cid, e.block, e.index)
  }

  function PointOf(ch: Chain, e: Entry): Point {
    Point(ch.time(e.block), if e.kind == Seeded then SEED_PRICE_MICROS else ch.poolPrice(e.cid, e.block))
  }

  /** Entries sit in their own block, and no two entries of a block share a log index. */
  ghost predicate WellKept(ch: Chain) {
    && (forall b: nat, e :: e in ch.log(b) ==> e.block == b)
    && (forall b: nat, e, f :: e in ch.log(b) && f in ch.log(b) && e.index == f.index ==> e == f)
  }

  // ------------------------------------------------------------------ where a tick starts

  function ResolveStartBlock(last: nat, cfg: Settings, head: nat): (start: nat)
    ensures start > last
  {
    var floor :=
      if cfg.startBlock > 0 then cfg.startBlock
      else if cfg.anvil || last > 0 then 1
      else if head + 1 > cfg.lookback && head + 1 - cfg.lookback > 1 then head + 1 - cfg.lookback else 1;
    if last + 1 > floor then last + 1 else floor
  }

  /** Initial last block of an address set without a checkpoint. */
  function FreshLastBlock(cfg: Settings, head: nat, legacy: Option<nat>): nat {
    if cfg.startBlock > 0 then cfg.startBlock - 1
    else if cfg.anvil then 0
    else
      var behind := if head > cfg.lookback then head - cfg.lookback else 0;
      if legacy.Some? && legacy.value > 0 && legacy.value < behind then legacy.value else behind
  }

  /**
   A tick starts right after its checkpoint, at the configured floor when that is ahead, or, with neither a floor nor a
   checkpoint off anvil, so that exactly the last `lookback` blocks up to the head are left when there are that many.
   */
  lemma StartsAt(last: nat, cfg: Settings, head: nat)
    ensures var start := ResolveStartBlock(last, cfg, head);
      && (cfg.startBlock > last ==> start == cfg.startBlock)
      && (cfg.startBlock <= last && (cfg.startBlock > 0 || cfg.anvil || last > 0) ==> start == last + 1)
      && (cfg.startBlock == 0 && !cfg.anvil && last == 0 ==>
            (cfg.lookback < head ==> head - start + 1 == cfg.lookback) && (head <= cfg.lookback ==> start == 1))
  {
  }

  /**
   A fresh address set starts as if everything before the configured floor were indexed, or nothing on anvil, or all but
   the lookback behind the head; and never past a legacy checkpoint that is behind that.
   */
  lemma FreshStartsAt(cfg: Settings, head: nat, legacy: Option<nat>)
    ensures var last := FreshLastBlock(cfg, head, legacy);
      && (cfg.startBlock > 0 ==> last + 1 == cfg.startBlock) && (cfg.startBlock == 0 && cfg.anvil ==> last == 0)
      && (cfg.startBlock == 0 && !cfg.anvil ==>
            && (last > 0 ==> last + cfg.lookback <= head)
            && (legacy.Some? && legacy.value > 0 ==> last <= legacy.value)
            && (last + cfg.lookback == head || (last == 0 && head <= cfg.lookback)
                || (legacy.Some? && legacy.value == last > 0)))
  {
  }

  /** A tick leaves blocks out exactly when the configured floor is ahead, or nothing at all is indexed off anvil. */
  lemma SkipsIff(last: nat, cfg: Settings, head: nat)
    ensures ResolveStartBlock(last, cfg, head) > last + 1 <==>
      cfg.startBlock > last + 1 || (cfg.startBlock == 0 && !cfg.anvil && last == 0 && head > cfg.lookback)
  {
  }

  /** This window starts where the one before it ended, and is full unless it ends at the end. */
  predicate Follows(ranges: seq<(int, int)>, i: nat, start: int, end: int, maxRange: int)
    requires i < |ranges|
  {
    && ranges[i].0 == (if i == 0 then start else ranges[i - 1].1 + 1)
    && ranges[i].0 <= ranges[i].1 <= end && ranges[i].1 - ranges[i].0 < maxRange
    && (ranges[i].1 == end || ranges[i].1 - ranges[i].0 == maxRange - 1)
  }

  /** The windows of a tick: consecutive, from `start`, each as wide as allowed, up to `end` or the chunk limit. */
  ghost predicate Windows(ranges: seq<(int, int)>, start: int, end: int, maxRange: int, maxChunks: int) {
    && |ranges| <= maxChunks
    && (forall i :: 0 <= i < |ranges| ==> Follows(ranges, i, start, end, maxRange))
    && (|ranges| == maxChunks || (|ranges| > 0 && ranges[|ranges| - 1].1 == end) || (ranges == [] && end < start))
  }

  method PlanRanges(start: int, end: int, maxRange: int, maxChunks: int) returns (ranges: seq<(int, int)>)
    ensures if end < start || maxRange < 1 || maxChunks < 1 then ranges == []
            else Windows(ranges, start, end, maxRange, maxChunks)
  {
    ranges := [];
    if end < start || maxRange < 1 || maxChunks < 1 {
      return;
    }
    var lo := start;
    while lo <= end && |ranges| < maxChunks
      invariant lo == if ranges == [] then start else ranges[|ranges| - 1].1 + 1
      invariant start <= lo <= end + 1 && |ranges| <= maxChunks
      invariant forall i :: 0 <= i < |ranges| ==> Follows(ranges, i, start, end, maxRange)
    {
      var hi := if lo + maxRange - 1 < end then lo + maxRange - 1 else end;
      ghost var was := ranges;
      ranges := ranges + [(lo, hi)];
      forall i | 0 <= i < |ranges| ensures Follows(ranges, i, start, end, maxRange) {
        if i < |was| {
          assert Follows(was, i, start, end, maxRange) && ranges[i] == was[i];
        }
      }
      lo := hi + 1;
    }
  }

  /** Windows that do not reach the end are full. */
  lemma {:induction false} FullWindows(
    ranges: seq<(int, int)>, start: int, end: int, maxRange: int, maxChunks: int, k: nat)
    requires Windows(ranges, start, end, maxRange, maxChunks) && k < |ranges|
    ensures ranges[k].1 == end || ranges[k].1 == start + (k + 1) * maxRange - 1
    decreases k
  {
    assert Follows(ranges, k, start, end, maxRange);
    if k > 0 {
      FullWindows(ranges, start, end, maxRange, maxChunks, k - 1);
      assert (k + 1) * maxRange == k * maxRange + maxRange;
    }
  }

  // ------------------------------------------------------------------ the point table

  type Store = map<Key, Point>

  /** INSERT ... ON CONFLICT DO NOTHING of every well-formed entry, in order. */
  function Insert(ch: Chain, store: Store, es: seq<Entry>): (r: Store)
    decreases |es|
  {
    if es == [] then store
    else
      var r := Insert(ch, store, es[..|es| - 1]);
      var e := es[|es| - 1];
      if e.malformed || KeyOf(e) in r then r else r[KeyOf(e) := PointOf(ch, e)]
  }

  /** Logs of the blocks `lo` to `hi`, in chain order. */
  function LogsIn(ch: Chain, lo: nat, hi: int): seq<Entry>
    decreases hi - lo
  {
    if hi < lo then [] else LogsIn(ch, lo, hi - 1) + ch.log(hi)
  }

  lemma {:induction false} InLogs(ch: Chain, lo: nat, hi: int, e: Entry)
    requires WellKept(ch)
    ensures e in LogsIn(ch, lo, hi) <==> lo <= e.block <= hi && e in ch.log(e.block)
    decreases hi - lo
  {
    if lo <= hi {
      InLogs(ch, lo, hi - 1, e);
    }
  }

  /** Every stored point is the point of some log entry. */
  ghost predicate Sound(ch: Chain, store: Store) {
    forall k :: k in store ==> Backed(ch, k, store[k])
  }

  ghost predicate Backed(ch: Chain, k: Key, p: Point) {
    exists e :: e in ch.log(k.1) && !e.malformed && KeyOf(e) == k && p == PointOf(ch, e)
  }

  ghost predicate Complete(ch: Chain, store: Store, b: nat) {
    forall e :: e in ch.log(b) && !e.malformed ==> KeyOf(e) in store && store[KeyOf(e)] == PointOf(ch, e)
  }

  ghost predicate Extends(was: Store, now: Store) {
    forall k :: k in was ==> k in now && now[k] == was[k]
  }

  lemma {:induction false} InsertExtends(ch: Chain, store: Store, es: seq<Entry>)
    ensures Extends(store, Insert(ch, store, es))
    ensures forall e :: e in es && !e.malformed ==> KeyOf(e) in Insert(ch, store, es)
    decreases |es|
  {
    if es != [] {
      var front, last := es[..|es| - 1], es[|es| - 1];
      InsertExtends(ch, store, front);
      assert forall e :: e in es <==> e in front || e == last;
    }
  }

  lemma {:induction false} InsertSound(ch: Chain, store: Store, es: seq<Entry>)
    requires Sound(ch, store) && forall e :: e in es ==> e in ch.log(e.block)
    ensures Sound(ch, Insert(ch, store, es))
    decreases |es|
  {
    if es != [] {
      var front, last := es[..|es| - 1], es[|es| - 1];
      InsertSound(ch, store, front);
      assert last in es;
      assert !last.malformed ==> Backed(ch, KeyOf(last), PointOf(ch, last));
    }
  }

  /** A point under the key of a log entry is that entry's point. */
  lemma OwnPoint(ch: Chain, store: Store, e: Entry)
    requires WellKept(ch) && Sound(ch, store) && e in ch.log(e.block) && KeyOf(e) in store
    ensures store[KeyOf(e)] == PointOf(ch, e)
  {
    assert Backed(ch, KeyOf(e), store[KeyOf(e)]);
    var f :| f in ch.log(e.block) && !f.malformed && KeyOf(f) == KeyOf(e) && store[KeyOf(e)] == PointOf(ch, f);
    assert f == e;
  }

  lemma Inserted(ch: Chain, store: Store, es: seq<Entry>)
    requires WellKept(ch) && Sound(ch, store) && forall e :: e in es ==> e in ch.log(e.block)
    ensures Sound(ch, Insert(ch, store, es)) && Extends(store, Insert(ch, store, es))
    ensures forall e :: e in es && !e.malformed ==>
      KeyOf(e) in Insert(ch, store, es) && Insert(ch, store, es)[KeyOf(e)] == PointOf(ch, e)
  {
    InsertExtends(ch, store, es);
    InsertSound(ch, store, es);
    forall e | e in es && !e.malformed ensures Insert(ch, store, es)[KeyOf(e)] == PointOf(ch, e) {
      OwnPoint(ch, Insert(ch, store, es), e);
    }
  }

  /** What one pass over the blocks `lo` to `hi` stores. */
  function OnePass(ch: Chain, lo: nat, hi: int): Store {
    Insert(ch, map[], LogsIn(ch, lo, hi))
  }

  function Between(store: Store, lo: nat, hi: int): Store {
    map k | k in store && lo <= k.1 <= hi :: store[k]
  }

  lemma {:induction false} OnlyInserted(ch: Chain, store: Store, es: seq<Entry>, k: Key)
    requires k in Insert(ch, store, es) && k !in store
    ensures exists e :: e in es && !e.malformed && KeyOf(e) == k
    decreases |es|
  {
    var front, last := es[..|es| - 1], es[|es| - 1];
    if k in Insert(ch, store, front) {
      OnlyInserted(ch, store, front, k);
      var e :| e in front && !e.malformed && KeyOf(e) == k;
      assert e in es;
    } else {
      assert last in es;
    }
  }

  lemma LogsAreLogs(ch: Chain, lo: nat, hi: int)
    requires WellKept(ch)
    ensures forall e :: e in LogsIn(ch, lo, hi) ==> e in ch.log(e.block) && lo <= e.block <= hi
  {
    forall e | e in LogsIn(ch, lo, hi) ensures e in ch.log(e.block) && lo <= e.block <= hi {
      InLogs(ch, lo, hi, e);
    }
  }

  lemma PassIsComplete(ch: Chain, store: Store, lo: nat, hi: int, k: Key)
    requires WellKept(ch) && Sound(ch, store)
    requires (forall b :: lo <= b <= hi ==> Complete(ch, store, b)) && k in OnePass(ch, lo, hi)
    ensures k in Between(store, lo, hi) && store[k] == OnePass(ch, lo, hi)[k]
  {
    var es := LogsIn(ch, lo, hi);
    LogsAreLogs(ch, lo, hi);
    OnlyInserted(ch, map[], es, k);
    var e :| e in es && !e.malformed && KeyOf(e) == k;
    assert Complete(ch, store, e.block);
    InsertSound(ch, map[], es);
    OwnPoint(ch, OnePass(ch, lo, hi), e);
  }

  lemma StoredIsPassed(ch: Chain, store: Store, lo: nat, hi: int, k: Key)
    requires WellKept(ch) && Sound(ch, store) && k in Between(store, lo, hi)
    ensures k in OnePass(ch, lo, hi)
  {
    var es := LogsIn(ch, lo, hi);
    InsertExtends(ch, map[], es);
    assert Backed(ch, k, store[k]);
    var e :| e in ch.log(k.1) && !e.malformed && KeyOf(e) == k && store[k] == PointOf(ch, e);
    InLogs(ch, lo, hi, e);
  }

  /** Points of complete blocks, however they came in, are those of one pass. */
  lemma CompleteIsOnePass(ch: Chain, store: Store, lo: nat, hi: int)
    requires WellKept(ch) && Sound(ch, store) && forall b :: lo <= b <= hi ==> Complete(ch, store, b)
    ensures Between(store, lo, hi) == OnePass(ch, lo, hi)
  {
    forall k | k in OnePass(ch, lo, hi) ensures k in Between(store, lo, hi) && store[k] == OnePass(ch, lo, hi)[k] {
      PassIsComplete(ch, store, lo, hi, k);
    }
    forall k | k in Between(store, lo, hi) ensures k in OnePass(ch, lo, hi) {
      StoredIsPassed(ch, store, lo, hi, k);
    }
  }

  // ------------------------------------------------------------------ instances racing on one checkpoint

  /** Next block to commit, and the head this tick saw. */
  datatype Tick = Tick(next: nat, end: nat)

  /** `base` is the row's initial value; `skipped` collects the blocks that fast-forwards left out. */
  datatype State = State(row: Option<nat>, base: nat, skipped: set<nat>, store: Store, ticks: map<nat, Tick>)

  datatype Event =
    | Create(cfg: Settings, head: nat, legacy: Option<nat>)
    | Start(i: nat, cfg: Settings, head: nat)
    | Range(i: nat, hi: nat, amm: bool)    // one window, its points and the checkpoint in one commit
    | Hold(i: nat, done: seq<Entry>)       // a failed window: what was stored so far is kept, the checkpoint held
    | Stop(i: nat)                         // tick over, or the instance died before a commit

  function Forward(row: Option<nat>, block: nat): Option<nat> {
    if row.Some? && row.value < block then Some(block) else row
  }

  /** `loaded`: the AMM's ABI always loads, so no window is committed without its points. */
  predicate Enabled(ch: Chain, loaded: bool, s: State, e: Event) {
    match e
    case Create(_, _, _) => s.row == None
    case Start(_, _, _) => s.row.Some?
    case Range(i, hi, amm) => i in s.ticks && s.ticks[i].next <= hi <= s.ticks[i].end && (loaded ==> amm)
    case Hold(i, done) =>
      && i in s.ticks && s.ticks[i].next > 0
      && forall x :: x in done ==> s.ticks[i].next <= x.block && x in ch.log(x.block)
    case Stop(_) => true
  }

  /** Blocks strictly between two blocks. */
  function Gap(last: nat, start: nat): (g: set<nat>)
    ensures forall b: nat :: b in g <==> last < b < start
    decreases start
  {
    if start <= last + 1 then {} else Gap(last, start - 1) + {start - 1}
  }

  function Next(ch: Chain, s: State, e: Event): State
    requires Enabled(ch, false, s, e)
  {
    match e
    case Create(cfg, head, legacy) =>
      var last := FreshLastBlock(cfg, head, legacy);
      s.(row := Some(last), base := last)
    case Start(i, cfg, head) =>
      var start := ResolveStartBlock(s.row.value, cfg, head);
      s.(ticks := s.ticks[i := Tick(start, head)], skipped := s.skipped + Gap(s.row.value, start))
    case Range(i, hi, amm) =>
      s.(store := if amm then Insert(ch, s.store, LogsIn(ch, s.ticks[i].next, hi)) else s.store,
         row := Forward(s.row, hi), ticks := s.ticks[i := Tick(hi + 1, s.ticks[i].end)])
    case Hold(i, done) =>
      s.(store := Insert(ch, s.store, done), row := Forward(s.row, s.ticks[i].next - 1), ticks := s.ticks - {i})
    case Stop(i) => s.(ticks := s.ticks - {i})
  }

  /** Every block past the base up to `to` is complete, unless a fast-forward left it out. */
  ghost predicate Covered(ch: Chain, s: State, to: int) {
    forall b: nat :: s.base < b <= to ==> b in s.skipped || Complete(ch, s.store, b)
  }

  ghost predicate Inv(ch: Chain, s: State) {
    && Sound(ch, s.store) && (s.row == None ==> s.ticks == map[])
    && (s.row.Some? ==> s.base <= s.row.value && Covered(ch, s, s.row.value))
    && (forall i :: i in s.ticks ==> s.base < s.ticks[i].next && Covered(ch, s, s.ticks[i].next - 1))
  }

  lemma CompleteGrows(ch: Chain, was: Store, now: Store, b: nat)
    requires Complete(ch, was, b) && Extends(was, now)
    ensures Complete(ch, now, b)
  {
  }

  lemma CoveredGrows(ch: Chain, s: State, t: State, to: int)
    requires Covered(ch, s, to) && t.base == s.base && s.skipped <= t.skipped && Extends(s.store, t.store)
    ensures Covered(ch, t, to)
  {
    forall b: nat | s.base < b <= to ensures b in t.skipped || Complete(ch, t.store, b) {
      if b !in s.skipped {
        CompleteGrows(ch, s.store, t.store, b);
      }
    }
  }

  lemma RangeCovers(ch: Chain, s: State, i: nat, hi: nat)
    requires WellKept(ch) && Inv(ch, s) && Enabled(ch, true, s, Range(i, hi, true))
    ensures Sound(ch, Next(ch, s, Range(i, hi, true)).store) && Extends(s.store, Next(ch, s, Range(i, hi, true)).store)
    ensures Covered(ch, Next(ch, s, Range(i, hi, true)), hi)
  {
    var t := Next(ch, s, Range(i, hi, true));
    var es := LogsIn(ch, s.ticks[i].next, hi);
    forall e ensures e in es <==> s.ticks[i].next <= e.block <= hi && e in ch.log(e.block) {
      InLogs(ch, s.ticks[i].next, hi, e);
    }
    Inserted(ch, s.store, es);
    CoveredGrows(ch, s, t, s.ticks[i].next - 1);
    forall b: nat | s.ticks[i].next <= b <= hi ensures Complete(ch, t.store, b) {
    }
  }

  lemma StepKeeps(ch: Chain, s: State, e: Event)
    requires WellKept(ch) && Inv(ch, s) && Enabled(ch, true, s, e)
    ensures Inv(ch, Next(ch, s, e))
  {
    var t := Next(ch, s, e);
    if e.Range? {
      RangeCovers(ch, s, e.i, e.hi);
    } else if e.Hold? {
      Inserted(ch, s.store, e.done);
    }
    assert Extends(s.store, t.store);
    if !e.Create? {
      if s.row.Some? { CoveredGrows(ch, s, t, s.row.value); }
      forall i | i in t.ticks && i in s.ticks ensures Covered(ch, t, s.ticks[i].next - 1) {
        CoveredGrows(ch, s, t, s.ticks[i].next - 1);
      }
      if e.Hold? { CoveredGrows(ch, s, t, s.ticks[e.i].next - 1); }
    }
  }

  /** No event moves the checkpoint back, not even one of an instance that read an older one. */
  lemma CheckpointForward(ch: Chain, loaded: bool, s: State, e: Event)
    requires Enabled(ch, loaded, s, e)
    ensures s.row.Some? ==> Next(ch, s, e).row.Some? && s.row.value <= Next(ch, s, e).row.value
    ensures s.row.Some? ==> Next(ch, s, e).base == s.base && s.skipped <= Next(ch, s, e).skipped
  {
  }

  // ------------------------------------------------------------------ runs

  ghost predicate Run(ch: Chain, loaded: bool, es: seq<Event>, ss: seq<State>) {
    && |ss| == |es| + 1 && ss[0] == State(None, 0, {}, map[], map[])
    && forall i :: 0 <= i < |es| ==> Enabled(ch, loaded, ss[i], es[i]) && ss[i + 1] == Next(ch, ss[i], es[i])
  }

  lemma {:induction false} RunInv(ch: Chain, es: seq<Event>, ss: seq<State>, k: nat)
    requires WellKept(ch) && Run(ch, true, es, ss) && k < |ss|
    ensures Inv(ch, ss[k])
    decreases k
  {
    if k > 0 {
      RunInv(ch, es, ss, k - 1);
      StepKeeps(ch, ss[k - 1], es[k - 1]);
    }
  }

  /**
   Over every run of any number of instances, with RPC failures and crashes anywhere: between two blocks behind the
   checkpoint with no skipped block between them, the table holds exactly the points of one pass over those blocks.
   */
  lemma IndexedExactly(ch: Chain, es: seq<Event>, ss: seq<State>, k: nat, lo: nat, hi: nat)
    requires WellKept(ch) && Run(ch, true, es, ss) && k < |ss|
    requires ss[k].row.Some? && ss[k].base < lo && hi <= ss[k].row.value
    requires forall b :: lo <= b <= hi ==> b !in ss[k].skipped
    ensures Between(ss[k].store, lo, hi) == OnePass(ch, lo, hi)
  {
    RunInv(ch, es, ss, k);
    CompleteIsOnePass(ch, ss[k].store, lo, hi);
  }

  /**
   Behind the checkpoint, outside the skipped blocks, every readable event has its point: the block's time, and one half
   for a seed or the pool's price at the end of the block for a swap.
   */
  lemma EventStored(ch: Chain, es: seq<Event>, ss: seq<State>, k: nat, e: Entry)
    requires WellKept(ch) && Run(ch, true, es, ss) && k < |ss| && ss[k].row.Some?
    requires ss[k].base < e.block <= ss[k].row.value && e.block !in ss[k].skipped
    requires e in ch.log(e.block) && !e.malformed
    ensures (e.cid, e.block, e.index) in ss[k].store
    ensures ss[k].store[(e.cid, e.block, e.index)].ts == ch.time(e.block)
    ensures ss[k].store[(e.cid, e.block, e.index)].price ==
      match e.kind case Seeded => 500_000 case Swap => ch.poolPrice(e.cid, e.block)
  {
    RunInv(ch, es, ss, k);
    assert Complete(ch, ss[k].store, e.block);
  }

  lemma {:induction false} NeverBack(ch: Chain, loaded: bool, es: seq<Event>, ss: seq<State>, i: nat, k: nat)
    requires Run(ch, loaded, es, ss) && i <= k < |ss| && ss[i].row.Some?
    ensures ss[k].row.Some? && ss[i].row.value <= ss[k].row.value
    decreases k - i
  {
    if i < k {
      NeverBack(ch, loaded, es, ss, i, k - 1);
      CheckpointForward(ch, loaded, ss[k - 1], es[k - 1]);
    }
  }

  /** Every instance runs with one configuration. */
  ghost predicate OneConfig(es: seq<Event>, cfg: Settings) {
    forall i :: 0 <= i < |es| ==> (es[i].Create? || es[i].Start? ==> es[i].cfg == cfg)
  }

  /** A tick off anvil, with no configured start, on a checkpoint still at zero and a head past the lookback. */
  predicate StuckAtZero(s: State, cfg: Settings, head: nat) {
    cfg.startBlock == 0 && !cfg.anvil && s.row == Some(0) && head > cfg.lookback
  }

  /** Under one configuration, blocks are left out exactly when some tick starts from a checkpoint stuck at zero. */
  lemma {:induction false} SkippedIff(ch: Chain, loaded: bool, es: seq<Event>, ss: seq<State>, k: nat, cfg: Settings)
    requires Run(ch, loaded, es, ss) && OneConfig(es, cfg) && k < |ss|
    ensures ss[k].skipped != {} <==> exists i :: 0 <= i < k && es[i].Start? && StuckAtZero(ss[i], cfg, es[i].head)
    ensures ss[k].row.Some? && cfg.startBlock > 0 ==> ss[k].row.value + 1 >= cfg.startBlock
    decreases k
  {
    if k > 0 {
      SkippedIff(ch, loaded, es, ss, k - 1, cfg);
      var s, e := ss[k - 1], es[k - 1];
      CheckpointForward(ch, loaded, s, e);
      if e.Start? {
        SkipsIff(s.row.value, cfg, e.head);
        if StuckAtZero(s, cfg, e.head) {
          assert 1 in ss[k].skipped;
        } else {
          assert ss[k].skipped == s.skipped;
        }
      }
      if ss[k - 1].skipped != {} {
        var i :| 0 <= i < k - 1 && es[i].Start? && StuckAtZero(ss[i], cfg, es[i].head);
        assert ss[k].skipped != {};
      }
    }
  }

  /** A readable log entry of the window whose key the table lacks, outside the blocks left out on purpose. */
  ghost predicate Unstored(ch: Chain, s: State, lo: nat, hi: nat, e: Entry) {
    e in LogsIn(ch, lo, hi) && !e.malformed && e.block !in s.skipped && KeyOf(e) !in s.store
  }

  /** A window committed without the AMM's ABI keeps the checkpoint honest exactly when it had nothing left to store. */
  lemma NoAbiKeepsIff(ch: Chain, s: State, i: nat, hi: nat)
    requires WellKept(ch) && Inv(ch, s) && Enabled(ch, false, s, Range(i, hi, false))
    ensures Inv(ch, Next(ch, s, Range(i, hi, false))) <==> !exists e :: Unstored(ch, s, s.ticks[i].next, hi, e)
  {
    var t, lo := Next(ch, s, Range(i, hi, false)), s.ticks[i].next;
    forall e ensures e in LogsIn(ch, lo, hi) <==> lo <= e.block <= hi && e in ch.log(e.block) {
      InLogs(ch, lo, hi, e);
    }
    if !exists e :: Unstored(ch, s, lo, hi, e) {
      forall b: nat | lo <= b <= hi && b !in s.skipped ensures Complete(ch, s.store, b) {
        NothingUnstored(ch, s, lo, hi, b);
      }
      NoAbiKeeps(ch, s, i, hi);
    } else {
      var e :| Unstored(ch, s, lo, hi, e);
      assert !Complete(ch, t.store, e.block);
      assert t.ticks[i].next - 1 == hi && !Covered(ch, t, hi);
    }
  }

  lemma NothingUnstored(ch: Chain, s: State, lo: nat, hi: nat, b: nat)
    requires WellKept(ch) && Sound(ch, s.store) && lo <= b <= hi && b !in s.skipped
    requires !exists e :: Unstored(ch, s, lo, hi, e)
    ensures Complete(ch, s.store, b)
  {
    forall e | e in ch.log(b) && !e.malformed ensures KeyOf(e) in s.store && s.store[KeyOf(e)] == PointOf(ch, e) {
      InLogs(ch, lo, hi, e);
      assert !Unstored(ch, s, lo, hi, e);
      OwnPoint(ch, s.store, e);
    }
  }

  lemma NoAbiKeeps(ch: Chain, s: State, i: nat, hi: nat)
    requires Inv(ch, s) && Enabled(ch, false, s, Range(i, hi, false))
    requires forall b: nat :: s.ticks[i].next <= b <= hi ==> b in s.skipped || Complete(ch, s.store, b)
    ensures Inv(ch, Next(ch, s, Range(i, hi, false)))
  {
    var t := Next(ch, s, Range(i, hi, false));
    assert Covered(ch, t, hi);
    if s.row.Some? { CoveredGrows(ch, s, t, s.row.value); }
    forall j | j in s.ticks ensures Covered(ch, t, s.ticks[j].next - 1) {
      CoveredGrows(ch, s, t, s.ticks[j].next - 1);
    }
  }

  /** A window committed without the AMM contract left no readable entry of its blocks unstored. */
  ghost predicate NothingLeft(ch: Chain, s: State, e: Event) {
    e.Range? && !e.amm && e.i in s.ticks ==> !exists x :: Unstored(ch, s, s.ticks[e.i].next, e.hi, x)
  }

  lemma StepHonestIff(ch: Chain, s: State, e: Event)
    requires WellKept(ch) && Inv(ch, s) && Enabled(ch, false, s, e)
    ensures Inv(ch, Next(ch, s, e)) <==> NothingLeft(ch, s, e)
  {
    if e.Range? && !e.amm {
      NoAbiKeepsIff(ch, s, e.i, e.hi);
    } else {
      StepKeeps(ch, s, e);
    }
  }

  ghost predicate AllHonest(ch: Chain, ss: seq<State>, n: nat)
    requires n < |ss|
  {
    forall i :: 0 <= i <= n ==> Inv(ch, ss[i])
  }

  ghost predicate AllNothingLeft(ch: Chain, es: seq<Event>, ss: seq<State>, n: nat)
    requires n <= |es| && n <= |ss|
  {
    forall i :: 0 <= i < n ==> NothingLeft(ch, ss[i], es[i])
  }

  /** Over any run, ABI failures included, the checkpoint stays honest exactly when no such window left anything. */
  lemma {:induction false} HonestIffNothingLeft(ch: Chain, es: seq<Event>, ss: seq<State>, n: nat)
    requires WellKept(ch) && Run(ch, false, es, ss) && n <= |es|
    ensures AllHonest(ch, ss, n) <==> AllNothingLeft(ch, es, ss, n)
    decreases n
  {
    if n > 0 {
      HonestIffNothingLeft(ch, es, ss, n - 1);
      assert AllHonest(ch, ss, n) <==> AllHonest(ch, ss, n - 1) && Inv(ch, ss[n]);
      assert AllNothingLeft(ch, es, ss, n) <==>
        AllNothingLeft(ch, es, ss, n - 1) && NothingLeft(ch, ss[n - 1], es[n - 1]);
      if Inv(ch, ss[n - 1]) {
        StepHonestIff(ch, ss[n - 1], es[n - 1]);
      }
    }
  }

  /** The AMM's ABI fails to load for one window: its event is behind the checkpoint, with no point. */
  lemma MissingAbiLeavesGap(ch: Chain, e: Entry, cfg: Settings) returns (es: seq<Event>, ss: seq<State>)
    requires WellKept(ch) && e.block == 1 && !e.malformed && e in ch.log(1) && cfg == Settings(0, true, 0)
    ensures Run(ch, false, es, ss) && ss[|es|].row == Some(1) && ss[|es|].base < 1 && ss[|es|].skipped == {}
    ensures KeyOf(e) !in ss[|es|].store
  {
    es := [Create(cfg, 1, None), Start(0, cfg, 1), Range(0, 1, false)];
    var s0 := State(None, 0, {}, map[], map[]);
    var s1 := Next(ch, s0, es[0]);
    var s2 := Next(ch, s1, es[1]);
    ss := [s0, s1, s2, Next(ch, s2, es[2])];
  }

  /**
   Off anvil, the first tick of a young chain starts at block 1 and fails; the head then passes the lookback, and the
   next tick starts behind it: block 1 is never indexed, although the checkpoint started below it.
   */
  lemma StuckAtZeroLeavesGap(ch: Chain, e: Entry, cfg: Settings) returns (es: seq<Event>, ss: seq<State>)
    requires WellKept(ch) && e.block == 1 && !e.malformed && e in ch.log(1)
    requires ch.log(2) == [] && cfg == Settings(0, false, 1)
    ensures Run(ch, true, es, ss) && OneConfig(es, cfg) && ss[|es|].row == Some(2) && ss[|es|].base < 1
    ensures KeyOf(e) !in ss[|es|].store
  {
    var none: seq<Entry> := [];
    es := [Create(cfg, 1, None), Start(0, cfg, 1), Hold(0, none), Start(0, cfg, 2), Range(0, 2, true)];
    var s0 := State(None, 0, {}, map[], map[]);
    var s1 := Next(ch, s0, es[0]);
    var s2 := Next(ch, s1, es[1]);
    var s3 := Next(ch, s2, es[2]);
    var s4 := Next(ch, s3, es[3]);
    assert LogsIn(ch, 2, 1) == [] && LogsIn(ch, 2, 2) == [];
    ss := [s0, s1, s2, s3, s4, Next(ch, s4, es[4])];
  }

  // ------------------------------------------------------------------ one instance

  /** What the node fails to answer while one window is indexed. */
  datatype Rpc = Rpc(factory: bool, amm: bool, down: set<Key>)

  predicate Path(ch: Chain, loaded: bool, s: State, es: seq<Event>, t: State)
    decreases |es|
  {
    if es == [] then s == t
    else Enabled(ch, loaded, s, es[0]) && Path(ch, loaded, Next(ch, s, es[0]), es[1..], t)
  }

  lemma {:induction false} PathAppend(ch: Chain, loaded: bool, s: State, es: seq<Event>, t: State, e: Event)
    requires Path(ch, loaded, s, es, t) && Enabled(ch, loaded, t, e)
    ensures Path(ch, loaded, s, es + [e], Next(ch, t, e))
    decreases |es|
  {
    if es == [] {
      assert [e][1..] == [];
    } else {
      PathAppend(ch, loaded, Next(ch, s, es[0]), es[1..], t, e);
      assert (es + [e])[1..] == es[1..] + [e];
    }
  }

  class Instance {
    // the shared tables
    var row: Option<nat>
    var store: Store
    // this process
    var blockRange: nat
    const cfg: Settings
    const maxRange: nat
    const minRange: nat
    const maxChunks: nat
    const ch: Chain
    ghost const me: nat
    ghost var base: nat
    ghost var skipped: set<nat>
    ghost var ticks: map<nat, Tick>

    constructor (ch: Chain, cfg: Settings, minRange: nat, maxRange: nat, maxChunks: nat, ghost me: nat)
      requires 0 < minRange <= maxRange
      ensures Snap() == State(None, 0, {}, map[], map[]) && this.ch == ch && this.cfg == cfg && blockRange == 0
      ensures this.minRange == minRange && this.maxRange == maxRange && this.maxChunks == maxChunks && this.me == me
    {
      this.ch, this.cfg, this.me := ch, cfg, me;
      this.minRange, this.maxRange, this.maxChunks := minRange, maxRange, maxChunks;
      row, store, blockRange, base, skipped, ticks := None, map[], 0, 0, {}, map[];
    }

    ghost function Snap(): State
      reads this
    {
      State(row, base, skipped, store, ticks)
    }

    /** Other instances, and restarts of them. */
    method Others(ghost loaded: bool, ghost s0: State, ghost es0: seq<Event>) returns (ghost es: seq<Event>)
      requires Path(ch, loaded, s0, es0, Snap())
      modifies this`row, this`store, this`base, this`skipped, this`ticks
      ensures Path(ch, loaded, s0, es, Snap())
      ensures (me in old(ticks) ==> me in ticks && ticks[me] == old(ticks)[me])
      ensures old(row).Some? ==> row.Some? && old(row).value <= row.value
    {
      es := es0;
    }

    /** _index_amm_history: stops at the first entry the node cannot date or price. */
    method IndexAmm(lo: nat, hi: nat, rpc: Rpc) returns (ok: bool, ghost done: seq<Entry>)
      modifies this`store
      ensures done <= LogsIn(ch, lo, hi) && store == Insert(ch, old(store), done)
      ensures ok ==> done == LogsIn(ch, lo, hi)
      ensures ok <==> rpc.amm && !exists e :: Blocked(ch, lo, hi, rpc, old(store), e)
      ensures !ok && rpc.amm ==>
        |done| < |LogsIn(ch, lo, hi)| && Blocked(ch, lo, hi, rpc, old(store), LogsIn(ch, lo, hi)[|done|])
      ensures !ok && !rpc.amm ==> done == []
    {
      done := [];
      if !rpc.amm {
        return false, done;
      }
      var es := LogsIn(ch, lo, hi);
      for i := 0 to |es|
        invariant done == es[..i] && store == Insert(ch, old(store), done)
        invariant forall k :: k in rpc.down && k !in old(store) ==> k !in store
        invariant forall k :: k in old(store) ==> k in store
        invariant forall j :: 0 <= j < i ==> !Blocked(ch, lo, hi, rpc, old(store), es[j])
      {
        assert es[..i + 1][..i] == es[..i];
        done := es[..i + 1];
        if !es[i].malformed && KeyOf(es[i]) !in store {
          if KeyOf(es[i]) in rpc.down {
            done := es[..i];
            assert Blocked(ch, lo, hi, rpc, old(store), es[i]);
            return false, done;
          }
          store := store[KeyOf(es[i]) := PointOf(ch, es[i])];
        }
      }
      assert es[..|es|] == es;
      ok := true;
    }

    /** Factory events (not modelled here), then the AMM's when its contract is known. */
    method IndexRange(lo: nat, hi: nat, rpc: Rpc, amm: bool) returns (ok: bool, ghost done: seq<Entry>)
      modifies this`store
      ensures done <= LogsIn(ch, lo, hi) && store == Insert(ch, old(store), done)
      ensures ok ==> done == if amm then LogsIn(ch, lo, hi) else []
      ensures ok <==> !Fails(ch, lo, hi, rpc, amm, old(store))
      ensures !ok && rpc.factory && rpc.amm ==>
        |done| < |LogsIn(ch, lo, hi)| && Blocked(ch, lo, hi, rpc, old(store), LogsIn(ch, lo, hi)[|done|])
    {
      ok, done := rpc.factory, [];
      if ok && amm {
        ok, done := IndexAmm(lo, hi, rpc);
      }
    }

    /** Commit what is pending and move the row forward, never backward. */
    method AdvanceCheckpoint(block: nat) returns (held: nat)
      modifies this`row
      ensures row == Forward(old(row), block) && held == if row.Some? then row.value else 0
    {
      if row.Some? && row.value < block {
        row := Some(block);
      }
      held := if row.Some? then row.value else 0;
    }

    /** _load_checkpoint and the start of the tick. */
    method Begin(head: nat, legacy: Option<nat>, ghost loaded: bool, ghost s0: State, ghost es0: seq<Event>)
      returns (start: nat, ghost es: seq<Event>)
      requires Path(ch, loaded, s0, es0, Snap())
      modifies this`row, this`base, this`skipped, this`ticks
      ensures Path(ch, loaded, s0, es, Snap()) && row.Some? && me in ticks && ticks[me] == Tick(start, head)
      ensures row == if old(row).Some? then old(row) else Some(FreshLastBlock(cfg, head, legacy))
      ensures start == ResolveStartBlock(row.value, cfg, head)
    {
      es := es0;
      if row == None {
        PathAppend(ch, loaded, s0, es, Snap(), Create(cfg, head, legacy));
        var last := FreshLastBlock(cfg, head, legacy);
        row, base := Some(last), last;
        es := es + [Create(cfg, head, legacy)];
      }
      PathAppend(ch, loaded, s0, es, Snap(), Start(me, cfg, head));
      start := ResolveStartBlock(row.value, cfg, head);
      ticks, skipped := ticks[me := Tick(start, head)], skipped + Gap(row.value, start);
      es := es + [Start(me, cfg, head)];
    }

    /** One window: its points and the checkpoint in one commit, or what was stored so far and the checkpoint held. */
    method Window(lo: nat, hi: nat, rpc: Rpc, amm: bool, ghost loaded: bool, ghost s0: State, ghost es0: seq<Event>)
      returns (ok: bool, ghost es: seq<Event>)
      requires WellKept(ch) && Path(ch, loaded, s0, es0, Snap()) && (loaded ==> amm) && row.Some?
      requires me in ticks && ticks[me].next == lo <= hi <= ticks[me].end && lo > 0
      modifies this`row, this`store, this`ticks
      ensures Path(ch, loaded, s0, es, Snap()) && row == Forward(old(row), if ok then hi else lo - 1)
      ensures ok ==> ticks == old(ticks)[me := Tick(hi + 1, old(ticks)[me].end)]
      ensures ok <==> !Fails(ch, lo, hi, rpc, amm, old(store))
      ensures ok ==> store == Insert(ch, old(store), if amm then LogsIn(ch, lo, hi) else [])
    {
      ghost var s := Snap();
      ghost var done;
      ok, done := IndexRange(lo, hi, rpc, amm);
      if ok {
        PathAppend(ch, loaded, s0, es0, s, Range(me, hi, amm));
        var held := AdvanceCheckpoint(hi);
        ticks := ticks[me := Tick(hi + 1, ticks[me].end)];
        es := es0 + [Range(me, hi, amm)];
      } else {
        forall e | e in done ensures lo <= e.block && e in ch.log(e.block) {
          InLogs(ch, lo, hi, e);
        }
        PathAppend(ch, loaded, s0, es0, s, Hold(me, done));
        var held := AdvanceCheckpoint(lo - 1);
        ticks := ticks - {me};
        es := es0 + [Hold(me, done)];
      }
    }

    /** The window size of the next tick. */
    function Adapted(ok: bool, window: nat, width: nat): nat {
      if ok then (if window * 2 < maxRange then window * 2 else maxRange)
      else (if width / 2 > minRange then width / 2 else minRange)
    }

    /** The windows of one tick, other instances running before each. */
    method IndexWindows(
      ranges: seq<(int, int)>, ghost start: nat, window: nat, rpcs: seq<Rpc>, amm: bool, ghost s0: State,
      ghost es0: seq<Event>)
      returns (ok: bool, ghost at: nat, ghost met: Store, ghost es: seq<Event>)
      requires WellKept(ch) && Path(ch, amm, s0, es0, Snap()) && row.Some? && me in ticks && ticks[me].next == start > 0
      requires Windows(ranges, start, ticks[me].end, window, maxChunks) && maxChunks <= |rpcs|
      modifies this`row, this`store, this`blockRange, this`base, this`skipped, this`ticks
      ensures Path(ch, amm, s0, es, Snap()) && row.Some? && old(row).value <= row.value
      ensures ok && ranges != [] ==> row.value >= ranges[|ranges| - 1].1
      ensures if ok then blockRange == (if window * 2 < maxRange then window * 2 else maxRange)
              else minRange <= blockRange && (blockRange == minRange || blockRange * 2 <= window)
      ensures Stops(ch, ranges, rpcs, amm, ok, at, met)
      ensures at > 0 ==> row.value >= ranges[at - 1].1
      ensures !ok ==> blockRange == Halved(ranges[at].1 - ranges[at].0 + 1, minRange)
    {
      es, at, met := es0, 0, store;
      ghost var end := ticks[me].end;
      for i := 0 to |ranges|
        invariant Path(ch, amm, s0, es, Snap()) && row.Some? && old(row).value <= row.value
        invariant me in ticks && ticks[me].end == end && ticks[me].next >= start
        invariant ticks[me].next == if i == 0 then start else ranges[i - 1].1 + 1
        invariant i > 0 ==> row.value >= ranges[i - 1].1
        invariant at == i
      {
        es := Others(amm, s0, es);
        met := store;
        assert Follows(ranges, i, start, ticks[me].end, window);
        var lo, hi := ranges[i].0, ranges[i].1;
        ok, es := Window(lo, hi, rpcs[i], amm, amm, s0, es);
        if !ok {
          blockRange := Adapted(false, window, hi - lo + 1);
          return;
        }
        at := at + 1;
      }
      PathAppend(ch, amm, s0, es, Snap(), Stop(me));
      ticks := ticks - {me};
      es := es + [Stop(me)];
      blockRange := Adapted(true, window, 0);
      ok := true;
    }

    /**
     index_once: a path of machine events whatever the other instances do between its commits. After a tick without a
     failure the checkpoint is at the head, or a full window for each allowed chunk past where the tick found it, unless
     the tick was to start past the head.
     */
    method IndexOnce(leader: bool, head: Option<nat>, legacy: Option<nat>, rpcs: seq<Rpc>, amm: bool)
      returns (ok: bool, ghost plan: seq<(int, int)>, ghost at: nat, ghost met: Store, ghost es: seq<Event>)
      requires WellKept(ch) && maxRange > 0 && maxChunks <= |rpcs|
      modifies this
      ensures Path(ch, amm, old(Snap()), es, Snap())
      ensures old(row).Some? ==> row.Some? && old(row).value <= row.value
      ensures (!leader || head == None) ==> Snap() == old(Snap()) && ok == !leader
      ensures ok && leader ==> row.Some?
      ensures ok && leader ==>
        var last := if old(row).Some? then old(row).value else FreshLastBlock(cfg, head.value, legacy);
        || row.value >= head.value || ResolveStartBlock(last, cfg, head.value) > head.value
        || row.value >= last + maxChunks * (if old(blockRange) > 0 then old(blockRange) else maxRange)
      ensures leader && head.Some? ==>
        var window := if old(blockRange) > 0 then old(blockRange) else maxRange;
        if ok then blockRange == (if window * 2 < maxRange then window * 2 else maxRange)
        else minRange <= blockRange && (blockRange == minRange || blockRange * 2 <= window)
      ensures leader && head.Some? ==>
        var last := if old(row).Some? then old(row).value else FreshLastBlock(cfg, head.value, legacy);
        var window := if old(blockRange) > 0 then old(blockRange) else maxRange;
        && Planned(plan, ResolveStartBlock(last, cfg, head.value), head.value, window, maxChunks)
        && Stops(ch, plan, rpcs, amm, ok, at, met)
        && row.Some? && (at > 0 ==> row.value >= plan[at - 1].1)
        && (!ok ==> blockRange == Halved(plan[at].1 - plan[at].0 + 1, minRange))
      ensures leader && head.Some? && (forall i :: 0 <= i < |rpcs| ==> Healthy(rpcs[i])) ==> ok
    {
      ok, plan, at, met, es := !leader, [], 0, store, [];
      if !leader || head == None {
        return;
      }
      ghost var s0 := Snap();
      var start;
      start, es := Begin(head.value, legacy, amm, s0, es);
      ghost var last := row.value;
      var window := if blockRange > 0 then blockRange else maxRange;
      var ranges := PlanRanges(start, head.value, window, maxChunks);
      if start <= head.value && maxChunks > 0 {
        FullWindows(ranges, start, head.value, window, maxChunks, |ranges| - 1);
      }
      plan := ranges;
      ok, at, met, es := IndexWindows(ranges, start, window, rpcs, amm, s0, es);
    }
  }

  /** An entry of the window that the node can neither date nor price, and whose point is not stored yet. */
  ghost predicate Blocked(ch: Chain, lo: nat, hi: nat, rpc: Rpc, store: Store, e: Entry) {
    e in LogsIn(ch, lo, hi) && !e.malformed && KeyOf(e) in rpc.down && KeyOf(e) !in store
  }

  /** The node fails this window: no factory logs, no AMM logs, or an entry it cannot answer for. */
  ghost predicate Fails(ch: Chain, lo: nat, hi: nat, rpc: Rpc, amm: bool, store: Store) {
    !rpc.factory || (amm && (!rpc.amm || exists e :: Blocked(ch, lo, hi, rpc, store, e)))
  }

  predicate Healthy(rpc: Rpc) {
    rpc.factory && rpc.amm && rpc.down == {}
  }

  /** The tick ends after its last window, or at the first one that the node fails, on the points stored by then. */
  ghost predicate Stops(
    ch: Chain, plan: seq<(int, int)>, rpcs: seq<Rpc>, amm: bool, ok: bool, at: nat, met: Store)
  {
    && at <= |plan| <= |rpcs| && (ok <==> at == |plan|)
    && (!ok ==> 0 <= plan[at].0 && 0 <= plan[at].1 && Fails(ch, plan[at].0, plan[at].1, rpcs[at], amm, met))
  }

  ghost predicate Planned(plan: seq<(int, int)>, start: int, end: int, maxRange: int, maxChunks: int) {
    if end < start || maxRange < 1 || maxChunks < 1 then plan == [] else Windows(plan, start, end, maxRange, maxChunks)
  }

  /** Half the failed window, but no less than the smallest. */
  function Halved(width: int, least: nat): int {
    if width / 2 > least then width / 2 else least
  }
}
