/**
 The score scout's choice of games per tick: recent kickoffs first, then an older backlog rotated every tick, up to
 a cap. A game that stays in the backlog and still needs a score is reached within one turn of the rotation.
 */
module Scout {
  import opened Sorting
  import opened Options

  const BACKLOG_ROTATE_SECONDS := 900

  /** `close` is the kickoff time, zero when the card has none; an empty id is a card without a market. */
  datatype Primary = Primary(id: string, close: int, resolved: bool)

  datatype Status = InProgress | Done | Other

  datatype Score = Score(status: Status, updatedAt: Option<int>)

  datatype Detail = Unreachable | Detail(resolved: bool, score: Option<Score>)

  datatype Settings = Settings(cap: int, staleWindow: nat, maxAge: nat, recent: nat)

  predicate SkipFresh(score: Option<Score>, now: int, window: nat) {
    && score.Some? && score.value.status != InProgress
    && score.value.updatedAt.Some? && now - score.value.updatedAt.value < window
  }

  /** The detail lookup worked, and the game still needs a score. */
  predicate Wanted(d: Detail, now: int, window: nat) {
    && d.Detail? && !d.resolved
    && !(d.score.Some? && d.score.value.status == Done) && !SkipFresh(d.score, now, window)
  }

  predicate Eligible(p: Primary, now: int, maxAge: nat) {
    p.id != "" && !p.resolved && p.close <= now && !(maxAge > 0 && p.close != 0 && now - p.close > maxAge)
  }

  predicate Recent(p: Primary, now: int, recent: nat) {
    p.close == 0 || now - p.close <= recent
  }

  predicate Earlier(a: Primary, b: Primary) {
    a.close < b.close || (a.close == b.close && Before(a.id, b.id))
  }

  // ------------------------------------------------------------------ the lists of one tick

  function Keep(ps: seq<Primary>, wanted: Primary -> bool): seq<Primary> {
    if ps == [] then []
    else Keep(ps[..|ps| - 1], wanted) + if wanted(ps[|ps| - 1]) then [ps[|ps| - 1]] else []
  }

  lemma {:induction false} KeepMembers(ps: seq<Primary>, wanted: Primary -> bool, p: Primary)
    ensures p in Keep(ps, wanted) <==> p in ps && wanted(p)
  {
    if ps != [] {
      KeepMembers(ps[..|ps| - 1], wanted, p);
      assert ps == ps[..|ps| - 1] + [ps[|ps| - 1]];
    }
  }

  function Pool(ps: seq<Primary>, now: int, s: Settings): seq<Primary> {
    Keep(Sort(Earlier, ps), (p: Primary) => Eligible(p, now, s.maxAge))
  }

  function FreshTier(ps: seq<Primary>, now: int, s: Settings): seq<Primary> {
    Keep(Pool(ps, now, s), (p: Primary) => Recent(p, now, s.recent))
  }

  function Backlog(ps: seq<Primary>, now: int, s: Settings): seq<Primary> {
    Keep(Pool(ps, now, s), (p: Primary) => !Recent(p, now, s.recent))
  }

  function Shift(now: int, n: nat): (k: nat)
    requires n > 0
    ensures k < n
  {
    (now / BACKLOG_ROTATE_SECONDS) % n
  }

  function Rotated(ps: seq<Primary>, now: int): seq<Primary> {
    if ps == [] then [] else ps[Shift(now, |ps|)..] + ps[..Shift(now, |ps|)]
  }

  /** The first `cap` games that are wanted. */
  function Take(ps: seq<Primary>, wanted: Primary -> bool, cap: int): (r: seq<Primary>)
    ensures |r| <= if cap > 0 then cap else 0
  {
    if ps == [] || cap <= 0 then []
    else if wanted(ps[0]) then [ps[0]] + Take(ps[1..], wanted, cap - 1)
    else Take(ps[1..], wanted, cap)
  }

  /** What one tick selects, over the details the API answers this tick. */
  function Selected(ps: seq<Primary>, detail: string -> Detail, now: int, s: Settings): seq<Primary> {
    Take(FreshTier(ps, now, s) + Rotated(Backlog(ps, now, s), now), Needs(detail, now, s.staleWindow), s.cap)
  }

  function Needs(detail: string -> Detail, now: int, window: nat): Primary -> bool {
    (p: Primary) => Wanted(detail(p.id), now, window)
  }

  // ------------------------------------------------------------------ what it promises

  /** A card of an open market whose kickoff is unknown, or past and within the hard cutoff if there is one. */
  predicate Listed(p: Primary, now: int, s: Settings) {
    p.id != "" && !p.resolved && p.close <= now && (p.close != 0 && s.maxAge > 0 ==> p.close >= now - s.maxAge)
  }

  /** Every listed card is in exactly one tier, recent and unknown kickoffs in the first; nothing else is in either. */
  lemma TiersPartition(ps: seq<Primary>, now: int, s: Settings, p: Primary)
    ensures p in FreshTier(ps, now, s) <==> p in ps && Listed(p, now, s) && (p.close == 0 || p.close >= now - s.recent)
    ensures p in Backlog(ps, now, s) <==> p in ps && Listed(p, now, s) && p.close != 0 && p.close < now - s.recent
  {
    SortMembers(Earlier, ps, p);
    KeepMembers(Sort(Earlier, ps), (q: Primary) => Eligible(q, now, s.maxAge), p);
    KeepMembers(Pool(ps, now, s), (q: Primary) => Recent(q, now, s.recent), p);
    KeepMembers(Pool(ps, now, s), (q: Primary) => !Recent(q, now, s.recent), p);
  }

  lemma EarlierWeakOrder()
    ensures WeakOrder(Earlier)
  {
    forall a, b
      ensures (Earlier(a, b) ==> !Earlier(b, a))
      ensures (a.close == b.close && a.id != b.id ==> Earlier(a, b) || Earlier(b, a))
    {
      BeforeTotal(a.id, b.id);
    }
    forall x, y, z | !Earlier(y, x) && !Earlier(z, y) ensures !Earlier(z, x) {
      if Earlier(z, x) {
        BeforeTotal(x.id, y.id);
        BeforeTotal(y.id, z.id);
        if Before(x.id, y.id) && Before(y.id, z.id) { BeforeTrans(x.id, y.id, z.id); }
        BeforeTotal(x.id, z.id);
      }
    }
  }

  lemma {:induction false} KeepOrdered(ps: seq<Primary>, wanted: Primary -> bool)
    requires Ordered(Earlier, ps)
    ensures Ordered(Earlier, Keep(ps, wanted))
  {
    if ps != [] {
      var front, last := ps[..|ps| - 1], ps[|ps| - 1];
      KeepOrdered(front, wanted);
      var r := Keep(front, wanted);
      forall i | 0 <= i < |r| ensures !Earlier(last, r[i]) {
        KeepMembers(front, wanted, r[i]);
        var k :| 0 <= k < |front| && front[k] == r[i];
        assert ps[k] == r[i];
      }
    }
  }

  /** By kickoff, then by id in alphabetical order. */
  ghost predicate OlderFirst(a: Primary, b: Primary) {
    a.close < b.close || (a.close == b.close && (a.id == b.id || exists k :: DiffersAt(a.id, b.id, k)))
  }

  lemma OrderedOldest(tier: seq<Primary>, i: nat, j: nat)
    requires Ordered(Earlier, tier) && i < j < |tier|
    ensures OlderFirst(tier[i], tier[j])
  {
    BeforeIff(tier[i].id, tier[j].id);
    BeforeTotal(tier[i].id, tier[j].id);
  }

  /** Both tiers list the oldest games first, ties by id. */
  lemma OldestFirst(ps: seq<Primary>, now: int, s: Settings)
    ensures Ordered(Earlier, FreshTier(ps, now, s)) && Ordered(Earlier, Backlog(ps, now, s))
    ensures var tier := FreshTier(ps, now, s); forall i, j :: 0 <= i < j < |tier| ==> OlderFirst(tier[i], tier[j])
    ensures var tier := Backlog(ps, now, s); forall i, j :: 0 <= i < j < |tier| ==> OlderFirst(tier[i], tier[j])
  {
    TiersOrdered(ps, now, s);
    var recent, backlog := FreshTier(ps, now, s), Backlog(ps, now, s);
    forall i, j | 0 <= i < j < |recent| ensures OlderFirst(recent[i], recent[j]) {
      OrderedOldest(recent, i, j);
    }
    forall i, j | 0 <= i < j < |backlog| ensures OlderFirst(backlog[i], backlog[j]) {
      OrderedOldest(backlog, i, j);
    }
  }

  lemma TiersOrdered(ps: seq<Primary>, now: int, s: Settings)
    ensures Ordered(Earlier, FreshTier(ps, now, s)) && Ordered(Earlier, Backlog(ps, now, s))
  {
    EarlierWeakOrder();
    SortOrdered(Earlier, ps);
    KeepOrdered(Sort(Earlier, ps), (p: Primary) => Eligible(p, now, s.maxAge));
    KeepOrdered(Pool(ps, now, s), (p: Primary) => Recent(p, now, s.recent));
    KeepOrdered(Pool(ps, now, s), (p: Primary) => !Recent(p, now, s.recent));
  }

  /** The first list is served before the second gets any of the cap. */
  lemma {:induction false} TakeConcat(a: seq<Primary>, b: seq<Primary>, wanted: Primary -> bool, cap: int)
    ensures Take(a + b, wanted, cap) == Take(a, wanted, cap) + Take(b, wanted, cap - |Take(a, wanted, cap)|)
    decreases |a|
  {
    if a == [] {
      assert a + b == b;
    } else if cap > 0 {
      assert (a + b)[1..] == a[1..] + b;
      TakeConcat(a[1..], b, wanted, if wanted(a[0]) then cap - 1 else cap);
    }
  }

  /** A list left with cap to spare had every wanted game taken. */
  lemma {:induction false} TakeAll(ps: seq<Primary>, wanted: Primary -> bool, cap: int, p: Primary)
    ensures p in Take(ps, wanted, cap) ==> p in ps && wanted(p)
    ensures |Take(ps, wanted, cap)| < cap && p in ps && wanted(p) ==> p in Take(ps, wanted, cap)
    decreases |ps|
  {
    if ps != [] && cap > 0 {
      TakeAll(ps[1..], wanted, if wanted(ps[0]) then cap - 1 else cap, p);
      assert ps == [ps[0]] + ps[1..];
    }
  }

  lemma RotatedMembers(ps: seq<Primary>, now: int, p: Primary)
    ensures p in Rotated(ps, now) <==> p in ps
  {
    if ps != [] {
      var k := Shift(now, |ps|);
      assert ps == ps[..k] + ps[k..];
    }
  }

  /** Two lists under one cap: only members are served, and the second only once the first has all it wants. */
  lemma TwoLists(first: seq<Primary>, second: seq<Primary>, wanted: Primary -> bool, cap: int, p: Primary, q: Primary)
    requires p in Take(first + second, wanted, cap)
    ensures (p in first || p in second) && wanted(p)
    ensures p !in first && q in first && wanted(q) ==> q in Take(first + second, wanted, cap)
  {
    TakeConcat(first, second, wanted, cap);
    var left := cap - |Take(first, wanted, cap)|;
    TakeAll(first, wanted, cap, p);
    TakeAll(second, wanted, left, p);
    TakeAll(first, wanted, cap, q);
  }

  /** A reachable, unresolved game without a score, or one whose score is in progress, undated or stale. */
  predicate NeedsScore(d: Detail, now: int, window: nat) {
    && d.Detail? && !d.resolved
    && !(d.score.Some? && d.score.value.status == Done)
    && (d.score.Some? && d.score.value.status == Other && d.score.value.updatedAt.Some? ==>
          d.score.value.updatedAt.value <= now - window)
  }

  /**
   One tick: the cap holds, every selected game is a listed one that needs a score, and a backlog game is only selected
   when every such recent game is.
   */
  lemma RecentFirst(ps: seq<Primary>, detail: string -> Detail, now: int, s: Settings, p: Primary, q: Primary)
    requires p in Selected(ps, detail, now, s)
    ensures |Selected(ps, detail, now, s)| <= s.cap
    ensures p in ps && Listed(p, now, s) && NeedsScore(detail(p.id), now, s.staleWindow)
    ensures (p.close != 0 && p.close < now - s.recent) && q in ps && Listed(q, now, s) &&
            (q.close == 0 || q.close >= now - s.recent) && NeedsScore(detail(q.id), now, s.staleWindow) ==>
      q in Selected(ps, detail, now, s)
  {
    TiersPartition(ps, now, s, q);
    TwoLists(FreshTier(ps, now, s), Rotated(Backlog(ps, now, s), now), Needs(detail, now, s.staleWindow), s.cap, p, q);
    RotatedMembers(Backlog(ps, now, s), now, p);
    TiersPartition(ps, now, s, p);
  }

  /** A tick with cap to spare selects every listed game that needs a score. */
  lemma SparedCapTakesAll(ps: seq<Primary>, detail: string -> Detail, now: int, s: Settings, q: Primary)
    requires |Selected(ps, detail, now, s)| < s.cap
    requires q in ps && Listed(q, now, s) && NeedsScore(detail(q.id), now, s.staleWindow)
    ensures q in Selected(ps, detail, now, s)
  {
    TiersPartition(ps, now, s, q);
    RotatedMembers(Backlog(ps, now, s), now, q);
    var queue := FreshTier(ps, now, s) + Rotated(Backlog(ps, now, s), now);
    TakeAll(queue, Needs(detail, now, s.staleWindow), s.cap, q);
  }

  // ------------------------------------------------------------------ fairness

  /** One tick's inputs. */
  datatype Tick = Tick(primaries: seq<Primary>, detail: string -> Detail, now: int, settings: Settings)

  function Chosen(t: Tick): seq<Primary> {
    Selected(t.primaries, t.detail, t.now, t.settings)
  }

  /** The recent tier leaves at least one slot. */
  predicate SlotFree(t: Tick) {
    var wanted := Needs(t.detail, t.now, t.settings.staleWindow);
    |Take(FreshTier(t.primaries, t.now, t.settings), wanted, t.settings.cap)| < t.settings.cap
  }

  /** The game at the head of this tick's rotation is selected if it is wanted and a slot is free. */
  lemma HeadChosen(t: Tick, backlog: seq<Primary>, i: nat)
    requires backlog == Backlog(t.primaries, t.now, t.settings) && i < |backlog| && Shift(t.now, |backlog|) == i
    requires SlotFree(t) && Wanted(t.detail(backlog[i].id), t.now, t.settings.staleWindow)
    ensures backlog[i] in Chosen(t)
  {
    RotatedHead(backlog, t.now);
    HeadServed(FreshTier(t.primaries, t.now, t.settings), Rotated(backlog, t.now),
               Needs(t.detail, t.now, t.settings.staleWindow), t.settings.cap);
  }

  lemma RotatedHead(ps: seq<Primary>, now: int)
    requires ps != []
    ensures Rotated(ps, now) != [] && Rotated(ps, now)[0] == ps[Shift(now, |ps|)]
  {
  }

  lemma HeadServed(first: seq<Primary>, second: seq<Primary>, wanted: Primary -> bool, cap: int)
    requires |Take(first, wanted, cap)| < cap && second != [] && wanted(second[0])
    ensures second[0] in Take(first + second, wanted, cap)
  {
    TakeConcat(first, second, wanted, cap);
    TakeHead(second, wanted, cap - |Take(first, wanted, cap)|);
  }

  lemma TakeHead(ps: seq<Primary>, wanted: Primary -> bool, cap: int)
    requires ps != [] && cap > 0 && wanted(ps[0])
    ensures ps[0] in Take(ps, wanted, cap)
  {
    assert Take(ps, wanted, cap)[0] == ps[0];
  }

  /** Some tick within one turn starts the rotation at index `i`. */
  lemma TurnReaches(k: int, n: nat, i: nat) returns (j: nat)
    requires i < n
    ensures j < n && (k + j) % n == i
  {
    j := (i - k) % n;
    var q := (i - k) / n;
    assert k + j == -q * n + i;
    RemainderUnique(k + j, n, -q, i);
  }

  lemma RemainderUnique(x: int, n: nat, q: int, r: nat)
    requires r < n && x == q * n + r
    ensures x % n == r
  {
    var d := x / n - q;
    assert d * n == r - x % n;
    if d > 0 {
      MulAtLeast(d, n);
    } else if d < 0 {
      MulAtLeast(-d, n);
    }
  }

  lemma MulAtLeast(d: nat, n: nat)
    requires d > 0
    ensures d * n >= n
  {
  }

  /**
   Over one turn of the rotation, one tick per step, with the backlog fixed and a slot free after the recent tier,
   every backlog game that stays wanted is selected at some tick.
   */
  lemma EveryGameReached(ticks: seq<Tick>, backlog: seq<Primary>, first: int, g: Primary) returns (j: nat)
    requires |ticks| == |backlog| && g in backlog
    requires forall k :: 0 <= k < |ticks| ==>
      && ticks[k].now / BACKLOG_ROTATE_SECONDS == first + k
      && Backlog(ticks[k].primaries, ticks[k].now, ticks[k].settings) == backlog
      && SlotFree(ticks[k]) && Wanted(ticks[k].detail(g.id), ticks[k].now, ticks[k].settings.staleWindow)
    ensures j < |ticks| && g in Chosen(ticks[j])
  {
    var i :| 0 <= i < |backlog| && backlog[i] == g;
    j := TurnReaches(first, |backlog|, i);
    HeadChosen(ticks[j], backlog, i);
  }

  // ------------------------------------------------------------------ the loop

  /** select_targets. */
  method SelectTargets(ps: seq<Primary>, detail: string -> Detail, now: int, s: Settings)
    returns (selected: seq<Primary>)
    ensures selected == Selected(ps, detail, now, s)
  {
    var sorted := Sort(Earlier, ps);
    var eligible: seq<Primary> := [];
    for i := 0 to |sorted|
      invariant eligible == Keep(sorted[..i], (p: Primary) => Eligible(p, now, s.maxAge))
    {
      var p := sorted[i];
      assert sorted[..i + 1][..i] == sorted[..i];
      if p.id == "" || p.resolved {
        continue;
      }
      if p.close > now {
        continue;
      }
      if s.maxAge > 0 && p.close != 0 && now - p.close > s.maxAge {
        continue;
      }
      eligible := eligible + [p];
    }
    assert sorted[..|sorted|] == sorted;
    var freshTier := Keep(eligible, (p: Primary) => Recent(p, now, s.recent));
    var backlog := Keep(eligible, (p: Primary) => !Recent(p, now, s.recent));
    if backlog != [] {
      var shift := Shift(now, |backlog|);
      backlog := backlog[shift..] + backlog[..shift];
    }
    selected := TakeWanted(freshTier + backlog, detail, now, s);
  }

  method TakeWanted(queue: seq<Primary>, detail: string -> Detail, now: int, s: Settings)
    returns (selected: seq<Primary>)
    ensures selected == Take(queue, Needs(detail, now, s.staleWindow), s.cap)
  {
    ghost var wanted := Needs(detail, now, s.staleWindow);
    selected := [];
    for i := 0 to |queue|
      invariant Take(queue, wanted, s.cap) == selected + Take(queue[i..], wanted, s.cap - |selected|)
    {
      if |selected| >= s.cap {
        return;
      }
      assert queue[i..][1..] == queue[i + 1..];
      var d := detail(queue[i].id);
      if d.Unreachable? || d.resolved {
        continue;
      }
      if d.score.Some? && d.score.value.status == Done {
        continue;
      }
      if SkipFresh(d.score, now, s.staleWindow) {
        continue;
      }
      selected := selected + [queue[i]];
    }
  }
}
