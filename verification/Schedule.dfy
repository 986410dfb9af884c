/**
 3/3 agreement on a schedule: a row is published only when every report has it and no second agreed row covers the
 same matchup. The published list does not depend on the order of the reports, of their rows, or of any set.
 */
module Schedule {
  import opened Sorting

  datatype Game = Game(away: string, home: string, kickoff: int, week: int, season: int, status: string)

  /** A game's key is all of its fields, so equal keys are equal games. */
  predicate SameMatchup(a: Game, b: Game) {
    a.season == b.season && a.week == b.week && a.away == b.away && a.home == b.home
  }

  /** _game_order: season, week, kickoff, away, home. */
  predicate Sooner(a: Game, b: Game) {
    if a.season != b.season then a.season < b.season
    else if a.week != b.week then a.week < b.week
    else if a.kickoff != b.kickoff then a.kickoff < b.kickoff
    else if a.away != b.away then Before(a.away, b.away)
    else Before(a.home, b.home)
  }

  predicate Reported(reports: seq<seq<Game>>, g: Game) {
    exists r :: r in reports && g in r
  }

  predicate InAll(reports: seq<seq<Game>>, g: Game) {
    forall r :: r in reports ==> g in r
  }

  /** In every report, and the only such row of its matchup. */
  ghost predicate IsAgreed(reports: seq<seq<Game>>, g: Game) {
    reports != [] && InAll(reports, g) && forall h :: InAll(reports, h) && SameMatchup(g, h) ==> h == g
  }

  ghost predicate Distinct(s: seq<Game>) {
    forall i, j :: 0 <= i < j < |s| ==> s[i] != s[j]
  }

  lemma SoonerWeakOrder()
    ensures WeakOrder(Sooner)
  {
    forall a, b ensures Sooner(a, b) ==> !Sooner(b, a) {
      BeforeTotal(a.away, b.away);
      BeforeTotal(a.home, b.home);
    }
    forall x, y, z | !Sooner(y, x) && !Sooner(z, y) ensures !Sooner(z, x) {
      SoonerTrans(x, y, z);
    }
  }

  lemma SoonerTrans(x: Game, y: Game, z: Game)
    requires !Sooner(y, x) && !Sooner(z, y)
    ensures !Sooner(z, x)
  {
    NotBeforeTrans(x.away, y.away, z.away);
    NotBeforeTrans(x.home, y.home, z.home);
    BeforeTotal(x.away, y.away);
    BeforeTotal(y.away, z.away);
  }

  lemma NotBeforeTrans(a: string, b: string, c: string)
    ensures !Before(b, a) && !Before(c, b) ==> !Before(c, a) && (a == c ==> a == b)
  {
    BeforeTotal(a, b);
    BeforeTotal(b, c);
    BeforeTotal(a, c);
    if Before(a, b) && Before(b, c) { BeforeTrans(a, b, c); }
  }

  /** Rows of different matchups are never tied. */
  lemma SoonerTotal(a: Game, b: Game)
    requires !SameMatchup(a, b)
    ensures Sooner(a, b) || Sooner(b, a)
  {
    BeforeTotal(a.away, b.away);
    BeforeTotal(a.home, b.home);
  }

  /** The published list: the agreed rows, each once, in schedule order. */
  ghost predicate Published(reports: seq<seq<Game>>, agreed: seq<Game>) {
    Distinct(agreed) && Ordered(Sooner, agreed) && forall g :: g in agreed <==> IsAgreed(reports, g)
  }

  /** Exactly the reported rows that are not agreed, each once, in schedule order. */
  ghost predicate Withheld(reports: seq<seq<Game>>, disputed: seq<Game>) {
    && Distinct(disputed) && Ordered(Sooner, disputed)
    && forall g :: g in disputed <==> Reported(reports, g) && !IsAgreed(reports, g)
  }

  /** Season, week and kickoff, then the names in alphabetical order; rows equal in all five may stand either way. */
  ghost predicate InOrder(a: Game, b: Game) {
    || a.season < b.season
    || (a.season == b.season && a.week < b.week)
    || (a.season == b.season && a.week == b.week && a.kickoff < b.kickoff)
    || (a.season == b.season && a.week == b.week && a.kickoff == b.kickoff && NamesInOrder(a, b))
  }

  ghost predicate NamesInOrder(a: Game, b: Game) {
    || (exists k :: DiffersAt(a.away, b.away, k))
    || (a.away == b.away && exists k :: DiffersAt(a.home, b.home, k))
    || (a.away == b.away && a.home == b.home)
  }

  /** On both lists the earlier row comes first. */
  lemma ListedInOrder(rows: seq<Game>, i: nat, j: nat)
    requires Ordered(Sooner, rows) && i < j < |rows|
    ensures InOrder(rows[i], rows[j])
  {
    var a, b := rows[i], rows[j];
    BeforeIff(a.away, b.away);
    BeforeIff(a.home, b.home);
    BeforeTotal(a.away, b.away);
    BeforeTotal(a.home, b.home);
  }

  /** Every report has it. */
  predicate Unanimous(reports: seq<seq<Game>>, g: Game) {
    forall i :: 0 <= i < |reports| ==> g in reports[i]
  }

  /** Another row that every report has, of the same season, week and teams. */
  predicate Rival(reports: seq<seq<Game>>, g: Game, h: Game) {
    && Unanimous(reports, h) && h != g
    && h.season == g.season && h.week == g.week && h.away == g.away && h.home == g.home
  }

  /** Field by field: a row is published exactly when every report has it and it has no rival. */
  lemma PublishedIff(reports: seq<seq<Game>>, agreed: seq<Game>, g: Game)
    requires Published(reports, agreed)
    ensures g in agreed <==> reports != [] && Unanimous(reports, g) && !exists h :: Rival(reports, g, h)
  {
    forall h ensures InAll(reports, h) <==> Unanimous(reports, h) {
      if Unanimous(reports, h) {
        assert forall r :: r in reports ==> exists i :: 0 <= i < |reports| && reports[i] == r;
      } else {
        var i :| 0 <= i < |reports| && h !in reports[i];
        assert reports[i] in reports;
      }
    }
    if h :| Rival(reports, g, h) {
      assert InAll(reports, h) && SameMatchup(g, h);
    }
    if h :| InAll(reports, h) && SameMatchup(g, h) && h != g {
      assert Rival(reports, g, h);
    }
  }

  /** No two published rows cover one matchup, and every published row is in every report. */
  lemma PublishedUnambiguous(reports: seq<seq<Game>>, agreed: seq<Game>, i: nat, j: nat)
    requires Published(reports, agreed) && i < j < |agreed|
    ensures !SameMatchup(agreed[i], agreed[j]) && InAll(reports, agreed[i])
    ensures agreed[i].season != agreed[j].season || agreed[i].week != agreed[j].week ||
            agreed[i].away != agreed[j].away || agreed[i].home != agreed[j].home
  {
    assert agreed[i] in agreed && agreed[j] in agreed;
    assert IsAgreed(reports, agreed[i]) && IsAgreed(reports, agreed[j]);
  }

  /** The rows of each report as a set, whatever their order and repetition. */
  function RowSets(reports: seq<seq<Game>>): set<set<Game>> {
    set r | r in reports :: set g | g in r
  }

  lemma InAllBySets(a: seq<seq<Game>>, b: seq<seq<Game>>, g: Game)
    requires RowSets(a) == RowSets(b) && InAll(a, g)
    ensures InAll(b, g)
  {
    forall r | r in b ensures g in r {
      var rows := set x | x in r;
      assert rows in RowSets(b);
      var q :| q in a && rows == set x | x in q;
      assert g in rows;
    }
  }

  /** Reports that hold the same rows, in any order, publish the same list. */
  lemma OrderIndependent(a: seq<seq<Game>>, b: seq<seq<Game>>, agreedA: seq<Game>, agreedB: seq<Game>)
    requires RowSets(a) == RowSets(b) && Published(a, agreedA) && Published(b, agreedB)
    ensures agreedA == agreedB
  {
    assert a == [] <==> b == [] by {
      if a != [] { assert a[0] in a && (set g | g in a[0]) in RowSets(a); }
      if b != [] { assert b[0] in b && (set g | g in b[0]) in RowSets(b); }
    }
    forall g ensures InAll(a, g) == InAll(b, g) {
      if InAll(a, g) { InAllBySets(a, b, g); }
      if InAll(b, g) { InAllBySets(b, a, g); }
    }
    forall g ensures g in agreedA <==> g in agreedB {
    }
    DistinctSameMultiset(agreedA, agreedB);
    SoonerWeakOrder();
    forall i, j | 0 <= i < j < |agreedA| ensures Sooner(agreedA[i], agreedA[j]) || Sooner(agreedA[j], agreedA[i]) {
      PublishedUnambiguous(a, agreedA, i, j);
      SoonerTotal(agreedA[i], agreedA[j]);
    }
    OrderedUnique(Sooner, agreedA, agreedB);
  }

  lemma {:induction false} DistinctCounts(s: seq<Game>, g: Game)
    requires Distinct(s)
    ensures multiset(s)[g] == if g in s then 1 else 0
  {
    if s != [] {
      var front, last := s[..|s| - 1], s[|s| - 1];
      DistinctCounts(front, g);
      Snoc(s);
      assert forall x :: x in s <==> x in front || x == last;
      assert last !in front;
    }
  }

  lemma DistinctSameMultiset(a: seq<Game>, b: seq<Game>)
    requires Distinct(a) && Distinct(b) && forall g :: g in a <==> g in b
    ensures multiset(a) == multiset(b)
  {
    forall g ensures multiset(a)[g] == multiset(b)[g] {
      DistinctCounts(a, g);
      DistinctCounts(b, g);
    }
  }

  lemma SortKeeps(s: seq<Game>)
    requires Distinct(s)
    ensures Distinct(Sort(Sooner, s)) && Ordered(Sooner, Sort(Sooner, s))
    ensures forall g :: g in Sort(Sooner, s) <==> g in s
  {
    SoonerWeakOrder();
    SortOrdered(Sooner, s);
    SortMultiset(Sooner, s);
    var r := Sort(Sooner, s);
    forall g ensures g in r <==> g in s {
      SortMembers(Sooner, s, g);
    }
    forall i, j | 0 <= i < j < |r| ensures r[i] != r[j] {
      if r[i] == r[j] {
        Twice(r, i, j);
        DistinctCounts(s, r[i]);
      }
    }
  }

  lemma {:induction false} Twice(s: seq<Game>, i: nat, j: nat)
    requires i < j < |s| && s[i] == s[j]
    ensures multiset(s)[s[i]] >= 2
  {
    Snoc(s);
    var front := s[..|s| - 1];
    if j < |s| - 1 {
      Twice(front, i, j);
    } else {
      assert front[i] in multiset(front);
    }
  }

  // ------------------------------------------------------------------ agreed_games

  /** First-seen order of the distinct rows. */
  method FirstSeen(reports: seq<seq<Game>>) returns (rows: seq<Game>)
    ensures Distinct(rows) && forall g :: g in rows <==> Reported(reports, g)
  {
    rows := [];
    for i := 0 to |reports|
      invariant Distinct(rows) && forall g :: g in rows <==> Reported(reports[..i], g)
    {
      var games := reports[i];
      assert reports[..i + 1] == reports[..i] + [games];
      for j := 0 to |games|
        invariant Distinct(rows) && forall g :: g in rows <==> Reported(reports[..i], g) || g in games[..j]
      {
        assert games[..j + 1] == games[..j] + [games[j]];
        if games[j] !in rows {
          rows := rows + [games[j]];
        }
      }
      assert games[..|games|] == games;
    }
    assert reports[..|reports|] == reports;
  }

  /** Rows present in every report. */
  method Common(reports: seq<seq<Game>>) returns (common: set<Game>)
    requires reports != []
    ensures forall g :: g in common <==> InAll(reports, g)
  {
    common := set g | g in reports[0];
    for i := 1 to |reports|
      invariant forall g :: g in common <==> InAll(reports[..i], g)
    {
      assert reports[..i + 1] == reports[..i] + [reports[i]];
      common := common * set g | g in reports[i];
    }
    assert reports[..|reports|] == reports;
  }

  /** No other row of the set has this row's matchup. */
  predicate Sole(common: set<Game>, g: Game) {
    forall h :: h in common && SameMatchup(g, h) ==> h == g
  }

  /** The rows of the set that are alone in their matchup, the set being walked in an arbitrary order. */
  method SoleRows(common: set<Game>) returns (agreed: seq<Game>)
    ensures Distinct(agreed) && forall g :: g in agreed <==> g in common && Sole(common, g)
  {
    agreed := [];
    var left := common;
    while left != {}
      invariant left <= common && Distinct(agreed)
      invariant forall g :: g in agreed <==> g in common && g !in left && Sole(common, g)
      decreases |left|
    {
      var g :| g in left;
      left := left - {g};
      if Sole(common, g) {
        agreed := agreed + [g];
      }
    }
  }

  /** The rows that are not on the list, in their order. */
  method Rest(rows: seq<Game>, agreed: seq<Game>) returns (disputed: seq<Game>)
    requires Distinct(rows)
    ensures Distinct(disputed) && forall g :: g in disputed <==> g in rows && g !in agreed
  {
    disputed := [];
    for i := 0 to |rows|
      invariant Distinct(disputed) && forall g :: g in disputed <==> g in rows[..i] && g !in agreed
    {
      assert rows[..i + 1] == rows[..i] + [rows[i]];
      if rows[i] !in agreed {
        disputed := disputed + [rows[i]];
      }
    }
    assert rows[..|rows|] == rows;
  }

  /** agreed_games. The sort makes the result independent of the order in which the set is walked. */
  method AgreedGames(reports: seq<seq<Game>>) returns (agreed: seq<Game>, disputed: seq<Game>)
    ensures Published(reports, agreed) && Withheld(reports, disputed)
  {
    agreed, disputed := [], [];
    if reports == [] {
      return;
    }
    var rows := FirstSeen(reports);
    var common := Common(reports);
    agreed := SoleRows(common);
    assert forall g :: IsAgreed(reports, g) <==> g in common && Sole(common, g);
    disputed := Rest(rows, agreed);
    SortKeeps(agreed);
    SortKeeps(disputed);
    agreed, disputed := Sort(Sooner, agreed), Sort(Sooner, disputed);
  }

  /** Every reported row is on exactly one of the two lists. */
  lemma Partition(reports: seq<seq<Game>>, agreed: seq<Game>, disputed: seq<Game>, g: Game)
    requires Published(reports, agreed) && Withheld(reports, disputed)
    ensures Reported(reports, g) <==> g in agreed || g in disputed
    ensures !(g in agreed && g in disputed)
  {
    if g in agreed {
      assert reports[0] in reports && g in reports[0];
    }
  }
}
