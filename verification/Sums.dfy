/** Finite sums over sequences of naturals, used for every "how much do the jobs hold" tally. */
module Sums {

  function Sum(ws: seq<nat>): nat {
    if |ws| == 0 then 0 else Sum(ws[..|ws| - 1]) + ws[|ws| - 1]
  }

  lemma {:induction false} SumUpdate(ws: seq<nat>, k: nat, v: nat)
    requires k < |ws|
    ensures Sum(ws[k := v]) + ws[k] == Sum(ws) + v
  {
    var n := |ws| - 1;
    if k == n {
      assert ws[k := v][..n] == ws[..n];
    } else {
      assert ws[k := v][..n] == ws[..n][k := v];
      SumUpdate(ws[..n], k, v);
    }
  }

  lemma SumAppend(ws: seq<nat>, v: nat)
    ensures Sum(ws + [v]) == Sum(ws) + v
  {
    assert (ws + [v])[..|ws|] == ws;
  }

  lemma {:induction false} SumMono(ws: seq<nat>, us: seq<nat>)
    requires |ws| == |us|
    requires forall i :: 0 <= i < |ws| ==> ws[i] <= us[i]
    ensures Sum(ws) <= Sum(us)
  {
    if |ws| > 0 {
      SumMono(ws[..|ws| - 1], us[..|us| - 1]);
    }
  }

  lemma {:induction false} SumAtLeast(ws: seq<nat>, k: nat)
    requires k < |ws|
    ensures ws[k] <= Sum(ws)
  {
    if k < |ws| - 1 {
      SumAtLeast(ws[..|ws| - 1], k);
    }
  }

  lemma {:induction false} SumPrefix(ws: seq<nat>, k: nat)
    requires k <= |ws|
    ensures Sum(ws[..k]) <= Sum(ws)
    decreases |ws|
  {
    if k < |ws| {
      var front := ws[..|ws| - 1];
      SumPrefix(front, k);
      assert front[..k] == ws[..k];
    } else {
      assert ws[..k] == ws;
    }
  }

  lemma {:induction false} AllZero(ws: seq<nat>)
    requires forall i :: 0 <= i < |ws| ==> ws[i] == 0
    ensures Sum(ws) == 0
  {
    if |ws| > 0 {
      AllZero(ws[..|ws| - 1]);
    }
  }
}
