/** Rolling follow-through rate of crates/observer-core/src/follow_through.rs. */
module FollowThrough {
  import opened Numerics
  import opened Metrics

  datatype Tracker = Tracker(minRate: real, window: seq<bool>, capacity: nat)
  {
    function Record(aligned: bool): Tracker
    {
      var kept := if |window| >= capacity && window != [] then window[1..] else window;
      this.(window := kept + [aligned])
    }

    function Rate(): real
    {
      if window == [] then 1.0 else Wins(window) as real / |window| as real
    }

    predicate AllowsEntry() { |window| < 20 || Rate() >= minRate }
  }

  function NewTracker(minRate: real, capacity: nat): Tracker
  {
    Tracker(minRate, [], if capacity > 10 then capacity else 10)
  }

  function Wins(w: seq<bool>): nat
  {
    if w == [] then 0 else Wins(w[..|w| - 1]) + if w[|w| - 1] then 1 else 0
  }

  class FollowThroughTracker {
    const minRate: real
    var window: seq<bool>
    const capacity: nat

    ghost function Value(): Tracker
      reads this
    {
      Tracker(minRate, window, capacity)
    }

    constructor (minRate: real, capacity: nat)
      ensures Value() == NewTracker(minRate, capacity)
    {
      this.minRate := minRate;
      this.window := [];
      this.capacity := if capacity > 10 then capacity else 10;
    }

    method Record(aligned: bool)
      modifies this
      ensures Value() == old(Value()).Record(aligned)
    {
      if |window| >= capacity {
        if window != [] {
          window := window[1..];
        }
      }
      window := window + [aligned];
    }

    method Rate() returns (r: real)
      ensures r == Value().Rate()
    {
      if window == [] { return 1.0; }
      var wins := 0;
      for i := 0 to |window|
        invariant wins == Wins(window[..i])
      {
        assert window[..i + 1][..i] == window[..i];
        if window[i] { wins := wins + 1; }
      }
      assert window[..|window|] == window;
      return wins as real / |window| as real;
    }

    method AllowsEntry() returns (ok: bool)
      ensures ok == Value().AllowsEntry()
    {
      if |window| < 20 { return true; }
      var r := Rate();
      return r >= minRate;
    }
  }

  function Recorded(t: Tracker, outcomes: seq<bool>): Tracker
  {
    if outcomes == [] then t else Recorded(t, outcomes[..|outcomes| - 1]).Record(outcomes[|outcomes| - 1])
  }

  /** The window is a sliding one: exactly the last `capacity` outcomes. */
  lemma {:induction false} WindowIsLatest(minRate: real, capacity: nat, outcomes: seq<bool>)
    ensures var t := Recorded(NewTracker(minRate, capacity), outcomes);
            && t.window == LastUpTo(outcomes, t.capacity)
            && t.capacity == (if capacity < 10 then 10 else capacity) && t.minRate == minRate
  {
    if outcomes != [] {
      var init, x := outcomes[..|outcomes| - 1], outcomes[|outcomes| - 1];
      WindowIsLatest(minRate, capacity, init);
      var t := Recorded(NewTracker(minRate, capacity), init);
      assert Recorded(NewTracker(minRate, capacity), outcomes) == t.Record(x);
      assert outcomes == init + [x];
      LastUpToAppend(init, x, t.capacity);
    }
  }

  lemma LastUpToAppend<T>(s: seq<T>, x: T, cap: nat)
    requires cap > 0
    ensures var k := LastUpTo(s, cap);
            LastUpTo(s + [x], cap) == (if |k| >= cap then k[1..] else k) + [x]
  {
  }

  lemma {:induction false} WinsBounded(w: seq<bool>)
    ensures Wins(w) <= |w|
    ensures Wins(w) == |w| <==> forall i | 0 <= i < |w| :: w[i]
    ensures Wins(w) == 0 <==> forall i | 0 <= i < |w| :: !w[i]
  {
    if w != [] {
      WinsBounded(w[..|w| - 1]);
    }
  }

  /** The gate fails open below twenty samples and otherwise compares the true
      win fraction of the last `capacity` outcomes with the minimum. */
  lemma GateIsWinFraction(minRate: real, capacity: nat, outcomes: seq<bool>)
    ensures var t := Recorded(NewTracker(minRate, capacity), outcomes);
            var latest := LastUpTo(outcomes, NewTracker(minRate, capacity).capacity);
            && 0.0 <= t.Rate() <= 1.0
            && (t.AllowsEntry() <==> |latest| < 20 || Wins(latest) as real >= Times(minRate, |latest| as real))
  {
    WindowIsLatest(minRate, capacity, outcomes);
    RateIsFraction(Recorded(NewTracker(minRate, capacity), outcomes));
  }

  lemma RateIsFraction(t: Tracker)
    ensures 0.0 <= t.Rate() <= 1.0
    ensures t.window != [] ==> (t.Rate() >= t.minRate <==> Wins(t.window) as real >= Times(t.minRate, |t.window| as real))
  {
    var w := t.window;
    WinsBounded(w);
    if w != [] {
      FractionFacts(Wins(w) as real, |w| as real, t.minRate);
    }
  }

  lemma FractionFacts(k: real, n: real, least: real)
    requires 0.0 <= k <= n && n > 0.0
    ensures 0.0 <= k / n <= 1.0
    ensures k / n >= least <==> k >= Times(least, n)
  {
    DivMul(k, n);
    SignOfProduct(n, k / n - least);
    SignOfProduct(n, k / n);
    SignOfProduct(n, 1.0 - k / n);
  }
}
