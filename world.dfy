/** The two routines of the abstract reinforcement-learning world that stand
    on their own: the running per-component bounds of the visited states,
    and the roulette-wheel choice of an action from a probability vector. */
module World {
  import opened LinearAlgebra

  /** std::min: the first argument unless the second is smaller. */
  function Min(a: real, b: real): real
  {
    if b < a then b else a
  }

  /** std::max: the first argument unless the second is larger. */
  function Max(a: real, b: real): real
  {
    if a < b then b else a
  }

  /** The smallest and the largest value seen, component by component. */
  datatype Bounds = Bounds(lower: seq<real>, upper: seq<real>)

  ghost predicate ValidBounds(b: Bounds)
  {
    && |b.lower| == |b.upper|
    && forall i :: 0 <= i < |b.lower| ==> b.lower[i] <= b.upper[i]
  }

  /** A state updateMinMax can take: any state the first time, afterwards
      one no longer than the stored bounds. */
  predicate Accepts(b: Bounds, state: seq<real>)
  {
    |b.lower| == 0 || (|state| <= |b.lower| && |state| <= |b.upper|)
  }

  /** The bounds after updateMinMax(state). */
  function Widen(b: Bounds, state: seq<real>): Bounds
    requires Accepts(b, state)
  {
    if |b.lower| == 0 then Bounds(state, state)
    else
      Bounds(
        seq(|b.lower|, i requires 0 <= i < |b.lower| =>
          if i < |state| then Min(b.lower[i], state[i]) else b.lower[i]),
        seq(|b.upper|, i requires 0 <= i < |b.upper| =>
          if i < |state| then Max(b.upper[i], state[i]) else b.upper[i]))
  }

  /** The first call, made while the bounds are empty, stores the state as
      both bounds. */
  lemma WidenFirst(b: Bounds, state: seq<real>)
    requires |b.lower| == 0
    ensures Widen(b, state).lower == state && Widen(b, state).upper == state
  {
  }

  /** After a call, every component of the state lies between its bounds. */
  lemma WidenEncloses(b: Bounds, state: seq<real>)
    requires Accepts(b, state)
    ensures var r := Widen(b, state);
      && |state| <= |r.lower| && |state| <= |r.upper|
      && forall i :: 0 <= i < |state| ==> r.lower[i] <= state[i] <= r.upper[i]
  {
  }

  /** The bounds stay ordered: lower <= upper component by component. */
  lemma WidenValid(b: Bounds, state: seq<real>)
    requires ValidBounds(b) && Accepts(b, state)
    ensures ValidBounds(Widen(b, state))
  {
  }

  /** Once set, the bounds keep their length, the lower bound only goes down
      and the upper bound only goes up. */
  lemma WidenMonotone(b: Bounds, state: seq<real>)
    requires Accepts(b, state) && |b.lower| > 0
    ensures var r := Widen(b, state);
      && |r.lower| == |b.lower| && |r.upper| == |b.upper|
      && (forall i :: 0 <= i < |b.lower| ==> r.lower[i] <= b.lower[i])
      && (forall i :: 0 <= i < |b.upper| ==> b.upper[i] <= r.upper[i])
  {
  }

  /** A second call with the same state changes nothing. */
  lemma WidenIdempotent(b: Bounds, state: seq<real>)
    requires Accepts(b, state)
    ensures Accepts(Widen(b, state), state)
    ensures Widen(Widen(b, state), state) == Widen(b, state)
  {
    var r := Widen(b, state);
    var rr := Widen(r, state);
    assert rr.lower == r.lower;
    assert rr.upper == r.upper;
  }

  /** The bounds after one call per state, in order, all states having
      dimension d. */
  function Track(states: seq<seq<real>>, d: nat): (b: Bounds)
    requires forall k :: 0 <= k < |states| ==> |states[k]| == d
    ensures |states| == 0 ==> b == Bounds([], [])
    ensures |states| > 0 ==> |b.lower| == d && |b.upper| == d
    decreases |states|
  {
    if |states| == 0 then Bounds([], [])
    else Widen(Track(states[..|states| - 1], d), states[|states| - 1])
  }

  /** After a run of calls, each lower bound is the least and each upper
      bound the greatest of that component over all the states seen: it
      encloses every one of them and is attained by one of them. */
  lemma {:induction false} TrackIsTight(states: seq<seq<real>>, d: nat, i: nat)
    requires forall k :: 0 <= k < |states| ==> |states[k]| == d
    requires |states| > 0 && i < d
    ensures var b := Track(states, d);
      && (forall k :: 0 <= k < |states| ==> b.lower[i] <= states[k][i] <= b.upper[i])
      && (exists k :: 0 <= k < |states| && b.lower[i] == states[k][i])
      && (exists k :: 0 <= k < |states| && b.upper[i] == states[k][i])
  {
    var n := |states| - 1;
    var b := Track(states, d);
    if n == 0 {
      assert b.lower[i] == states[0][i] && b.upper[i] == states[0][i];
    } else {
      var prefix := states[..n];
      TrackIsTight(prefix, d, i);
      var p := Track(prefix, d);
      assert b.lower[i] == Min(p.lower[i], states[n][i]);
      assert b.upper[i] == Max(p.upper[i], states[n][i]);
      forall k | 0 <= k < n
        ensures b.lower[i] <= states[k][i] <= b.upper[i]
      {
        assert states[k] == prefix[k];
      }
      var lo :| 0 <= lo < n && p.lower[i] == prefix[lo][i];
      var hi :| 0 <= hi < n && p.upper[i] == prefix[hi][i];
      var klo := if states[n][i] < p.lower[i] then n else lo;
      var khi := if p.upper[i] < states[n][i] then n else hi;
      assert b.lower[i] == states[klo][i];
      assert b.upper[i] == states[khi][i];
    }
  }

  /** The state an abstract world keeps: its number of actions and the
      running bounds of the states visited. */
  class AbstractWorld {
    /** numActions(): fixed at construction. */
    const numActions: nat
    var minState: seq<real>
    var maxState: seq<real>

    function Bounded(): Bounds
      reads this
    {
      Bounds(minState, maxState)
    }

    ghost predicate Valid()
      reads this
    {
      ValidBounds(Bounded())
    }

    constructor (numActions: nat)
      ensures this.numActions == numActions
      ensures minState == [] && maxState == []
      ensures Valid()
    {
      this.numActions := numActions;
      minState, maxState := [], [];
    }

    /** updateMinMax(state): the first state becomes both bounds; later
        states widen them component by component. */
    method UpdateMinMax(state: seq<real>)
      requires Valid() && Accepts(Bounded(), state)
      modifies this`minState, this`maxState
      ensures Valid()
      ensures Bounded() == Widen(old(Bounded()), state)
    {
      if |minState| == 0 {
        minState := state;
        maxState := state;
      } else {
        var i := 0;
        while i < |state|
          invariant 0 <= i <= |state|
          invariant |minState| == |old(minState)| && |maxState| == |old(maxState)|
          invariant forall j :: 0 <= j < i ==> minState[j] == Min(old(minState)[j], state[j])
          invariant forall j :: 0 <= j < i ==> maxState[j] == Max(old(maxState)[j], state[j])
          invariant forall j :: i <= j < |minState| ==> minState[j] == old(minState)[j]
          invariant forall j :: i <= j < |maxState| ==> maxState[j] == old(maxState)[j]
        {
          minState := minState[i := Min(minState[i], state[i])];
          maxState := maxState[i := Max(maxState[i], state[i])];
          i := i + 1;
        }
      }
      WidenValid(old(Bounded()), state);
    }
  }

  // ---------------------------------------------------------------------
  // Roulette-wheel action selection

  /** The number of values std::rand() % 65536 can take. */
  const RandRange: nat := 65536

  /** The uniform draw k / 65536 in [0, 1). */
  function Rnd(k: nat): (rnd: real)
    requires k < RandRange
    ensures 0.0 <= rnd < 1.0
  {
    k as real / 65536.0
  }

  /** The cumulative probability of actions 0..a. */
  function Acc(values: seq<real>, a: nat): real
    requires a < |values|
  {
    Sum(values[..a + 1])
  }

  /** Action a is what the roulette picks among n actions for the draw rnd:
      no earlier action's cumulative probability exceeds rnd, and, unless a
      is the last action, a's own does. */
  ghost predicate IsSelection(values: seq<real>, n: nat, rnd: real, a: nat)
    requires 1 <= n && n - 1 <= |values|
  {
    && a < n
    && (forall b :: 0 <= b < a ==> Acc(values, b) <= rnd)
    && (a < n - 1 ==> Acc(values, a) > rnd)
  }

  /** The selection loop: accumulate the values until the sum exceeds the
      draw; fall back on the last action. */
  method SelectAction(values: seq<real>, n: nat, k: nat) returns (action: nat)
    requires 1 <= n && n - 1 <= |values| && k < RandRange
    ensures action < n
    ensures IsSelection(values, n, Rnd(k), action)
  {
    var rnd := k as real / 65536.0;
    var acc := 0.0;
    action := 0;
    while action < n - 1
      invariant 0 <= action <= n - 1
      invariant acc == Sum(values[..action])
      invariant forall b :: 0 <= b < action ==> Acc(values, b) <= rnd
    {
      assert values[..action + 1][..action] == values[..action];
      acc := acc + values[action];
      if acc > rnd {
        break;
      }
      action := action + 1;
    }
  }

  /** The draw determines the action: at most one action is a selection. */
  lemma SelectionUnique(values: seq<real>, n: nat, rnd: real, a1: nat, a2: nat)
    requires 1 <= n && n - 1 <= |values|
    requires IsSelection(values, n, rnd, a1) && IsSelection(values, n, rnd, a2)
    ensures a1 == a2
  {
  }

  /** A larger draw never picks an earlier action. */
  lemma SelectionMonotone(values: seq<real>, n: nat, rnd1: real, rnd2: real, a1: nat, a2: nat)
    requires 1 <= n && n - 1 <= |values| && rnd1 <= rnd2
    requires IsSelection(values, n, rnd1, a1) && IsSelection(values, n, rnd2, a2)
    ensures a1 <= a2
  {
  }

  /** With non-negative values, cumulative probabilities do not decrease. */
  lemma {:induction false} AccMonotone(values: seq<real>, b: nat, c: nat)
    requires AllNonNegative(values) && b <= c < |values|
    ensures Acc(values, b) <= Acc(values, c)
    decreases c - b
  {
    if b < c {
      AccMonotone(values, b, c - 1);
      AccStep(values, c);
    }
  }

  /** Each action adds its own probability to the cumulative one. */
  lemma AccStep(values: seq<real>, a: nat)
    requires 0 < a < |values|
    ensures Acc(values, a) == Acc(values, a - 1) + values[a]
  {
    assert values[..a + 1][..a] == values[..a];
    assert values[..a] == values[..(a - 1) + 1];
  }

  /** With non-negative values, action a is selected exactly when rnd falls
      in its slice [Acc(a - 1), Acc(a)) of the wheel, the first slice
      starting at 0 and the last one open above. */
  lemma SelectionInterval(values: seq<real>, n: nat, rnd: real, a: nat)
    requires 1 <= n && n - 1 <= |values| && AllNonNegative(values) && 0.0 <= rnd
    requires a < n
    ensures IsSelection(values, n, rnd, a) <==>
      && (a == 0 || Acc(values, a - 1) <= rnd)
      && (a == n - 1 || rnd < Acc(values, a))
  {
    if a > 0 && Acc(values, a - 1) <= rnd {
      forall b | 0 <= b < a
        ensures Acc(values, b) <= rnd
      {
        AccMonotone(values, b, a - 1);
      }
    }
  }

  /** An action of probability zero is never picked, unless it is the last
      one (the fallback). */
  lemma ZeroProbabilityNotChosen(values: seq<real>, n: nat, k: nat, a: nat)
    requires 1 <= n && n - 1 <= |values| && AllNonNegative(values) && k < RandRange
    requires a < n - 1 && values[a] == 0.0
    ensures !IsSelection(values, n, Rnd(k), a)
  {
    if a > 0 {
      AccStep(values, a);
    } else {
      assert values[..1][..0] == [];
      assert Sum(values[..1]) == Sum(values[..1][..0]) + values[0];
    }
  }
}
