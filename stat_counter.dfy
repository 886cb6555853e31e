/** StatCounter: a window over the last `cap` samples with a running sum,
    used by a session to smooth solar power and surplus. */
module StatCounters {

  function Min(a: nat, b: nat): nat { if a <= b then a else b }

  /** Sum of a sequence. */
  function Sum(s: seq<real>): real
  {
    if s == [] then 0.0 else s[0] + Sum(s[1..])
  }

  function Mean(s: seq<real>): real
    requires s != []
  {
    Sum(s) / (|s| as real)
  }

  /** The last min(|h|, n) elements of `h`, in order. */
  function LastN(h: seq<real>, n: nat): seq<real>
  {
    h[|h| - Min(|h|, n)..]
  }

  /** The retained values after one `add`: append `v`, then drop the oldest
      value once there are more than `cap`. */
  function AddSample(w: seq<real>, cap: nat, v: real): (r: seq<real>)
    ensures cap > 0 ==> r != []
  {
    if |w + [v]| > cap then (w + [v])[1..] else w + [v]
  }

  /** The retained values after adding every value of `h`, in order, to an empty counter. */
  function Replay(h: seq<real>, cap: nat): seq<real>
  {
    if h == [] then [] else AddSample(Replay(h[..|h| - 1], cap), cap, h[|h| - 1])
  }

  /** Appending a value adds exactly that value to the sum. */
  lemma {:induction false} SumAppend(s: seq<real>, v: real)
    ensures Sum(s + [v]) == Sum(s) + v
  {
    if s != [] {
      SumAppend(s[1..], v);
      assert (s + [v])[1..] == s[1..] + [v];
    }
  }

  /** Adding one value to a window holding the last `cap` values of `h` gives
      the last `cap` values of `h + [v]`: eviction removes only the oldest. */
  lemma AddSampleKeepsLast(h: seq<real>, cap: nat, v: real)
    ensures AddSample(LastN(h, cap), cap, v) == LastN(h + [v], cap)
  {
    var w := LastN(h, cap);
    if |h| >= cap && cap > 0 {
      assert (w + [v])[1..] == (h + [v])[|h| + 1 - cap..];
    } else if cap == 0 {
      assert (w + [v])[1..] == [];
    } else {
      assert w == h;
    }
  }

  /** After any sequence of `add` calls the counter holds exactly the last
      min(n, cap) values added, in insertion order, and never more than `cap`. */
  lemma {:induction false} ReplayKeepsLast(h: seq<real>, cap: nat)
    ensures Replay(h, cap) == LastN(h, cap)
    ensures |Replay(h, cap)| == Min(|h|, cap) <= cap
  {
    if h != [] {
      var p := h[..|h| - 1];
      ReplayKeepsLast(p, cap);
      AddSampleKeepsLast(p, cap, h[|h| - 1]);
      assert p + [h[|h| - 1]] == h;
    }
  }

  class StatCounter {
    const cap: nat
    var values: seq<real>
    var sum: real
    /** Every value ever added, oldest first. */
    ghost var history: seq<real>

    /** The running sum is the sum of the retained values, and those are the
        last `cap` values added. */
    ghost predicate Valid()
      reads this
    {
      && |values| <= cap
      && sum == Sum(values)
      && values == LastN(history, cap)
    }

    constructor (cap: nat)
      ensures Valid() && this.cap == cap
      ensures history == [] && values == []
    {
      this.cap := cap;
      values := [];
      sum := 0.0;
      history := [];
    }

    method Add(v: real)
      requires Valid()
      modifies this
      ensures Valid()
      ensures history == old(history) + [v]
      ensures values == AddSample(old(values), cap, v)
    {
      AddSampleKeepsLast(history, cap, v);
      SumAppend(values, v);
      values := values + [v];
      sum := sum + v;
      history := history + [v];
      if |values| > cap {
        sum := sum - values[0];
        values := values[1..];
      }
    }

    method Length() returns (n: nat)
      requires Valid()
      ensures n == Min(|history|, cap)
    {
      n := |values|;
    }

    /** The mean of the last min(n, cap) values added, from the running sum. */
    method GetAverage() returns (avg: real)
      requires Valid() && values != []
      ensures avg == Mean(LastN(history, cap))
    {
      avg := sum / (|values| as real);
    }

    /** The value added most recently. */
    method GetLatest() returns (x: real)
      requires Valid() && values != []
      ensures x == history[|history| - 1]
    {
      x := values[|values| - 1];
    }
  }
}
