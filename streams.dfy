/** A cursor that is moved by a step function and reports an output at every position it
    visits. The lexer's token stream is an instance of this: the step is "the cursor after one
    call of `next_token`" and the output is "the token that call returns". The facts below are
    proved once for every step function, so they hold for the lexer without looking inside it. */
module Streams {
  /** The cursor after k steps from p. */
  function Iterate(step: nat -> nat, p: nat, k: nat): nat {
    if k == 0 then p else step(Iterate(step, p, k - 1))
  }

  /** The outputs at the first n cursors visited from p. */
  function Trace<T>(step: nat -> nat, out: nat -> T, p: nat, n: nat): (r: seq<T>)
    ensures |r| == n
    decreases n
  {
    if n == 0 then [] else [out(p)] + Trace(step, out, step(p), n - 1)
  }

  /** k steps after the first one are k + 1 steps. */
  lemma {:induction false} IterateShift(step: nat -> nat, p: nat, k: nat)
    ensures Iterate(step, step(p), k) == Iterate(step, p, k + 1)
  {
    if k > 0 {
      IterateShift(step, p, k - 1);
    }
  }

  /** m + n steps are m steps followed by n steps. */
  lemma {:induction false} IterateAppend(step: nat -> nat, p: nat, m: nat, n: nat)
    ensures Iterate(step, p, m + n) == Iterate(step, Iterate(step, p, m), n)
    decreases n
  {
    if n > 0 {
      IterateAppend(step, p, m, n - 1);
    }
  }

  /** When every step moves the cursor forward, k steps move it at least k places. */
  lemma {:induction false} IterateGrows(step: nat -> nat, p: nat, k: nat)
    requires forall q: nat :: q < step(q)
    ensures p + k <= Iterate(step, p, k)
  {
    if k > 0 {
      IterateGrows(step, p, k - 1);
    }
  }

  /** The k-th output of a trace is the output at the cursor after k steps. */
  lemma {:induction false} TraceAt<T>(step: nat -> nat, out: nat -> T, p: nat, n: nat, k: nat)
    requires k < n
    ensures Trace(step, out, p, n)[k] == out(Iterate(step, p, k))
    decreases n
  {
    if k > 0 {
      TraceAt(step, out, step(p), n - 1, k - 1);
      IterateShift(step, p, k - 1);
    }
  }

  /** The outputs of m + n steps are those of m steps followed by those of n steps from where
      the first m left the cursor. */
  lemma {:induction false} TraceAppend<T>(step: nat -> nat, out: nat -> T, p: nat, m: nat, n: nat)
    ensures Trace(step, out, p, m + n) == Trace(step, out, p, m) + Trace(step, out, Iterate(step, p, m), n)
    decreases m
  {
    if m > 0 {
      TraceAppend(step, out, step(p), m - 1, n);
      IterateShift(step, p, m - 1);
      assert Trace(step, out, p, m + n) == [out(p)] + Trace(step, out, step(p), m - 1 + n);
    }
  }

  /** A list of cursors, each one step after the one before, with the output at each: the trace
      from the first cursor is that list of outputs, and the steps end at the last cursor. */
  lemma {:induction false} TraceFromSteps<T>(step: nat -> nat, out: nat -> T, ps: seq<nat>, ts: seq<T>)
    requires |ps| == |ts| + 1
    requires forall i :: 0 <= i < |ts| ==> out(ps[i]) == ts[i] && step(ps[i]) == ps[i + 1]
    ensures Trace(step, out, ps[0], |ts|) == ts
    ensures Iterate(step, ps[0], |ts|) == ps[|ts|]
  {
    if |ts| > 0 {
      TraceFromSteps(step, out, ps[1..], ts[1..]);
      assert ts == [ts[0]] + ts[1..];
      IterateShift(step, ps[0], |ts| - 1);
    }
  }
}
