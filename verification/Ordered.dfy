/** Going through an ordered list with a step that may call a halt: the shape of consuming a log. */
module Ordered {
  /** The state reached and the number of elements gone past. The step says whether to go on; the element it
      halts at may still change the state, but is not gone past. */
  function Run<S(!new), E(!new)>(s: S, es: seq<E>, step: (S, E) -> (S, bool)): (r: (S, nat))
    ensures r.1 <= |es|
    decreases |es|
  {
    if es == [] then (s, 0)
    else
      var n := |es| - 1;
      var before := Run(s, es[..n], step);
      if before.1 < n then before
      else
        var now := step(before.0, es[n]);
        (now.0, if now.1 then n + 1 else n)
  }

  lemma RunNext<S(!new), E(!new)>(s: S, es: seq<E>, step: (S, E) -> (S, bool), i: nat)
    requires i < |es| && Run(s, es[..i], step).1 == i
    ensures var now := step(Run(s, es[..i], step).0, es[i]);
            Run(s, es[..i + 1], step) == (now.0, if now.1 then i + 1 else i)
  {
    assert es[..i + 1][..i] == es[..i];
  }

  /** Once halted, the rest of the list does not matter. */
  lemma {:induction false} RunStopped<S(!new), E(!new)>(s: S, es: seq<E>, step: (S, E) -> (S, bool), i: nat)
    requires i <= |es| && Run(s, es[..i], step).1 < i
    ensures Run(s, es, step) == Run(s, es[..i], step)
    decreases |es|
  {
    if i == |es| {
      assert es[..i] == es;
    } else {
      var front := es[..|es| - 1];
      assert front[..i] == es[..i];
      RunStopped(s, front, step, i);
    }
  }

  /** One more element, from the state reached to the next; a halt there is the end. */
  lemma OneMore<S(!new), E(!new)>(s: S, es: seq<E>, step: (S, E) -> (S, bool), i: nat, mid: S, now: (S, bool))
    requires i < |es| && Run(s, es[..i], step) == (mid, i) && step(mid, es[i]) == now
    ensures Run(s, es[..i + 1], step) == (now.0, if now.1 then i + 1 else i)
    ensures !now.1 ==> Run(s, es, step) == (now.0, i)
  {
    RunNext(s, es, step, i);
    if !now.1 { RunStopped(s, es, step, i + 1); }
  }

  lemma RunPrefix<S(!new), E(!new)>(s: S, es: seq<E>, step: (S, E) -> (S, bool), i: nat)
    requires i <= Run(s, es, step).1
    ensures Run(s, es[..i], step).1 == i
  {
    if Run(s, es[..i], step).1 < i { RunStopped(s, es, step, i); }
  }

  lemma {:induction false} RunGrows<S(!new), E(!new)>(s: S, es: seq<E>, step: (S, E) -> (S, bool), i: nat)
    requires i <= |es|
    ensures Run(s, es[..i], step).1 <= Run(s, es, step).1
    decreases |es|
  {
    if i == |es| {
      assert es[..i] == es;
    } else {
      var front := es[..|es| - 1];
      assert front[..i] == es[..i];
      RunGrows(s, front, step, i);
    }
  }

  /** Every element gone past said to go on. */
  lemma WentOn<S(!new), E(!new)>(s: S, es: seq<E>, step: (S, E) -> (S, bool), i: nat)
    requires i < Run(s, es, step).1
    ensures step(Run(s, es[..i], step).0, es[i]).1
  {
    RunPrefix(s, es, step, i);
    RunPrefix(s, es, step, i + 1);
    RunNext(s, es, step, i);
  }

  /** The first element not gone past said to halt, and nothing after it left a trace. */
  lemma HaltedAt<S(!new), E(!new)>(s: S, es: seq<E>, step: (S, E) -> (S, bool), k: nat)
    requires k == Run(s, es, step).1 < |es|
    ensures !step(Run(s, es[..k], step).0, es[k]).1
    ensures Run(s, es, step).0 == step(Run(s, es[..k], step).0, es[k]).0
  {
    RunPrefix(s, es, step, k);
    RunNext(s, es, step, k);
    RunGrows(s, es, step, k + 1);
    RunStopped(s, es, step, k + 1);
  }

  /** Every element goes on, from the planned state to the next planned state. */
  ghost predicate IsPlanned<S(!new), E(!new)>(es: seq<E>, step: (S, E) -> (S, bool), plan: nat -> S) {
    forall i :: 0 <= i < |es| ==> step(plan(i), es[i]) == (plan(i + 1), true)
  }

  /** When every element goes on as planned, all are gone past. */
  lemma {:induction false} AllGoOn<S(!new), E(!new)>(es: seq<E>, step: (S, E) -> (S, bool), plan: nat -> S)
    requires IsPlanned(es, step, plan)
    ensures Run(plan(0), es, step) == (plan(|es|), |es|)
    decreases |es|
  {
    if es != [] {
      var n := |es| - 1;
      assert forall i | 0 <= i < n :: es[..n][i] == es[i];
      AllGoOn(es[..n], step, plan);
    }
  }

  function Repeat<S(!new)>(f: S -> S, s: S, times: nat): S {
    if times == 0 then s else f(Repeat(f, s, times - 1))
  }
  lemma {:induction false} RepeatFixed<S(!new)>(f: S -> S, s: S, times: nat)
    requires f(s) == s
    ensures Repeat(f, s, times) == s
  {
    if times > 0 { RepeatFixed(f, s, times - 1); }
  }
}
