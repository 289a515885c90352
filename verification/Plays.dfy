/** Runs of a deterministic machine: a list of actions played from a state. */
module Plays {
  import opened Wrappers

  /** The outcome of playing actions one after the other; None when one was not enabled. */
  ghost function Play<C, E>(step: (C, E) -> Option<C>, c: C, es: seq<E>): Option<C>
    decreases |es|
  {
    if es == [] then Some(c)
    else match step(c, es[0])
      case None => None
      case Some(d) => Play(step, d, es[1..])
  }

  /** Every prefix of a played list plays too: it is where a crash would have stopped it. */
  lemma {:induction false} PlayPrefix<C, E>(step: (C, E) -> Option<C>, c: C, es: seq<E>, k: nat)
    requires Play(step, c, es).Some? && k <= |es|
    ensures Play(step, c, es[..k]).Some?
    decreases k
  {
    if k > 0 {
      PlayPrefix(step, step(c, es[0]).value, es[1..], k - 1);
      assert es[..k][1..] == es[1..][..k - 1];
    }
  }

  /** A property of the start that every step keeps holds after every play. */
  lemma {:induction false} PlayInvariant<C(!new), E(!new)>(
    step: (C, E) -> Option<C>, c: C, es: seq<E>, inv: C -> bool)
    requires Play(step, c, es).Some? && inv(c)
    requires forall d: C, e: E {:trigger step(d, e)} :: inv(d) && step(d, e).Some? ==> inv(step(d, e).value)
    ensures inv(Play(step, c, es).value)
    decreases |es|
  {
    if es != [] {
      PlayInvariant(step, step(c, es[0]).value, es[1..], inv);
    }
  }

  lemma {:induction false} PlayConcat<C, E>(step: (C, E) -> Option<C>, c: C, a: seq<E>, d: C, b: seq<E>)
    requires Play(step, c, a) == Some(d)
    ensures Play(step, c, a + b) == Play(step, d, b)
    decreases |a|
  {
    if a == [] {
      assert a + b == b;
    } else {
      PlayConcat(step, step(c, a[0]).value, a[1..], d, b);
      assert (a + b)[1..] == a[1..] + b;
    }
  }

  lemma PlayOne<C, E>(step: (C, E) -> Option<C>, c: C, e: E)
    ensures Play(step, c, [e]) == step(c, e)
  {
    if step(c, e).Some? {
      assert Play(step, step(c, e).value, [e][1..]) == Some(step(c, e).value);
    }
  }
}
