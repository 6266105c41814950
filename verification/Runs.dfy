/** Finite histories of a state machine given by its step function and the guard of each step. */
module Runs {

  /** The state a history leads to. */
  ghost function Replay<S, E>(apply: (S, E) -> S, start: S, h: seq<E>): S {
    if h == [] then start else apply(Replay(apply, start, h[..|h| - 1]), h[|h| - 1])
  }

  /** Every event of the history was enabled where it happened. */
  ghost predicate Legal<S, E>(apply: (S, E) -> S, enabled: (S, E) -> bool, start: S, h: seq<E>) {
    h == [] ||
    (&& Legal(apply, enabled, start, h[..|h| - 1])
     && enabled(Replay(apply, start, h[..|h| - 1]), h[|h| - 1]))
  }

  lemma Extend<S, E>(apply: (S, E) -> S, enabled: (S, E) -> bool, start: S, h: seq<E>, e: E)
    requires Legal(apply, enabled, start, h) && enabled(Replay(apply, start, h), e)
    ensures Legal(apply, enabled, start, h + [e])
    ensures Replay(apply, start, h + [e]) == apply(Replay(apply, start, h), e)
  {
    assert (h + [e])[..|h + [e]| - 1] == h;
  }

  /** Legality is prefix-closed, and each event links the states around it. */
  lemma {:induction false} Prefix<S, E>(apply: (S, E) -> S, enabled: (S, E) -> bool, start: S, h: seq<E>, i: nat)
    requires Legal(apply, enabled, start, h) && i <= |h|
    ensures Legal(apply, enabled, start, h[..i])
    ensures i < |h| ==> enabled(Replay(apply, start, h[..i]), h[i])
    ensures i < |h| ==> Replay(apply, start, h[..i + 1]) == apply(Replay(apply, start, h[..i]), h[i])
  {
    if i == |h| {
      assert h[..i] == h;
    } else {
      var init := h[..|h| - 1];
      if i < |init| {
        Prefix(apply, enabled, start, init, i);
        assert init[..i] == h[..i] && init[..i + 1] == h[..i + 1] && init[i] == h[i];
      } else {
        assert h[..i] == init && h[..i + 1] == h;
      }
    }
  }

  /** What holds at the start and is kept by every enabled step holds at the end of every legal history. */
  lemma {:induction false} Invariant<S(!new), E(!new)>(
      apply: (S, E) -> S, enabled: (S, E) -> bool, inv: S -> bool, start: S, h: seq<E>)
    requires inv(start)
    requires forall s, e :: inv(s) && enabled(s, e) ==> inv(apply(s, e))
    requires Legal(apply, enabled, start, h)
    ensures inv(Replay(apply, start, h))
  {
    if h != [] {
      Invariant(apply, enabled, inv, start, h[..|h| - 1]);
    }
  }
}
