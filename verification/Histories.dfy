/** Questions about the past: something happened that asks for it, and nothing since took it back. */
module Histories {

  /** An event on, with no event off after it; both may depend on what went before. */
  ghost predicate Holds<E>(events: seq<E>, on: (seq<E>, E) -> bool, off: (seq<E>, E) -> bool) {
    exists j :: HoldsSince(events, on, off, j)
  }

  ghost predicate HoldsSince<E>(events: seq<E>, on: (seq<E>, E) -> bool, off: (seq<E>, E) -> bool, j: nat) {
    && j < |events| && on(events[..j], events[j])
    && forall i: nat :: j < i < |events| ==> !Occurs(events, off, i)
  }

  ghost predicate Occurs<E>(events: seq<E>, kind: (seq<E>, E) -> bool, i: nat)
    requires i < |events|
  {
    kind(events[..i], events[i])
  }

  lemma Within<E>(events: seq<E>, e: E, on: (seq<E>, E) -> bool, off: (seq<E>, E) -> bool, j: nat)
    requires j < |events|
    ensures HoldsSince(events + [e], on, off, j) <==> HoldsSince(events, on, off, j) && !off(events, e)
  {
    var all, n := events + [e], |events|;
    assert all[..n] == events && all[n] == e && all[..j] == events[..j];
    assert Occurs(all, off, n) <==> off(events, e);
    forall i: nat | i < n
      ensures Occurs(all, off, i) <==> Occurs(events, off, i)
    {
      assert all[..i] == events[..i];
    }
  }

  /** One more event decides, or nothing changes. */
  lemma HoldsStep<E>(events: seq<E>, e: E, on: (seq<E>, E) -> bool, off: (seq<E>, E) -> bool)
    ensures Holds(events + [e], on, off) <==> on(events, e) || (Holds(events, on, off) && !off(events, e))
  {
    var all, n := events + [e], |events|;
    assert all[..n] == events && all[n] == e;
    if Holds(all, on, off) {
      var j: nat :| HoldsSince(all, on, off, j);
      if j < n {
        Within(events, e, on, off, j);
      }
    }
    if on(events, e) {
      assert HoldsSince(all, on, off, n);
    } else if Holds(events, on, off) && !off(events, e) {
      var j: nat :| HoldsSince(events, on, off, j);
      Within(events, e, on, off, j);
    }
  }

  lemma NothingHolds<E>(on: (seq<E>, E) -> bool, off: (seq<E>, E) -> bool)
    ensures !Holds([], on, off)
  {
  }
}
