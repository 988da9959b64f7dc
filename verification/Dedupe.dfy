/** Skipping ids that were taken in recently, with a window that can be cleared. */
module Dedupe {

  function LastOf<T>(s: seq<T>, n: nat): (r: seq<T>)
    ensures |r| == if |s| <= n then |s| else n
  {
    if |s| <= n then s else s[|s| - n..]
  }

  /** Every id taken in so far, and how many there were whenever the window was cleared. */
  datatype Log = Log(ids: seq<string>, cuts: seq<nat>)

  const EMPTY: Log := Log([], [])

  function Start(l: Log): nat {
    if l.cuts == [] then 0 else l.cuts[|l.cuts| - 1]
  }

  /** The ids taken in since the window was last cleared. */
  function Since(l: Log): seq<string> {
    if Start(l) <= |l.ids| then l.ids[Start(l)..] else []
  }

  function Window(l: Log, n: nat): seq<string> {
    LastOf(Since(l), n)
  }

  function Taken(l: Log, id: string): Log {
    l.(ids := l.ids + [id])
  }

  function Cleared(l: Log): Log {
    l.(cuts := l.cuts + [|l.ids|])
  }

  lemma TakingAppends(l: Log, id: string)
    requires Start(l) <= |l.ids|
    ensures Start(Taken(l, id)) == Start(l) && Since(Taken(l, id)) == Since(l) + [id]
  {
  }

  /** An id in the window is skipped. */
  function Offered(l: Log, n: nat, id: string): Log {
    if id in Window(l, n) then l else Taken(l, id)
  }

  // ---------- Nearby ids differ ----------

  /** The window was cleared after id i and before id j. */
  ghost predicate CutBetween(l: Log, i: nat, j: nat) {
    exists c <- l.cuts :: i < c <= j
  }

  /** Ids at most n apart differ, unless the window was cleared between them. */
  ghost predicate Separate(l: Log, n: nat) {
    && Start(l) <= |l.ids|
    && forall i: nat, j: nat :: i < j < |l.ids| && j <= i + n && !CutBetween(l, i, j) ==> l.ids[i] != l.ids[j]
  }

  lemma TakingSeparates(l: Log, n: nat, id: string)
    requires Separate(l, n) && id !in Window(l, n)
    ensures Separate(Taken(l, id), n)
  {
    var t := Taken(l, id);
    assert Start(t) == Start(l) && (l.cuts != [] ==> Start(l) in t.cuts);
    forall i: nat, j: nat | i < j < |t.ids| && j <= i + n && !CutBetween(t, i, j)
      ensures t.ids[i] != t.ids[j]
    {
      if j < |l.ids| {
        assert !CutBetween(l, i, j);
      } else if Start(l) <= i {
        var since := Since(l);
        assert since[i - Start(l)] == l.ids[i];
        assert Window(l, n)[|Window(l, n)| - (|l.ids| - i)] == l.ids[i];
      }
    }
  }

  lemma ClearingSeparates(l: Log, n: nat)
    requires Separate(l, n)
    ensures Separate(Cleared(l), n)
  {
    var t := Cleared(l);
    forall i: nat, j: nat | i < j < |t.ids| && j <= i + n && !CutBetween(t, i, j)
      ensures t.ids[i] != t.ids[j]
    {
      assert forall c <- l.cuts :: c in t.cuts;
      assert !CutBetween(l, i, j);
    }
  }

  lemma EmptyIsSeparate(n: nat)
    ensures Separate(EMPTY, n)
  {
  }

  // ---------- When an id is taken in again ----------

  /** One log continues another, taking in fewer than n other ids. */
  ghost predicate Continues(l: Log, m: Log, n: nat, id: string) {
    && l.ids <= m.ids && l.cuts <= m.cuts && |m.ids| < |l.ids| + n
    && id !in m.ids[|l.ids|..]
    && forall k :: |l.cuts| <= k < |m.cuts| ==> |l.ids| <= m.cuts[k] <= |m.ids|
  }

  /** An id just taken in is taken in again before n others if and only if the window was cleared since. */
  lemma TakenAgainIffCleared(l: Log, m: Log, n: nat, id: string)
    requires Start(l) <= |l.ids| && Continues(Taken(l, id), m, n, id)
    ensures Offered(m, n, id) == Taken(m, id) <==> Taken(l, id).cuts != m.cuts
  {
    var t := Taken(l, id);
    assert t.ids[|l.ids|] == id;
    assert Offered(m, n, id) == m ==> Offered(m, n, id) != Taken(m, id) by {
      assert |Taken(m, id).ids| == |m.ids| + 1;
    }
    if t.cuts == m.cuts {
      var since, window := Since(m), Window(m, n);
      assert since[|l.ids| - Start(l)] == m.ids[|l.ids|] == id;
      assert window[|window| - (|m.ids| - |l.ids|)] == id;
    } else {
      assert Start(m) == m.cuts[|m.cuts| - 1] >= |t.ids|;
      assert forall x <- Since(m) :: x in m.ids[|t.ids|..];
    }
  }
}
