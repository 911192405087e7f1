/** A memory of the latest distinct entries: at most `cap` of them, kept in the order they came. */
module BoundedMemory {

  function Remember<T(==)>(ids: seq<T>, id: T, cap: nat): seq<T> {
    var added := if id in ids then ids else ids + [id];
    if |added| > cap then added[|added| - cap..] else added
  }

  ghost predicate Distinct<T>(ids: seq<T>) {
    forall i, j :: 0 <= i < j < |ids| ==> ids[i] != ids[j]
  }

  /** The program's insertion followed by its eviction loop. */
  method RememberInPlace<T(==)>(ids: seq<T>, id: T, cap: nat) returns (next: seq<T>)
    ensures next == Remember(ids, id, cap)
  {
    next := if id in ids then ids else ids + [id];
    ghost var added := next;
    while |next| > cap
      invariant |next| <= |added| && next == added[|added| - |next|..]
      invariant |added| > cap ==> |next| >= cap
      invariant |added| <= cap ==> next == added
    {
      next := next[1..];
    }
  }

  function RememberAll<T(==)>(ids: seq<T>, more: seq<T>, cap: nat): seq<T>
    decreases |more|
  {
    if more == [] then ids else RememberAll(Remember(ids, more[0], cap), more[1..], cap)
  }

  lemma RememberKeepsOrder<T>(ids: seq<T>, id: T, cap: nat)
    requires Distinct(ids) && cap > 0
    ensures Distinct(Remember(ids, id, cap)) && Remember(ids, id, cap) != []
    ensures id !in ids ==> id in Remember(ids, id, cap) && Remember(ids, id, cap)[|Remember(ids, id, cap)| - 1] == id
  {
    var added := if id in ids then ids else ids + [id];
    var r := Remember(ids, id, cap);
    assert forall i :: 0 <= i < |r| ==> r[i] == added[|added| - |r| + i];
    assert r[|r| - 1] == added[|added| - 1];
  }

  /** Where one insertion moves the entry at `at`. */
  lemma RememberShifts<T>(ids: seq<T>, at: nat, id: T, cap: nat) returns (to: nat)
    requires at < |ids| && |ids| - at < cap
    ensures var next := Remember(ids, id, cap);
      to < |next| && next[to] == ids[at] && |next| - 1 - to <= |ids| - at
  {
    var added := if id in ids then ids else ids + [id];
    assert added[at] == ids[at];
    to := if |added| > cap then at - (|added| - cap) else at;
  }

  /** An entry with fewer than `cap` newer ones is still remembered after as many insertions as make them `cap` - 1. */
  lemma {:induction false} StaysRemembered<T>(ids: seq<T>, at: nat, more: seq<T>, cap: nat)
    requires at < |ids| && |ids| - 1 - at + |more| < cap
    ensures ids[at] in RememberAll(ids, more, cap)
    decreases |more|
  {
    if more != [] {
      var to := RememberShifts(ids, at, more[0], cap);
      StaysRemembered(Remember(ids, more[0], cap), to, more[1..], cap);
    }
  }

  /** The last `cap` entries, all of them when there are no more. */
  function LastOf<T>(all: seq<T>, cap: nat): seq<T> {
    if |all| <= cap then all else all[|all| - cap..]
  }

  lemma LastOfTwice<T>(all: seq<T>, more: seq<T>, cap: nat)
    ensures LastOf(LastOf(all, cap) + more, cap) == LastOf(all + more, cap)
  {
  }

  lemma DistinctSuffix<T>(all: seq<T>, cut: nat)
    requires Distinct(all) && cut <= |all|
    ensures Distinct(all[cut..])
  {
  }

  /** Distinct new entries leave exactly the last `cap` of all. */
  lemma {:induction false} RememberAllIsLast<T>(ids: seq<T>, more: seq<T>, cap: nat)
    requires Distinct(ids + more) && |ids| <= cap
    ensures RememberAll(ids, more, cap) == LastOf(ids + more, cap)
    decreases |more|
  {
    if more == [] {
      assert ids + more == ids;
    } else {
      var added, next := ids + [more[0]], Remember(ids, more[0], cap);
      assert added + more[1..] == ids + more;
      NewIsLast(ids, more);
      assert next == LastOf(added, cap);
      LastOfTwice(added, more[1..], cap);
      LaterDistinct(added, more[1..], cap);
      RememberAllIsLast(next, more[1..], cap);
    }
  }

  lemma NewIsLast<T>(ids: seq<T>, more: seq<T>)
    requires Distinct(ids + more) && more != []
    ensures more[0] !in ids
  {
    assert (ids + more)[|ids|] == more[0];
    assert forall i :: 0 <= i < |ids| ==> (ids + more)[i] == ids[i];
  }

  lemma LaterDistinct<T>(added: seq<T>, rest: seq<T>, cap: nat)
    requires Distinct(added + rest)
    ensures Distinct(LastOf(added, cap) + rest)
  {
    var cut := |added| - |LastOf(added, cap)|;
    assert LastOf(added, cap) + rest == (added + rest)[cut..];
    DistinctSuffix(added + rest, cut);
  }
}
