/** Where a run of elements sits inside a longer sequence. */
module Sequences {
  /** `u` appears in `ts` starting at position `i`. */
  ghost predicate Occurs<T>(u: seq<T>, ts: seq<T>, i: nat) {
    i + |u| <= |ts| && forall k :: 0 <= k < |u| ==> ts[i + k] == u[k]
  }

  lemma OccursConcat<T>(a: seq<T>, b: seq<T>, ts: seq<T>, i: nat)
    requires Occurs(a + b, ts, i)
    ensures Occurs(a, ts, i) && Occurs(b, ts, i + |a|)
  {
    forall k | 0 <= k < |a| ensures ts[i + k] == a[k] {
      assert (a + b)[k] == a[k];
    }
    forall k | 0 <= k < |b| ensures ts[i + |a| + k] == b[k] {
      assert (a + b)[|a| + k] == b[k];
    }
  }

  lemma OccursThree<T>(a: seq<T>, t: T, b: seq<T>, ts: seq<T>, i: nat)
    requires Occurs(a + [t] + b, ts, i)
    ensures Occurs(a, ts, i) && ts[i + |a|] == t && Occurs(b, ts, i + |a| + 1)
  {
    OccursConcat(a + [t], b, ts, i);
    OccursConcat(a, [t], ts, i);
    assert [t][0] == t;
  }

  lemma OccursTwo<T>(t: T, b: seq<T>, ts: seq<T>, i: nat)
    requires Occurs([t] + b, ts, i)
    ensures ts[i] == t && Occurs(b, ts, i + 1)
  {
    OccursConcat([t], b, ts, i);
    assert [t][0] == t;
  }
}
