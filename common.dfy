/** Failure-compatible wrappers used by every module of the model. */
module Wrappers {

  datatype Option<+T> = None | Some(value: T)

  /** A value, or the error the source raises instead of returning one. */
  datatype Result<+T, +E> = Ok(value: T) | Err(error: E)
}

/** Integer helpers shared by the parser and the decoders. */
module Arith {

  /** Python's `2**k` for a natural exponent. */
  function Pow2(k: nat): (r: nat)
    ensures r >= 1
  {
    if k == 0 then 1 else 2 * Pow2(k - 1)
  }

  /** `d` doubled `k` times (`d *= 2` repeated), the way the depth schedules grow. */
  function Doubled(d: int, k: nat): (r: int)
    ensures d > 0 ==> r > 0
  {
    if k == 0 then d else 2 * Doubled(d, k - 1)
  }

  /** Doubling `k` times multiplies by `2**k`. */
  lemma {:induction false} DoubledIsPow2(d: int, k: nat)
    ensures Doubled(d, k) == d * Pow2(k)
  {
    if k > 0 {
      DoubledIsPow2(d, k - 1);
      assert d * Pow2(k) == 2 * (d * Pow2(k - 1));
    }
  }

  /** A positive value doubled more times is larger. */
  lemma {:induction false} DoubledMonotone(d: int, a: nat, b: nat)
    requires d > 0 && a < b
    ensures Doubled(d, a) < Doubled(d, b)
    decreases b - a
  {
    if a + 1 < b {
      DoubledMonotone(d, a + 1, b);
    }
  }

  /** `2**(a + b) == 2**a * 2**b`. */
  lemma {:induction false} Pow2Add(a: nat, b: nat)
    ensures Pow2(a + b) == Pow2(a) * Pow2(b)
  {
    if a > 0 {
      Pow2Add(a - 1, b);
      assert Pow2(a + b) == 2 * Pow2(a - 1 + b);
    }
  }

  /** Multiplying by a positive factor keeps the order. */
  lemma MulMono(a: int, b: int, m: int)
    requires a <= b && m > 0
    ensures a * m <= b * m
  {
    assert b * m - a * m == (b - a) * m;
  }

  /** Division undoes multiplication exactly. */
  lemma DivExact(q: int, m: int)
    requires m > 0
    ensures (q * m) / m == q
    ensures (q * m) % m == 0
  {
    var d := (q * m) / m;
    var r := (q * m) % m;
    assert q * m == d * m + r && 0 <= r < m;
    assert (d + 1) * m == d * m + m && (q + 1) * m == q * m + m;
    if q > d {
      MulMono(d + 1, q, m);
    } else if q < d {
      MulMono(q + 1, d, m);
    }
  }

  function Min(a: int, b: int): int { if a <= b then a else b }

  function Max(a: int, b: int): int { if a >= b then a else b }
}

/** Membership facts about sets and maps that the loops over dictionary keys need. */
module MapFacts {

  lemma EmptyIfNoMember(s: set<int>)
    requires forall x :: x !in s
    ensures s == {}
  {
    var e: set<int> := {};
    assert forall x :: x in s <==> x in e;
    assert s == e;
  }

  lemma NonEmptyHasMember(s: set<int>)
    requires s != {}
    ensures exists x :: x in s
  {
    if forall x :: x !in s {
      EmptyIfNoMember(s);
      assert false;
    }
  }

  /** Two maps with the same keys and the same value at every key are equal. */
  lemma SameMap<V>(a: map<int, V>, b: map<int, V>)
    requires forall k :: k in a <==> k in b
    requires forall k :: k in a ==> a[k] == b[k]
    ensures a == b
  {
    assert forall k :: k in a.Keys <==> k in b.Keys;
    assert a.Keys == b.Keys;
    assert forall k :: k in a.Keys ==> a[k] == b[k];
  }
}
