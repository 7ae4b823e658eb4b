// Vocabulary shared by every part of the model: optional values, signed 64-bit
// arithmetic as Go performs it, finite sums over row identifiers, and the
// "newest n rows" selection used by ORDER BY ... DESC LIMIT n queries.

module Options {
  datatype Option<+T> = None | Some(value: T)
}

module Int64 {
  const MAX: int := 0x7FFF_FFFF_FFFF_FFFF
  const MIN: int := -0x8000_0000_0000_0000
  const SPAN: int := 0x1_0000_0000_0000_0000

  predicate InRange(x: int) {
    MIN <= x <= MAX
  }

  // Go's int64 arithmetic keeps the low 64 bits and reads them as two's complement.
  function Wrap(x: int): (r: int)
    ensures InRange(r)
    ensures InRange(x) ==> r == x
  {
    var low := x % SPAN;
    if low <= MAX then low else low - SPAN
  }

  // The guard "nodes > MaxInt64/per" of checkReservations rejects exactly the
  // products that would not fit.
  lemma QuotientGuard(nodes: int, per: int)
    requires nodes >= 0 && per > 0
    ensures nodes > MAX / per <==> nodes * per > MAX
  {
    var q := MAX / per;
    assert q * per <= MAX < (q + 1) * per;
    if nodes <= q {
      assert nodes * per <= q * per by { MulMono(nodes, q, per); }
    } else {
      assert (q + 1) * per <= nodes * per by { MulMono(q + 1, nodes, per); }
    }
  }

  lemma MulMono(a: int, b: int, c: int)
    requires a <= b && c >= 0
    ensures a * c <= b * c
  {
    assert (b - a) * c >= 0;
  }
}

module Counting {
  // Sum of w over the identifiers 0 .. n-1.
  function Sum(w: nat -> int, n: nat): (s: int) {
    if n == 0 then 0 else Sum(w, n - 1) + w(n - 1)
  }

  function Indicator(s: set<nat>): nat -> int {
    (i: nat) => if i in s then 1 else 0
  }

  lemma {:induction false} SumSame(v: nat -> int, w: nat -> int, n: nat)
    requires forall i: nat :: i < n ==> v(i) == w(i)
    ensures Sum(v, n) == Sum(w, n)
  {
    if n > 0 { SumSame(v, w, n - 1); }
  }

  lemma {:induction false} SumAdd(u: nat -> int, v: nat -> int, w: nat -> int, n: nat)
    requires forall i: nat :: i < n ==> w(i) == u(i) + v(i)
    ensures Sum(w, n) == Sum(u, n) + Sum(v, n)
  {
    if n > 0 { SumAdd(u, v, w, n - 1); }
  }

  lemma {:induction false} SumLess(v: nat -> int, w: nat -> int, n: nat)
    requires forall i: nat :: i < n ==> v(i) <= w(i)
    ensures Sum(v, n) <= Sum(w, n)
  {
    if n > 0 { SumLess(v, w, n - 1); }
  }

  lemma {:induction false} SumZero(w: nat -> int, n: nat)
    requires forall i: nat :: i < n ==> w(i) == 0
    ensures Sum(w, n) == 0
  {
    if n > 0 { SumZero(w, n - 1); }
  }

  // Changing the summand at one identifier changes the sum by the same amount.
  lemma {:induction false} SumPoint(v: nat -> int, w: nat -> int, n: nat, k: nat)
    requires k < n
    requires forall i: nat :: i < n && i != k ==> v(i) == w(i)
    ensures Sum(w, n) == Sum(v, n) + w(k) - v(k)
  {
    if k == n - 1 { SumSame(v, w, n - 1); } else { SumPoint(v, w, n - 1, k); }
  }

  // Extending the range over identifiers that contribute nothing.
  lemma {:induction false} SumExtend(w: nat -> int, n: nat, m: nat)
    requires n <= m
    requires forall i: nat :: n <= i < m ==> w(i) == 0
    ensures Sum(w, m) == Sum(w, n)
  {
    if n < m { SumExtend(w, n, m - 1); }
  }

  lemma {:induction false} SumIndicator(s: set<nat>, n: nat)
    requires forall i :: i in s ==> i < n
    ensures Sum(Indicator(s), n) == |s|
  {
    if n == 0 {
      assert s == {};
    } else {
      var t := s - {n - 1};
      SumIndicator(t, n - 1);
      SumSame(Indicator(s), Indicator(t), n - 1);
    }
  }
}

module Selection {
  ghost function Largest(s: set<nat>): (m: nat)
    requires s != {}
    ensures m in s && forall x :: x in s ==> x <= m
  {
    var x :| x in s;
    if s == {x} then x else
      var y := Largest(s - {x});
      assert forall z :: z in s ==> z == x || z in s - {x};
      if x > y then x else y
  }

  // ORDER BY created_at DESC LIMIT k: identifiers grow with creation time.
  ghost function Newest(s: set<nat>, k: nat): (r: set<nat>)
    ensures r <= s
    ensures |r| == if k < |s| then k else |s|
    ensures forall x, y :: x in r && y in s && y !in r ==> y < x
    decreases k
  {
    if k == 0 || s == {} then {} else
      var m := Largest(s);
      var rest := Newest(s - {m}, k - 1);
      assert forall y :: y in s && y != m ==> y in s - {m};
      {m} + rest
  }

  // Those three properties leave no freedom: they determine the selection.
  lemma NewestUnique(s: set<nat>, k: nat, r: set<nat>)
    requires r <= s && |r| == (if k < |s| then k else |s|)
    requires forall x, y :: x in r && y in s && y !in r ==> y < x
    ensures r == Newest(s, k)
  {
    var q := Newest(s, k);
    if q <= r {
      SubsetCard(q, r);
    } else if r <= q {
      SubsetCard(r, q);
    }
    // Otherwise x in r - q and y in q - r would satisfy both y < x and x < y.
  }

  lemma SubsetCard(a: set<nat>, b: set<nat>)
    requires a <= b && |a| == |b|
    ensures a == b
  {
    if x :| x in b && x !in a {
      CardMono(a, b - {x});
    }
  }

  lemma {:induction false} CardMono(a: set<nat>, b: set<nat>)
    requires a <= b
    ensures |a| <= |b|
  {
    if x :| x in a {
      CardMono(a - {x}, b - {x});
    }
  }
}
