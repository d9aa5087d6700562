/** Sequence and arithmetic vocabulary shared by the whole model. */
module Util {

  datatype Option<+T> = None | Some(value: T)

  ghost predicate Distinct<T>(s: seq<T>) {
    forall i, j :: 0 <= i < j < |s| ==> s[i] != s[j]
  }

  /** Python's s[lo:hi] for non-negative bounds: out-of-range bounds are clamped. */
  function Slice<T>(s: seq<T>, lo: nat, hi: nat): (r: seq<T>)
    ensures lo <= hi <= |s| ==> r == s[lo..hi]
  {
    var h := if hi < |s| then hi else |s|;
    if lo <= h then s[lo..h] else []
  }

  function Min(a: int, b: int): int {
    if a <= b then a else b
  }

  /** Python's -(-a // b) for a >= 0 and b > 0. */
  function CeilDiv(a: nat, b: nat): (c: nat)
    requires b > 0
  {
    (a + b - 1) / b
  }

  /** Python's a // b for a >= 0 and b > 0. */
  function FloorDiv(a: nat, b: nat): (c: nat)
    requires b > 0
  {
    a / b
  }

  /** list.remove: drop the first occurrence. */
  function Remove<T(==)>(s: seq<T>, x: T): (r: seq<T>)
    ensures x !in s ==> r == s
    ensures x in s ==> |r| == |s| - 1
    ensures forall y :: y in r ==> y in s
    ensures forall y :: y in s && y != x ==> y in r
  {
    if s == [] then []
    else if s[0] == x then s[1..]
    else [s[0]] + Remove(s[1..], x)
  }

  lemma {:induction false} RemoveDistinct<T>(s: seq<T>, x: T)
    requires Distinct(s)
    ensures Distinct(Remove(s, x)) && x !in Remove(s, x)
  {
    if s != [] {
      var t := s[1..];
      assert Distinct(t) && s[0] !in t by {
        forall i, j | 0 <= i < j < |t| ensures t[i] != t[j] { assert t[i] == s[i + 1] && t[j] == s[j + 1]; }
      }
      if s[0] != x {
        RemoveDistinct(t, x);
        DistinctPrepend(s[0], Remove(t, x));
      }
    }
  }

  lemma DistinctPrepend<T>(x: T, s: seq<T>)
    requires Distinct(s) && x !in s
    ensures Distinct([x] + s)
  {
  }

  lemma DistinctAppend<T>(s: seq<T>, x: T)
    requires Distinct(s) && x !in s
    ensures Distinct(s + [x])
  {
  }

  lemma CeilDivBounds(a: nat, b: nat)
    requires b > 0
    ensures a <= CeilDiv(a, b) * b
    ensures a > 0 ==> CeilDiv(a, b) > 0 && (CeilDiv(a, b) - 1) * b < a
    ensures a == 0 ==> CeilDiv(a, b) == 0
  {
    var c := (a + b - 1) / b;
    var m := (a + b - 1) % b;
    assert a + b - 1 == c * b + m;
    assert (c - 1) * b == c * b - b;
    if a == 0 && c > 0 {
      MulMono(1, c, b);
    }
  }

  lemma MulMono(x: int, y: int, b: nat)
    requires x <= y
    ensures x * b <= y * b
  {
  }

  lemma MulStrict(x: int, y: int, b: nat)
    requires x * b < y * b
    ensures x < y
  {
    if y <= x { MulMono(y, x, b); }
  }

  /** a number of blocks q is the ceiling exactly when it is the least one that covers a */
  lemma CeilDivUnique(a: nat, b: nat, q: nat)
    requires b > 0
    requires a <= q * b
    requires q == 0 || (q - 1) * b < a
    ensures CeilDiv(a, b) == q
  {
    CeilDivBounds(a, b);
    var c := CeilDiv(a, b);
    if c < q {
      MulMono(c, q - 1, b);
    } else if q < c {
      MulMono(q, c - 1, b);
    }
  }

  lemma CeilDivMono(a: nat, a': nat, b: nat)
    requires b > 0 && a <= a'
    ensures CeilDiv(a, b) <= CeilDiv(a', b)
  {
    CeilDivBounds(a, b);
    CeilDivBounds(a', b);
    if CeilDiv(a', b) < CeilDiv(a, b) {
      MulMono(CeilDiv(a', b), CeilDiv(a, b) - 1, b);
    }
  }

  lemma FloorBounds(a: nat, b: nat)
    requires b > 0
    ensures FloorDiv(a, b) * b <= a < FloorDiv(a, b) * b + b
    ensures (FloorDiv(a, b) + 1) * b == FloorDiv(a, b) * b + b
    ensures FloorDiv(a, b) <= CeilDiv(a, b)
  {
    var q := FloorDiv(a, b);
    assert a == q * b + a % b;
    CeilDivBounds(a, b);
    if CeilDiv(a, b) < q {
      MulMono(CeilDiv(a, b) + 1, q, b);
    }
  }

  /** the quotient and remainder of q*b+r */
  lemma DivModUnique(q: nat, r: nat, b: nat)
    requires r < b
    ensures FloorDiv(q * b + r, b) == q && (q * b + r) % b == r
  {
    var n := q * b + r;
    FloorBounds(n, b);
    assert n == (FloorDiv(n, b)) * b + n % b;
    if FloorDiv(n, b) < q {
      MulMono(FloorDiv(n, b) + 1, q, b);
    } else if q < FloorDiv(n, b) {
      MulMono(q + 1, FloorDiv(n, b), b);
    }
  }

  lemma FloorMono(a: nat, a': nat, b: nat)
    requires b > 0 && a <= a'
    ensures FloorDiv(a, b) <= FloorDiv(a', b)
  {
    FloorBounds(a, b);
    FloorBounds(a', b);
    if FloorDiv(a', b) < FloorDiv(a, b) {
      MulMono(FloorDiv(a', b) + 1, FloorDiv(a, b), b);
    }
  }

  lemma FloorUnique(a: nat, b: nat, q: nat)
    requires b > 0
    requires q * b <= a < q * b + b
    ensures FloorDiv(a, b) == q
  {
    DivModUnique(q, a - q * b, b);
  }

  lemma DivModParts(p: nat, b: nat)
    requires b > 0
    ensures p == FloorDiv(p, b) * b + p % b && p % b < b
  {
  }
}
