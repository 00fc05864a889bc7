// Helpers shared by the sensorfw model: optional values, the C/C++ integer
// operations the sources rely on, and the ascending-key order in which a Qt
// QMap<int, ...> is iterated.
module Common {

  datatype Option<T> = None | Some(value: T)

  /** 2^64: unsigned 64-bit arithmetic (quint64, unsigned long) wraps modulo this. */
  const TWO_64: int := 0x1_0000_0000_0000_0000

  /** A quint64 value. */
  type U64 = x: int | 0 <= x < TWO_64

  /** 2^32: the range of an unsigned int. */
  const TWO_32: int := 0x1_0000_0000

  /** An unsigned int value. */
  type U32 = x: int | 0 <= x < TWO_32

  function Abs(x: int): (r: nat)
    ensures r == x || r == -x
  {
    if x < 0 then -x else x
  }

  /** Difference of two quint64 values as C++ computes it (wrap-around). */
  function Sub64(a: U64, b: U64): (r: U64)
    ensures (r + b) % TWO_64 == a
    ensures a >= b ==> r == a - b
  {
    if a >= b then a - b else a - b + TWO_64
  }

  /**
   * C/C++ integer division, which truncates toward zero; Dafny's `/` is
   * Euclidean and differs from it on negative dividends.
   */
  function DivTrunc(a: int, b: int): (q: int)
    requires b > 0
    ensures a >= 0 ==> 0 <= b * q <= a < b * q + b
    ensures a < 0 ==> b * q - b < a <= b * q <= 0
  {
    if a >= 0 then
      EuclideanQuotientBounds(a, b);
      a / b
    else
      EuclideanQuotientBounds(-a, b);
      assert b * -((-a) / b) == -(b * ((-a) / b));
      -((-a) / b)
  }

  /** For a non-negative dividend, b * (a / b) is the largest multiple of b not above a. */
  lemma EuclideanQuotientBounds(a: int, b: int)
    requires a >= 0 && b > 0
    ensures 0 <= b * (a / b) <= a < b * (a / b) + b
  {
    var q, r := a / b, a % b;
    assert a == b * q + r && 0 <= r < b;
    MulNonNegative(b, q);
  }

  /** Conversion of a double to int in C++: the fraction is dropped (rounding toward zero). */
  function TruncToInt(r: real): (i: int)
    ensures r >= 0.0 ==> i as real <= r < i as real + 1.0
    ensures r < 0.0 ==> i as real - 1.0 < r <= i as real
  {
    if r >= 0.0 then r.Floor else -((-r).Floor)
  }

  function Min(a: int, b: int): int { if a <= b then a else b }

  function Max(a: int, b: int): int { if a >= b then a else b }

  /** Euclidean division of a non-negative value is monotone in the dividend. */
  lemma DivBounds(a: int, n: int, c: int)
    requires n > 0
    ensures a >= n * c ==> a / n >= c
    ensures a <= n * c ==> a / n <= c
  {
    var q, r := a / n, a % n;
    assert a == n * q + r && 0 <= r < n;
    if q < c {
      MulNonNegative(n, c - 1 - q);
      assert n * (c - 1) - n * q == n * (c - 1 - q);
      assert n * (c - 1) == n * c - n;
    }
    if q > c {
      MulNonNegative(n, q - c - 1);
      assert n * q - n * (c + 1) == n * (q - c - 1);
      assert n * (c + 1) == n * c + n;
    }
  }

  lemma MulNonNegative(x: int, y: int)
    requires x >= 0 && y >= 0
    ensures x * y >= 0
  {
  }

  /**
   * The truncating mean of n values that all lie in [lo, hi] lies in [lo, hi]
   * too: n * lo <= sum <= n * hi.
   */
  lemma DivTruncBetween(sum: int, n: int, lo: int, hi: int)
    requires n > 0 && n * lo <= sum <= n * hi
    ensures lo <= DivTrunc(sum, n) <= hi
  {
    var q := DivTrunc(sum, n);
    if sum >= 0 {
      MulCancelLess(n, lo, q + 1);
      MulCancelLess(n, q, hi + 1);
    } else {
      MulCancelLess(n, lo, q + 1);
      MulCancelLess(n, q - 1, hi);
    }
  }

  /** A positive factor can be cancelled from a strict inequality. */
  lemma MulCancelLess(n: int, a: int, b: int)
    requires n > 0 && n * a < n * b
    ensures a < b
  {
    if a >= b {
      MulNonNegative(n, a - b);
    }
  }

  /**
   * The next element of a walk over a set (the keys of a map, say) whose
   * order does not matter.
   */
  method Pick<T>(s: set<T>) returns (x: T)
    requires s != {}
    ensures x in s
  {
    if forall y :: y !in s { assert false; }
    x :| x in s;
  }

  /** Every non-empty finite set of integers has a least element. */
  lemma {:induction false} LeastExists(s: set<int>) returns (m: int)
    requires s != {}
    ensures m in s && forall x :: x in s ==> m <= x
  {
    if forall x :: x !in s { assert false; }
    var y :| y in s;
    if s == {y} {
      m := y;
    } else {
      var m' := LeastExists(s - {y});
      m := if y < m' then y else m';
      assert forall x :: x in s ==> x == y || x in s - {y};
    }
  }

  /**
   * The next key of an ascending walk over a QMap<int, ...>: the least key
   * not yet visited.
   */
  method LeastKey(keys: set<int>) returns (k: int)
    requires keys != {}
    ensures k in keys && forall x :: x in keys ==> k <= x
  {
    ghost var least := LeastExists(keys);
    k :| k in keys && forall x :: x in keys ==> k <= x;
  }

  /** Every non-empty finite set of integers has a greatest element. */
  lemma {:induction false} GreatestExists(s: set<int>) returns (m: int)
    requires s != {}
    ensures m in s && forall x :: x in s ==> x <= m
  {
    if forall x :: x !in s { assert false; }
    var y :| y in s;
    if s == {y} {
      m := y;
    } else {
      var m' := GreatestExists(s - {y});
      m := if y > m' then y else m';
      assert forall x :: x in s ==> x == y || x in s - {y};
    }
  }

  /** The part of s before the first c; all of s when c does not occur. */
  function UpTo(s: string, c: char): (r: string)
    ensures |r| <= |s| && r == s[..|r|] && c !in r
    ensures |r| < |s| ==> s[|r|] == c
  {
    if s == [] || s[0] == c then [] else [s[0]] + UpTo(s[1..], c)
  }

  /**
   * getCleanId: a sensor id without its parameters, that is, the part
   * before the first ';' (idutils.h is not part of this model).
   */
  function CleanId(id: string): (c: string)
    ensures |c| <= |id| && c == id[..|c|] && ';' !in c
    ensures |c| < |id| ==> id[|c|] == ';'
  {
    UpTo(id, ';')
  }

  /** Removes every occurrence of x, as QList::removeAll does. */
  function RemoveAll<T(==)>(s: seq<T>, x: T): (r: seq<T>)
    ensures |r| <= |s|
    ensures forall i :: 0 <= i < |r| ==> r[i] in s && r[i] != x
    ensures forall i :: 0 <= i < |s| && s[i] != x ==> s[i] in r
  {
    if s == [] then []
    else if s[0] == x then RemoveAll(s[1..], x)
    else [s[0]] + RemoveAll(s[1..], x)
  }

  /** removeAll keeps exactly the elements other than x. */
  lemma {:induction false} RemoveAllMembers<T>(s: seq<T>, x: T, y: T)
    ensures y in RemoveAll(s, x) <==> y in s && y != x
  {
    if s != [] {
      RemoveAllMembers(s[1..], x, y);
      assert s == [s[0]] + s[1..];
    }
  }

  /** Removing an element that does not occur, appended once, restores the sequence. */
  lemma {:induction false} RemoveAllAppended<T>(s: seq<T>, x: T)
    requires x !in s
    ensures RemoveAll(s + [x], x) == s
  {
    if s != [] {
      assert (s + [x])[1..] == s[1..] + [x];
      RemoveAllAppended(s[1..], x);
    }
  }

  predicate NoDuplicates<T(==)>(s: seq<T>)
  {
    forall i, j :: 0 <= i < j < |s| ==> s[i] != s[j]
  }

  lemma AppendAssociative<T>(a: seq<T>, b: seq<T>, c: seq<T>)
    ensures (a + b) + c == a + (b + c)
  {
    assert forall i :: 0 <= i < |a| + |b| + |c| ==> ((a + b) + c)[i] == (a + (b + c))[i];
  }

  /** Appending an element not yet present keeps a sequence free of duplicates. */
  lemma AppendNewKeepsNoDuplicates<T>(s: seq<T>, x: T)
    requires NoDuplicates(s) && x !in s
    ensures NoDuplicates(s + [x])
  {
    assert forall i :: 0 <= i < |s| ==> (s + [x])[i] == s[i];
  }

  lemma {:induction false} RemoveAllKeepsNoDuplicates<T>(s: seq<T>, x: T)
    requires NoDuplicates(s)
    ensures NoDuplicates(RemoveAll(s, x))
  {
    if s != [] {
      RemoveAllKeepsNoDuplicates(s[1..], x);
      if s[0] != x {
        var r := RemoveAll(s[1..], x);
        RemoveAllMembers(s[1..], x, s[0]);
        assert s[0] !in s[1..];
        assert s[0] !in r;
        assert forall j :: 0 < j < |[s[0]] + r| ==> ([s[0]] + r)[j] == r[j - 1];
      }
    }
  }
}
