/** Small vocabulary shared by every module: optional values, the clock's unit and sums over maps. */
module Basics {

  datatype Option<+T> = None | Some(value: T)

  datatype Result<+T, +E> = Ok(value: T) | Err(error: E)

  // Instants and durations are integer nanoseconds, as in Go's time package.
  const SECOND := 1_000_000_000
  const MICROSECOND := 1_000

  // time.Time.Unix: whole seconds, rounded down.
  function UnixSeconds(t: int): int { t / SECOND }

  lemma WholeSeconds(t: int)
    ensures UnixSeconds(t) * SECOND <= t < (UnixSeconds(t) + 1) * SECOND
  {}

  // The %d verb of package fmt.
  function Decimal(n: int): string
    decreases if n < 0 then 1 - n else n
  {
    if n < 0 then "-" + Decimal(-n)
    else if n < 10 then ["0123456789"[n]]
    else Decimal(n / 10) + ["0123456789"[n % 10]]
  }

  /** The number that a string of digits reads as. */
  function DigitsValue(s: string): int {
    if s == "" then 0 else 10 * DigitsValue(s[..|s| - 1]) + (s[|s| - 1] as int - '0' as int)
  }

  lemma DigitValue(d: nat)
    requires d < 10
    ensures "0123456789"[d] as int - '0' as int == d
  {}

  /** A decimal reads as the number it was made of. */
  lemma {:induction false} DecimalReads(n: nat)
    ensures DigitsValue(Decimal(n)) == n && Decimal(-(n + 1)) == "-" + Decimal(n + 1)
  {
    DigitValue(n % 10);
    if n >= 10 {
      DecimalReads(n / 10);
      TwoDigits(n);
    } else {
      assert Decimal(n)[..0] == "";
    }
  }

  lemma DigitsDiffer(a: int, b: int)
    requires 0 <= a < 10 && 0 <= b < 10 && a != b
    ensures "0123456789"[a] != "0123456789"[b]
  {}

  lemma {:induction false} DecimalStart(n: nat)
    ensures |Decimal(n)| >= 1 && Decimal(n)[0] != '-' && (n >= 10 ==> |Decimal(n)| >= 2)
  {
    if n >= 10 { DecimalStart(n / 10); }
  }

  lemma TwoDigits(n: nat)
    requires n >= 10
    ensures var d, k := Decimal(n), |Decimal(n / 10)|; |d| == k + 1 && d[..k] == Decimal(n / 10) && d[k] == "0123456789"[n % 10]
  {}

  lemma {:induction false} NaturalsDiffer(m: nat, n: nat)
    requires m < n
    ensures Decimal(m) != Decimal(n)
  {
    DecimalStart(n);
    if n < 10 {
      DigitsDiffer(m, n);
    } else if m >= 10 {
      TwoDigits(m);
      TwoDigits(n);
      if m / 10 == n / 10 { DigitsDiffer(m % 10, n % 10); } else { NaturalsDiffer(m / 10, n / 10); }
    }
  }

  /** Different numbers have different decimals. */
  lemma DecimalsDiffer(m: int, n: int)
    requires m != n
    ensures Decimal(m) != Decimal(n)
  {
    var p, q: nat := if m < 0 then -m else m, if n < 0 then -n else n;
    DecimalStart(p);
    DecimalStart(q);
    if p < q { NaturalsDiffer(p, q); } else if q < p { NaturalsDiffer(q, p); }
    if m < 0 { assert Decimal(m)[0] == '-' && Decimal(m)[1..] == Decimal(p); }
    if n < 0 { assert Decimal(n)[0] == '-' && Decimal(n)[1..] == Decimal(q); }
  }

  lemma {:induction false} SubsetSize<T(!new)>(small: set<T>, big: set<T>)
    requires small <= big
    ensures |small| <= |big|
    decreases |small|
  {
    if x :| x in small { SubsetSize(small - {x}, big - {x}); }
  }

  lemma {:induction false} DistinctSize<T(!new)>(s: seq<T>)
    requires forall i, j :: 0 <= i < j < |s| ==> s[i] != s[j]
    ensures |set x | x in s| == |s|
  {
    if s != [] {
      var init, last := s[..|s| - 1], s[|s| - 1];
      DistinctSize(init);
      assert (set x | x in s) == (set x | x in init) + {last};
    }
  }

  /** The sum of weight(v) over all values v of m. */
  ghost function Sum<K(!new), V(!new)>(m: map<K, V>, weight: V -> int): int
    decreases |m|
  {
    if m == map[] then 0
    else
      var k :| k in m;
      weight(m[k]) + Sum(m - {k}, weight)
  }

  lemma {:induction false} SumRemove<K(!new), V(!new)>(m: map<K, V>, k: K, weight: V -> int)
    requires k in m
    ensures Sum(m, weight) == weight(m[k]) + Sum(m - {k}, weight)
    decreases |m|
  {
    var x :| x in m && Sum(m, weight) == weight(m[x]) + Sum(m - {x}, weight);
    if x != k {
      SumRemove(m - {x}, k, weight);
      SumRemove(m - {k}, x, weight);
      assert m - {x} - {k} == m - {k} - {x};
    }
  }

  lemma {:induction false} SumNonNegative<K(!new), V(!new)>(m: map<K, V>, weight: V -> int)
    requires forall k | k in m :: weight(m[k]) >= 0
    ensures Sum(m, weight) >= 0
    ensures forall k | k in m :: Sum(m, weight) >= weight(m[k])
    decreases |m|
  {
    forall k | k in m
      ensures Sum(m, weight) >= weight(m[k])
    {
      SumRemove(m, k, weight);
      SumNonNegative(m - {k}, weight);
    }
  }

  /** Where no value weighs more than before the sum is no greater, and smaller if some value weighs less. */
  lemma {:induction false} SumFalls<K(!new), V(!new)>(m: map<K, V>, m': map<K, V>, weight: V -> int)
    requires m'.Keys == m.Keys && forall k :: k in m ==> weight(m'[k]) <= weight(m[k])
    ensures Sum(m', weight) <= Sum(m, weight)
    ensures (exists k :: k in m && weight(m'[k]) < weight(m[k])) ==> Sum(m', weight) < Sum(m, weight)
    decreases |m|
  {
    if m == map[] {
      assert m' == map[];
    } else {
      var k :| k in m;
      SumRemove(m, k, weight);
      SumRemove(m', k, weight);
      SumFalls(m - {k}, m' - {k}, weight);
      if weight(m'[k]) == weight(m[k]) && exists x :: x in m && weight(m'[x]) < weight(m[x]) {
        var x :| x in m && weight(m'[x]) < weight(m[x]);
        assert x in m - {k} && weight((m' - {k})[x]) < weight((m - {k})[x]);
      }
    }
  }

  /** Maps that agree outside one key have sums that differ by that key's share. */
  lemma SumLocal<K(!new), V(!new)>(m: map<K, V>, m': map<K, V>, k: K, weight: V -> int)
    requires m - {k} == m' - {k}
    ensures Sum(m', weight) - (if k in m' then weight(m'[k]) else 0) == Sum(m, weight) - (if k in m then weight(m[k]) else 0)
  {
    if k in m { SumRemove(m, k, weight); } else { assert m == m - {k}; }
    if k in m' { SumRemove(m', k, weight); } else { assert m' == m' - {k}; }
  }
}
