/**
 * The SQL the daily statistics are written in, read over a sequence of
 * rows: WHERE as a filter, the aggregates MAX, MIN, SUM and AVG skipping
 * NULLs (and NULL over no value at all), and "ORDER BY time_utc LIMIT 1"
 * as the earliest matching row.
 */
module SqlAggregates {
  import opened Common
  import opened DateTimes
  import opened Observations

  /** WHERE: the rows satisfying p, in table order. */
  function Where(rows: seq<Observation>, p: Observation -> bool): (r: seq<Observation>)
    ensures |r| <= |rows|
    ensures forall o :: o in r <==> o in rows && p(o)
  {
    if rows == [] then []
    else if p(rows[0]) then [rows[0]] + Where(rows[1..], p)
    else Where(rows[1..], p)
  }

  /** The non-NULL values of a column. */
  function Values(rows: seq<Observation>, c: Column): (xs: seq<real>)
    ensures |xs| <= |rows|
  {
    if rows == [] then []
    else
      var rest := Values(rows[1..], c);
      if Get(rows[0], c).Some? then [Get(rows[0], c).value] + rest else rest
  }

  /** A non-NULL entry of the column is among the values. */
  lemma {:induction false} ValueOfRow(rows: seq<Observation>, c: Column, o: Observation)
    requires o in rows && Get(o, c).Some?
    ensures Get(o, c).value in Values(rows, c)
  {
    if o != rows[0] {
      ValueOfRow(rows[1..], c, o);
    }
  }

  /** Every value comes from a row of the column. */
  lemma {:induction false} ValueSource(rows: seq<Observation>, c: Column, x: real) returns (o: Observation)
    requires x in Values(rows, c)
    ensures o in rows && Get(o, c) == Some(x)
  {
    if Get(rows[0], c) == Some(x) {
      o := rows[0];
    } else {
      o := ValueSource(rows[1..], c, x);
    }
  }

  /** MAX: the largest value, NULL when there is none. */
  function MaxOf(xs: seq<real>): (m: Option<real>)
    ensures m.None? <==> xs == []
    ensures m.Some? ==> m.value in xs && forall x :: x in xs ==> x <= m.value
  {
    if xs == [] then None
    else
      var rest := MaxOf(xs[1..]);
      assert forall x :: x in xs ==> x == xs[0] || x in xs[1..];
      if rest.None? || xs[0] >= rest.value then Some(xs[0]) else rest
  }

  /** MIN: the smallest value, NULL when there is none. */
  function MinOf(xs: seq<real>): (m: Option<real>)
    ensures m.None? <==> xs == []
    ensures m.Some? ==> m.value in xs && forall x :: x in xs ==> m.value <= x
  {
    if xs == [] then None
    else
      var rest := MinOf(xs[1..]);
      assert forall x :: x in xs ==> x == xs[0] || x in xs[1..];
      if rest.None? || xs[0] <= rest.value then Some(xs[0]) else rest
  }

  /** MAX(column) over rows: NULL exactly when every entry is NULL, else the largest entry, attained by some row. */
  lemma MaxOfColumn(rows: seq<Observation>, c: Column)
    ensures var m := MaxOf(Values(rows, c));
      (m.Some? <==> exists o :: o in rows && Get(o, c).Some?)
      && (m.Some? ==> forall o :: o in rows && Get(o, c).Some? ==> Get(o, c).value <= m.value)
      && (m.Some? ==> exists o :: o in rows && Get(o, c) == m)
  {
    var xs := Values(rows, c);
    forall o | o in rows && Get(o, c).Some?
      ensures Get(o, c).value in xs
    {
      ValueOfRow(rows, c, o);
    }
    if xs != [] {
      var w := ValueSource(rows, c, MaxOf(xs).value);
    }
  }

  function Total(xs: seq<real>): real {
    if xs == [] then 0.0 else xs[0] + Total(xs[1..])
  }

  /** SUM: the total, NULL over no value. */
  function SumOf(xs: seq<real>): (s: Option<real>)
    ensures s.None? <==> xs == []
  {
    if xs == [] then None else Some(Total(xs))
  }

  /** AVG: the mean, NULL over no value. */
  function AvgOf(xs: seq<real>): (a: Option<real>)
    ensures a.None? <==> xs == []
  {
    if xs == [] then None else Some(Total(xs) / |xs| as real)
  }

  /** The number of values at or above a threshold. */
  function CountAtLeast(xs: seq<real>, threshold: real): (n: nat)
    ensures n <= |xs|
  {
    if xs == [] then 0
    else (if xs[0] >= threshold then 1 else 0) + CountAtLeast(xs[1..], threshold)
  }

  lemma NotAfterTotalPreorder()
    ensures forall a, b, c :: NotAfter(a, b) && NotAfter(b, c) ==> NotAfter(a, c)
    ensures forall a, b :: NotAfter(a, b) || NotAfter(b, a)
  {
    forall a, b, c | NotAfter(a, b) && NotAfter(b, c)
      ensures NotAfter(a, c)
    {
      BeforeStrictTotal(c, b, a);
    }
  }

  /**
   * ... WHERE column = v ORDER BY time_utc LIMIT 1: the earliest row whose
   * column equals v, None when no row does. SQL's "= NULL" matches nothing.
   */
  function Earliest(rows: seq<Observation>, c: Column, v: Option<real>): Option<Observation> {
    if rows == [] || v.None? then None
    else
      var rest := Earliest(rows[1..], c, v);
      if Get(rows[0], c) == v && (rest.None? || NotAfter(rows[0].time_utc, rest.value.time_utc)) then Some(rows[0])
      else rest
  }

  /** The row found matches, and no matching row is earlier; none is found only when none matches. */
  lemma {:induction false} EarliestIsFirstMatch(rows: seq<Observation>, c: Column, v: Option<real>)
    ensures var r := Earliest(rows, c, v);
      (r.Some? ==> r.value in rows && v.Some? && Get(r.value, c) == v)
      && (r.Some? ==> forall o :: o in rows && Get(o, c) == v ==> NotAfter(r.value.time_utc, o.time_utc))
      && (r.None? <==> v.None? || forall o :: o in rows ==> Get(o, c) != v)
  {
    if rows != [] && v.Some? {
      EarliestIsFirstMatch(rows[1..], c, v);
      assert forall o :: o in rows ==> o == rows[0] || o in rows[1..];
      NotAfterTotalPreorder();
    }
  }

  // ---- facts about the aggregates ----

  /** Each value multiplied by k, as in SUM(column * k). */
  function ScaleAll(xs: seq<real>, k: real): (ys: seq<real>)
    ensures |ys| == |xs|
  {
    if xs == [] then [] else [xs[0] * k] + ScaleAll(xs[1..], k)
  }

  /** Every value lies between lo and hi, so the total lies between n * lo and n * hi. */
  lemma {:induction false} TotalBounds(xs: seq<real>, lo: real, hi: real)
    requires forall i :: 0 <= i < |xs| ==> lo <= xs[i] <= hi
    ensures |xs| as real * lo <= Total(xs) <= |xs| as real * hi
  {
    if xs != [] {
      TotalBounds(xs[1..], lo, hi);
      assert Total(xs) == xs[0] + Total(xs[1..]);
      AddToBounds(|xs[1..]| as real, |xs| as real, lo, hi, xs[0], Total(xs[1..]));
    }
  }

  lemma AddToBounds(n: real, m: real, lo: real, hi: real, x: real, rest: real)
    requires m == n + 1.0
    requires n * lo <= rest <= n * hi && lo <= x <= hi
    ensures m * lo <= x + rest <= m * hi
  {
  }

  /** Dividing bounds on a total by a positive count bounds the quotient. */
  lemma DivideBounds(total: real, n: real, lo: real, hi: real)
    requires n > 0.0 && n * lo <= total <= n * hi
    ensures lo <= total / n <= hi
  {
    assert (total / n) * n == total;
  }

  /** MIN <= AVG <= MAX whenever there is a value. */
  lemma AvgBetweenMinMax(xs: seq<real>)
    requires xs != []
    ensures MinOf(xs).value <= AvgOf(xs).value <= MaxOf(xs).value
  {
    var lo, hi := MinOf(xs).value, MaxOf(xs).value;
    forall i | 0 <= i < |xs|
      ensures lo <= xs[i] <= hi
    {
      assert xs[i] in xs;
    }
    TotalBounds(xs, lo, hi);
    DivideBounds(Total(xs), |xs| as real, lo, hi);
  }

  /** SUM(x * k) over the non-NULL values is k times SUM(x). */
  lemma {:induction false} TotalScaled(xs: seq<real>, k: real)
    ensures Total(ScaleAll(xs, k)) == Total(xs) * k
  {
    if xs != [] {
      TotalScaled(xs[1..], k);
      assert ScaleAll(xs, k)[1..] == ScaleAll(xs[1..], k);
    }
  }
}
