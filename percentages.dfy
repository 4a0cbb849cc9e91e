/** The integer percentages of the dashboard: `round((part / total) * 100)`,
    with Python's `round` (nearest integer, ties to even), and the
    count-plus-percentage lists of the source-of-hire and gender views. */
module Percentages {
  import opened Counter

  /** Python's `round` applied to the rational n / d. */
  function RoundHalfEven(n: nat, d: nat): (r: nat)
    requires d > 0
    ensures (2 * r - 1) * d <= 2 * n <= (2 * r + 1) * d
    ensures 2 * n == (2 * r - 1) * d || 2 * n == (2 * r + 1) * d ==> r % 2 == 0
  {
    var q, m := n / d, n % d;
    assert n == q * d + m;
    assert (2 * q - 1) * d == 2 * (q * d) - d;
    assert (2 * q + 1) * d == 2 * (q * d) + d;
    assert (2 * q + 3) * d == 2 * (q * d) + 3 * d;
    if 2 * m < d then q else if 2 * m > d then q + 1 else if q % 2 == 0 then q else q + 1
  }

  lemma ScaleCancel(a: int, b: int, t: int)
    requires t > 0 && a * t <= b * t
    ensures a <= b
  {
  }

  lemma Distribute(x: int, y: int, t: int)
    ensures (x + y) * t == x * t + y * t
  {
  }

  lemma PercentBounds(part: nat, total: nat, p: nat)
    requires total > 0 && (2 * p - 1) * total <= 200 * part <= (2 * p + 1) * total
    ensures part <= total ==> p <= 100
    ensures part == 0 ==> p == 0
    ensures part == total ==> p == 100
  {
    if part <= total {
      assert 200 * part <= 200 * total;
      ScaleCancel(2 * p - 1, 200, total);
    }
    if part == 0 {
      ScaleCancel(2 * p - 1, 0, total);
    }
    if part == total {
      ScaleCancel(200, 2 * p + 1, total);
    }
  }

  /** `round((part / total) * 100)`: the nearest whole percentage, so a part
      of the total lies in 0..100. */
  function Percent(part: nat, total: nat): (p: nat)
    requires total > 0
    ensures (2 * p - 1) * total <= 200 * part <= (2 * p + 1) * total
    ensures part <= total ==> p <= 100
    ensures part == 0 ==> p == 0
    ensures part == total ==> p == 100
  {
    var p := RoundHalfEven(100 * part, total);
    PercentBounds(part, total, p);
    p
  }

  /** One element of a count-plus-percentage list. */
  datatype Share<K> = Share(key: K, count: nat, percentage: nat)

  lemma {:induction false} CountWithinTotal<K>(c: seq<Bin<K>>, i: nat)
    requires i < |c|
    ensures c[i].count <= Total(c)
  {
    if i > 0 {
      CountWithinTotal(c[1..], i - 1);
    }
  }

  /** Every bin annotated with its percentage of t. */
  function SharesOf<K>(c: seq<Bin<K>>, t: nat): seq<Share<K>>
    requires t > 0
  {
    seq(|c|, i requires 0 <= i < |c| => Share(c[i].key, c[i].count, Percent(c[i].count, t)))
  }

  /** `[{k, v, round((v / total) * 100)} for k, v in counts.items()]` with
      `total = sum(counts.values())`; an empty dictionary divides by nothing
      and gives the empty list. Each percentage lies in 0..100. */
  function Shares<K>(c: seq<Bin<K>>): (r: seq<Share<K>>)
    requires |c| > 0 ==> Total(c) > 0
    ensures |r| == |c|
    ensures forall i :: 0 <= i < |c| ==> r[i].key == c[i].key && r[i].count == c[i].count && r[i].percentage <= 100
  {
    if |c| == 0 then []
    else
      var r := SharesOf(c, Total(c));
      assert forall i :: 0 <= i < |c| ==> c[i].count <= Total(c) by {
        forall i | 0 <= i < |c| { CountWithinTotal(c, i); }
      }
      r
  }

  function PercentSum<K>(r: seq<Share<K>>): nat
  {
    if |r| == 0 then 0 else r[0].percentage + PercentSum(r[1..])
  }

  lemma {:induction false} SharesOfWithin<K>(c: seq<Bin<K>>, t: nat)
    requires t > 0
    ensures (2 * PercentSum(SharesOf(c, t)) - |c|) * t <= 200 * Total(c) <= (2 * PercentSum(SharesOf(c, t)) + |c|) * t
  {
    if |c| > 0 {
      var s := SharesOf(c, t);
      assert s[1..] == SharesOf(c[1..], t);
      SharesOfWithin(c[1..], t);
      var rest, p, n := PercentSum(s[1..]), s[0].percentage, |c| - 1;
      assert PercentSum(s) == p + rest;
      assert Total(c) == c[0].count + Total(c[1..]);
      assert (2 * p - 1) * t <= 200 * c[0].count <= (2 * p + 1) * t;
      Distribute(2 * p - 1, 2 * rest - n, t);
      Distribute(2 * p + 1, 2 * rest + n, t);
    }
  }

  /** The percentages of a count-plus-percentage list add up to 100 within
      half a point per entry. */
  lemma {:induction false} SharesAddUp<K>(c: seq<Bin<K>>)
    requires |c| > 0 && Total(c) > 0
    ensures 200 - |c| <= 2 * PercentSum(Shares(c)) <= 200 + |c|
  {
    var t := Total(c);
    SharesOfWithin(c, t);
    var s := PercentSum(Shares(c));
    assert 200 * t == 200 * Total(c);
    ScaleCancel(2 * s - |c|, 200, t);
    ScaleCancel(200, 2 * s + |c|, t);
  }
}
