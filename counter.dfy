/** Insertion-ordered counting dictionaries: the `defaultdict(int)` and
    `defaultdict(lambda: {"applied": 0, "hired": 0})` accumulators of the
    dashboard routes. A dictionary is a sequence of bins in the order their
    keys were first inserted, as Python dictionaries iterate. */
module Counter {

  /** One entry of a `defaultdict(int)`: a key and its count. */
  datatype Bin<K> = Bin(key: K, count: nat)

  /** The keys of a dictionary, in insertion order. */
  function Keys<K>(c: seq<Bin<K>>): seq<K>
  {
    seq(|c|, i requires 0 <= i < |c| => c[i].key)
  }

  predicate Distinct<K(==)>(xs: seq<K>)
  {
    forall i, j :: 0 <= i < j < |xs| ==> xs[i] != xs[j]
  }

  /** `counts.get(k, 0)`. */
  function Get<K(==)>(c: seq<Bin<K>>, k: K): nat
  {
    if |c| == 0 then 0 else if c[0].key == k then c[0].count else Get(c[1..], k)
  }

  /** `counts[k] += 1`: an existing key's count grows by one; a new key is
      appended with count 1. */
  function Bump<K(==)>(c: seq<Bin<K>>, k: K): seq<Bin<K>>
  {
    if |c| == 0 then [Bin(k, 1)]
    else if c[0].key == k then [Bin(k, c[0].count + 1)] + c[1..]
    else [c[0]] + Bump(c[1..], k)
  }

  /** The dictionary that `for x in xs: counts[x] += 1` builds from an empty
      `defaultdict(int)`. */
  function Tally<K(==)>(xs: seq<K>): seq<Bin<K>>
  {
    if |xs| == 0 then [] else Bump(Tally(xs[..|xs| - 1]), xs[|xs| - 1])
  }

  /** `sum(counts.values())`. */
  function Total<K>(c: seq<Bin<K>>): nat
  {
    if |c| == 0 then 0 else c[0].count + Total(c[1..])
  }

  /** The position of the first occurrence of k in xs. */
  function FirstIndex<K(==)>(xs: seq<K>, k: K): (i: nat)
    requires k in xs
    ensures i < |xs| && xs[i] == k && k !in xs[..i]
  {
    if xs[0] == k then 0
    else
      var i := 1 + FirstIndex(xs[1..], k);
      assert xs[..i] == [xs[0]] + xs[1..][..i - 1];
      i
  }

  /** The bins of c are ordered by where their keys first occur in xs. */
  ghost predicate InFirstSeenOrder<K>(c: seq<Bin<K>>, xs: seq<K>)
  {
    && (forall i :: 0 <= i < |c| ==> c[i].key in xs)
    && (forall i, j :: 0 <= i < j < |c| ==> FirstIndex(xs, c[i].key) < FirstIndex(xs, c[j].key))
  }

  lemma {:induction false} FirstIndexOfPrefix<K>(xs: seq<K>, m: nat, k: K)
    requires m <= |xs| && k in xs[..m]
    ensures FirstIndex(xs, k) == FirstIndex(xs[..m], k) < m
  {
    var i, p := FirstIndex(xs, k), FirstIndex(xs[..m], k);
    assert xs[p] == k;
  }

  lemma {:induction false} BumpGet<K>(c: seq<Bin<K>>, k: K, j: K)
    ensures Get(Bump(c, k), j) == Get(c, j) + (if j == k then 1 else 0)
  {
    if |c| > 0 && c[0].key != k {
      BumpGet(c[1..], k, j);
      assert Bump(c, k)[1..] == Bump(c[1..], k);
    } else if |c| > 0 {
      assert Bump(c, k)[1..] == c[1..];
    }
  }

  lemma {:induction false} BumpShape<K>(c: seq<Bin<K>>, k: K)
    ensures Total(Bump(c, k)) == Total(c) + 1
    ensures Keys(Bump(c, k)) == if k in Keys(c) then Keys(c) else Keys(c) + [k]
  {
    BumpTotal(c, k);
    BumpKeys(c, k);
  }

  lemma {:induction false} BumpTotal<K>(c: seq<Bin<K>>, k: K)
    ensures Total(Bump(c, k)) == Total(c) + 1
  {
    if |c| > 0 && c[0].key != k {
      BumpTotal(c[1..], k);
      assert Bump(c, k)[1..] == Bump(c[1..], k);
    } else if |c| > 0 {
      assert Bump(c, k)[1..] == c[1..];
    }
  }

  lemma {:induction false} BumpKeys<K>(c: seq<Bin<K>>, k: K)
    ensures Keys(Bump(c, k)) == if k in Keys(c) then Keys(c) else Keys(c) + [k]
  {
    if |c| > 0 && c[0].key != k {
      BumpKeys(c[1..], k);
      assert Keys(c) == [c[0].key] + Keys(c[1..]);
      assert Keys(Bump(c, k)) == [c[0].key] + Keys(Bump(c[1..], k));
    } else if |c| > 0 {
      assert Bump(c, k)[1..] == c[1..];
      assert Keys(Bump(c, k)) == Keys(c);
      assert Keys(c)[0] == k;
    }
  }


  lemma {:induction false} GetAt<K>(c: seq<Bin<K>>, i: nat)
    requires Distinct(Keys(c)) && i < |c|
    ensures Get(c, c[i].key) == c[i].count
  {
    if i > 0 {
      assert Keys(c[1..]) == Keys(c)[1..];
      assert Keys(c)[0] != Keys(c)[i];
      GetAt(c[1..], i - 1);
    }
  }

  /** Counting a sequence conserves it: one bin per distinct element, each
      holding the element's number of occurrences, all of them summing to
      the length of the sequence. */
  lemma {:induction false} TallyCounts<K>(xs: seq<K>)
    ensures Total(Tally(xs)) == |xs|
    ensures Distinct(Keys(Tally(xs)))
    ensures forall k :: k in Keys(Tally(xs)) <==> k in xs
    ensures forall k :: Get(Tally(xs), k) == multiset(xs)[k]
    ensures forall i :: 0 <= i < |Tally(xs)| ==>
              Tally(xs)[i].key in xs && Tally(xs)[i].count == multiset(xs)[Tally(xs)[i].key] > 0
  {
    if |xs| > 0 {
      var p, x := xs[..|xs| - 1], xs[|xs| - 1];
      assert xs == p + [x];
      TallyCounts(p);
      var t := Tally(p);
      BumpShape(t, x);
      forall k ensures Get(Tally(xs), k) == multiset(xs)[k] {
        BumpGet(t, x, k);
      }
      forall k ensures k in Keys(Tally(xs)) <==> k in xs {
        assert k in xs <==> k in p || k == x;
      }
      forall i | 0 <= i < |Tally(xs)|
        ensures Tally(xs)[i].key in xs && Tally(xs)[i].count == multiset(xs)[Tally(xs)[i].key] > 0
      {
        var k := Tally(xs)[i].key;
        assert Keys(Tally(xs))[i] == k;
        GetAt(Tally(xs), i);
      }
    }
  }

  /** The bins come out in the order their keys were first seen. */
  lemma {:induction false} TallyFirstSeen<K>(xs: seq<K>)
    ensures InFirstSeenOrder(Tally(xs), xs)
  {
    TallyCounts(xs);
    if |xs| > 0 {
      var p, x := xs[..|xs| - 1], xs[|xs| - 1];
      assert xs == p + [x];
      assert p == xs[..|xs| - 1];
      TallyFirstSeen(p);
      TallyCounts(p);
      var t := Tally(p);
      BumpShape(t, x);
      var u := Tally(xs);
      assert Keys(u) == if x in Keys(t) then Keys(t) else Keys(t) + [x];
      forall i | 0 <= i < |u| ensures u[i].key in xs {
        assert Keys(u)[i] == u[i].key;
      }
      forall i, j | 0 <= i < j < |u| ensures FirstIndex(xs, u[i].key) < FirstIndex(xs, u[j].key)
      {
        assert Keys(u)[i] == u[i].key && Keys(u)[j] == u[j].key;
        assert Keys(t)[i] == t[i].key;
        FirstIndexOfPrefix(xs, |p|, u[i].key);
        if j < |t| {
          assert Keys(t)[j] == t[j].key;
          FirstIndexOfPrefix(xs, |p|, u[j].key);
        } else {
          assert u[j].key == x && x !in p;
        }
      }
    }
  }

  /** One entry of a `defaultdict(lambda: {"applied": 0, "hired": 0})`: how
      many rows carried the key, and how many of those were hired. */
  datatype Stat<K> = Stat(key: K, total: nat, hired: nat)

  /** `stats[k]["applied"] += 1` followed, for a hired row, by
      `stats[k]["hired"] += 1`. */
  function BumpStat<K(==)>(c: seq<Stat<K>>, k: K, hired: bool): seq<Stat<K>>
  {
    if |c| == 0 then [Stat(k, 1, if hired then 1 else 0)]
    else if c[0].key == k then [Stat(k, c[0].total + 1, c[0].hired + if hired then 1 else 0)] + c[1..]
    else [c[0]] + BumpStat(c[1..], k, hired)
  }

  /** The dictionary built by bumping, in order, the key of every (key, hired) row. */
  function StatsOf<K(==)>(rows: seq<(K, bool)>): seq<Stat<K>>
  {
    if |rows| == 0 then []
    else BumpStat(StatsOf(rows[..|rows| - 1]), rows[|rows| - 1].0, rows[|rows| - 1].1)
  }

  /** The first counter of each entry. */
  function Totals<K>(c: seq<Stat<K>>): seq<Bin<K>>
  {
    seq(|c|, i requires 0 <= i < |c| => Bin(c[i].key, c[i].total))
  }

  /** The second counter of each entry. */
  function Hires<K>(c: seq<Stat<K>>): seq<Bin<K>>
  {
    seq(|c|, i requires 0 <= i < |c| => Bin(c[i].key, c[i].hired))
  }

  function RowKeys<K>(rows: seq<(K, bool)>): seq<K>
  {
    seq(|rows|, i requires 0 <= i < |rows| => rows[i].0)
  }

  /** The keys of the rows flagged as hired, in order. */
  function HiredKeys<K>(rows: seq<(K, bool)>): seq<K>
  {
    if |rows| == 0 then []
    else HiredKeys(rows[..|rows| - 1]) + if rows[|rows| - 1].1 then [rows[|rows| - 1].0] else []
  }

  lemma {:induction false} BumpStatCounters<K>(c: seq<Stat<K>>, k: K, h: bool, j: K)
    ensures Totals(BumpStat(c, k, h)) == Bump(Totals(c), k)
    ensures Get(Hires(BumpStat(c, k, h)), j) == Get(Hires(c), j) + (if j == k && h then 1 else 0)
    ensures (forall i :: 0 <= i < |c| ==> c[i].hired <= c[i].total) ==>
              forall i :: 0 <= i < |BumpStat(c, k, h)| ==> BumpStat(c, k, h)[i].hired <= BumpStat(c, k, h)[i].total
  {
    var b := BumpStat(c, k, h);
    if |c| > 0 {
      assert Totals(c)[0] == Bin(c[0].key, c[0].total);
      assert Totals(c)[1..] == Totals(c[1..]);
      assert Hires(c)[1..] == Hires(c[1..]);
      if c[0].key != k {
        BumpStatCounters(c[1..], k, h, j);
        assert b[1..] == BumpStat(c[1..], k, h);
        assert Totals(b) == [Totals(c)[0]] + Totals(b[1..]);
        assert Hires(b)[1..] == Hires(b[1..]);
      } else {
        assert b[1..] == c[1..];
        assert Totals(b) == [Bin(k, c[0].total + 1)] + Totals(c[1..]);
        assert Hires(b)[1..] == Hires(c[1..]);
      }
    }
  }

  /** Both counters of the two-count dictionary: the first is the count of
      the key among all rows, the second among the hired rows, and never
      exceeds the first. */
  lemma {:induction false} StatsCounts<K>(rows: seq<(K, bool)>)
    ensures Totals(StatsOf(rows)) == Tally(RowKeys(rows))
    ensures forall k :: Get(Hires(StatsOf(rows)), k) == multiset(HiredKeys(rows))[k]
    ensures forall i :: 0 <= i < |StatsOf(rows)| ==> StatsOf(rows)[i].hired <= StatsOf(rows)[i].total
  {
    if |rows| > 0 {
      var p, r := rows[..|rows| - 1], rows[|rows| - 1];
      StatsCounts(p);
      assert RowKeys(rows) == RowKeys(p) + [r.0];
      assert RowKeys(rows)[..|rows| - 1] == RowKeys(p);
      forall k ensures Get(Hires(StatsOf(rows)), k) == multiset(HiredKeys(rows))[k] {
        BumpStatCounters(StatsOf(p), r.0, r.1, k);
      }
      BumpStatCounters(StatsOf(p), r.0, r.1, r.0);
    }
  }

  lemma {:induction false} HiredKeysCount<K>(rows: seq<(K, bool)>, k: K)
    ensures multiset(HiredKeys(rows))[k] == multiset(rows)[(k, true)]
  {
    if |rows| > 0 {
      var p := rows[..|rows| - 1];
      assert rows == p + [rows[|rows| - 1]];
      HiredKeysCount(p, k);
    }
  }

  /** Counting one more element bumps its count. */
  lemma TallySnoc<K>(xs: seq<K>, x: K)
    ensures Tally(xs + [x]) == Bump(Tally(xs), x)
  {
    assert (xs + [x])[..|xs|] == xs;
  }

  /** Counting one more row bumps its key's counters. */
  lemma StatsOfSnoc<K>(rows: seq<(K, bool)>, x: (K, bool))
    ensures StatsOf(rows + [x]) == BumpStat(StatsOf(rows), x.0, x.1)
  {
    assert (rows + [x])[..|rows|] == rows;
  }

  /** A key occurs among the row keys once per row carrying it, hired or not. */
  lemma {:induction false} RowKeysCount<K>(rows: seq<(K, bool)>, k: K)
    ensures multiset(RowKeys(rows))[k] == multiset(rows)[(k, true)] + multiset(rows)[(k, false)]
  {
    if |rows| > 0 {
      var p, last := rows[..|rows| - 1], rows[|rows| - 1];
      assert rows == p + [last];
      assert RowKeys(rows) == RowKeys(p) + [last.0];
      RowKeysCount(p, k);
      assert multiset(rows)[(k, true)] == multiset(p)[(k, true)] + if last == (k, true) then 1 else 0;
      assert multiset(rows)[(k, false)] == multiset(p)[(k, false)] + if last == (k, false) then 1 else 0;
      assert multiset(RowKeys(rows))[k] == multiset(RowKeys(p))[k] + if last.0 == k then 1 else 0;
      if last.0 == k {
        if last.1 {
          assert last == (k, true);
        } else {
          assert last == (k, false);
        }
      }
    }
  }

  /** Per entry of a two-count dictionary: the key occurs `total` times
      among all rows and `hired` times among the hired rows; the keys are
      distinct, first-seen ordered, and the totals sum to the number of rows. */
  lemma {:induction false} StatsEntries<K>(rows: seq<(K, bool)>)
    ensures Distinct(Keys(Totals(StatsOf(rows))))
    ensures Total(Totals(StatsOf(rows))) == |rows|
    ensures InFirstSeenOrder(Totals(StatsOf(rows)), RowKeys(rows))
    ensures forall i :: 0 <= i < |StatsOf(rows)| ==>
              && StatsOf(rows)[i].total == multiset(RowKeys(rows))[StatsOf(rows)[i].key] > 0
              && StatsOf(rows)[i].hired == multiset(rows)[(StatsOf(rows)[i].key, true)]
              && StatsOf(rows)[i].hired <= StatsOf(rows)[i].total
  {
    var s := StatsOf(rows);
    StatsCounts(rows);
    TallyCounts(RowKeys(rows));
    TallyFirstSeen(RowKeys(rows));
    assert Keys(Hires(s)) == Keys(Totals(s));
    forall i | 0 <= i < |s|
      ensures s[i].total == multiset(RowKeys(rows))[s[i].key] > 0
      ensures s[i].hired == multiset(rows)[(s[i].key, true)]
    {
      assert Totals(s)[i] == Bin(s[i].key, s[i].total);
      assert Hires(s)[i] == Bin(s[i].key, s[i].hired);
      GetAt(Hires(s), i);
      HiredKeysCount(rows, s[i].key);
    }
  }

  /** The occurrences in xs of the elements of keys, added up. */
  function SumOccurrences<K(==)>(xs: seq<K>, keys: seq<K>): nat
  {
    if |keys| == 0 then 0 else multiset(xs)[keys[0]] + SumOccurrences(xs, keys[1..])
  }

  lemma {:induction false} SumOccurrencesStep<K>(xs: seq<K>, x: K, keys: seq<K>)
    requires Distinct(keys)
    ensures SumOccurrences(xs + [x], keys) == SumOccurrences(xs, keys) + if x in keys then 1 else 0
  {
    if |keys| > 0 {
      assert Distinct(keys[1..]);
      SumOccurrencesStep(xs, x, keys[1..]);
      assert x in keys <==> x == keys[0] || x in keys[1..];
    }
  }

  lemma {:induction false} SumOccurrencesOfEmpty<K>(keys: seq<K>)
    ensures SumOccurrences([], keys) == 0
  {
    if |keys| > 0 {
      SumOccurrencesOfEmpty(keys[1..]);
    }
  }

  /** Distinct keys share out at most the elements of xs, and exactly all of
      them when every element is one of the keys. */
  lemma {:induction false} OccurrencesBound<K>(xs: seq<K>, keys: seq<K>)
    requires Distinct(keys)
    ensures SumOccurrences(xs, keys) <= |xs|
    ensures SumOccurrences(xs, keys) == |xs| <==> forall i :: 0 <= i < |xs| ==> xs[i] in keys
  {
    if |xs| > 0 {
      var p, x := xs[..|xs| - 1], xs[|xs| - 1];
      assert xs == p + [x];
      OccurrencesBound(p, keys);
      SumOccurrencesStep(p, x, keys);
      if forall i :: 0 <= i < |xs| ==> xs[i] in keys {
        assert forall i :: 0 <= i < |p| ==> p[i] in keys by {
          forall i | 0 <= i < |p| ensures p[i] in keys { assert p[i] == xs[i]; }
        }
      } else {
        var i :| 0 <= i < |xs| && xs[i] !in keys;
        if i < |p| {
          assert p[i] == xs[i];
        }
      }
    } else {
      SumOccurrencesOfEmpty(keys);
    }
  }
}
