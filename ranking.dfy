/** Top-N selection over a counting dictionary:
    `sorted(counts.items(), key=lambda x: x[1], reverse=True)[:n]`.
    Python's sort is stable, also with `reverse=True`, so entries with equal
    counts keep their dictionary (first-seen) order. */
module Ranking {
  import opened Counter

  predicate Descending<K>(s: seq<Bin<K>>)
  {
    forall i, j :: 0 <= i < j < |s| ==> s[i].count >= s[j].count
  }

  /** The bins of s whose count is v, in order. */
  function WithCount<K>(s: seq<Bin<K>>, v: nat): seq<Bin<K>>
  {
    if |s| == 0 then [] else (if s[0].count == v then [s[0]] else []) + WithCount(s[1..], v)
  }

  /** Places b after the bins that outcount it and ahead of all others. */
  function Insert<K>(b: Bin<K>, s: seq<Bin<K>>): seq<Bin<K>>
  {
    if |s| == 0 || s[0].count <= b.count then [b] + s else [s[0]] + Insert(b, s[1..])
  }

  lemma InsertContents<K>(b: Bin<K>, s: seq<Bin<K>>)
    ensures multiset(Insert(b, s)) == multiset(s) + multiset{b}
    ensures forall v :: WithCount(Insert(b, s), v) == (if b.count == v then [b] else []) + WithCount(s, v)
  {
    InsertMultiset(b, s);
    forall v ensures WithCount(Insert(b, s), v) == (if b.count == v then [b] else []) + WithCount(s, v) {
      InsertWithCount(b, s, v);
    }
  }

  lemma {:induction false} InsertMultiset<K>(b: Bin<K>, s: seq<Bin<K>>)
    ensures multiset(Insert(b, s)) == multiset(s) + multiset{b}
  {
    if |s| > 0 && s[0].count > b.count {
      InsertMultiset(b, s[1..]);
      assert s == [s[0]] + s[1..];
      assert Insert(b, s) == [s[0]] + Insert(b, s[1..]);
    }
  }

  lemma {:induction false} InsertWithCount<K>(b: Bin<K>, s: seq<Bin<K>>, v: nat)
    ensures WithCount(Insert(b, s), v) == (if b.count == v then [b] else []) + WithCount(s, v)
  {
    if |s| > 0 && s[0].count > b.count {
      InsertWithCount(b, s[1..], v);
      assert Insert(b, s)[1..] == Insert(b, s[1..]);
      if s[0].count == v {
        assert b.count != v;
      }
    } else {
      assert Insert(b, s)[1..] == s;
    }
  }

  lemma {:induction false} InsertDescending<K>(b: Bin<K>, s: seq<Bin<K>>)
    requires Descending(s)
    ensures Descending(Insert(b, s))
  {
    if |s| > 0 && s[0].count > b.count {
      InsertDescending(b, s[1..]);
      InsertContents(b, s[1..]);
      var r := Insert(b, s[1..]);
      forall j | 0 <= j < |r| ensures r[j].count <= s[0].count {
        assert r[j] in multiset(s[1..]) + multiset{b};
        if r[j] != b {
          var k :| 0 <= k < |s[1..]| && s[1..][k] == r[j];
          assert s[k + 1] == r[j];
        }
      }
    }
  }

  /** `sorted(items, key=lambda x: x[1], reverse=True)`: non-increasing by
      count, a permutation of its input, and stable, since the bins with
      any one count keep their relative order. */
  function Ranked<K>(c: seq<Bin<K>>): (r: seq<Bin<K>>)
    ensures Descending(r)
    ensures multiset(r) == multiset(c)
    ensures forall v :: WithCount(r, v) == WithCount(c, v)
  {
    if |c| == 0 then []
    else
      var rest := Ranked(c[1..]);
      InsertContents(c[0], rest);
      InsertDescending(c[0], rest);
      assert c == [c[0]] + c[1..];
      Insert(c[0], rest)
  }

  /** Bins with equal counts appear in the order their keys first occur in xs. */
  ghost predicate TiesInFirstSeenOrder<K>(r: seq<Bin<K>>, xs: seq<K>)
  {
    && (forall i :: 0 <= i < |r| ==> r[i].key in xs)
    && (forall i, j :: 0 <= i < j < |r| && r[i].count == r[j].count ==>
          FirstIndex(xs, r[i].key) < FirstIndex(xs, r[j].key))
  }

  lemma PrependKeepsTieOrder<K>(x: Bin<K>, t: seq<Bin<K>>, xs: seq<K>)
    requires x.key in xs && TiesInFirstSeenOrder(t, xs)
    requires forall j :: 0 <= j < |t| && t[j].count == x.count ==> FirstIndex(xs, x.key) < FirstIndex(xs, t[j].key)
    ensures TiesInFirstSeenOrder([x] + t, xs)
  {
    var r := [x] + t;
    forall i, j | 0 <= i < j < |r| && r[i].count == r[j].count
      ensures FirstIndex(xs, r[i].key) < FirstIndex(xs, r[j].key)
    {
      if i > 0 {
        assert r[i] == t[i - 1] && r[j] == t[j - 1];
      } else {
        assert r[j] == t[j - 1];
      }
    }
  }

  lemma {:induction false} InsertKeepsTieOrder<K>(b: Bin<K>, s: seq<Bin<K>>, xs: seq<K>)
    requires b.key in xs && TiesInFirstSeenOrder(s, xs)
    requires forall i :: 0 <= i < |s| ==> FirstIndex(xs, b.key) < FirstIndex(xs, s[i].key)
    ensures TiesInFirstSeenOrder(Insert(b, s), xs)
  {
    if |s| > 0 && s[0].count > b.count {
      var t := Insert(b, s[1..]);
      assert TiesInFirstSeenOrder(s[1..], xs);
      InsertKeepsTieOrder(b, s[1..], xs);
      InsertContents(b, s[1..]);
      forall j | 0 <= j < |t| && t[j].count == s[0].count
        ensures FirstIndex(xs, s[0].key) < FirstIndex(xs, t[j].key)
      {
        assert t[j] in multiset(s[1..]) + multiset{b};
        assert t[j] != b;
        var k :| 0 <= k < |s[1..]| && s[1..][k] == t[j];
        assert s[k + 1] == t[j];
      }
      PrependKeepsTieOrder(s[0], t, xs);
    } else {
      PrependKeepsTieOrder(b, s, xs);
    }
  }

  /** Ranking a dictionary whose bins are in first-seen order leaves the
      entries of equal count in first-seen order. */
  lemma {:induction false} RankedKeepsTieOrder<K>(c: seq<Bin<K>>, xs: seq<K>)
    requires InFirstSeenOrder(c, xs)
    ensures TiesInFirstSeenOrder(Ranked(c), xs)
  {
    if |c| > 0 {
      var rest := Ranked(c[1..]);
      RankedKeepsTieOrder(c[1..], xs);
      forall i | 0 <= i < |rest| ensures FirstIndex(xs, c[0].key) < FirstIndex(xs, rest[i].key) {
        assert rest[i] in multiset(c[1..]);
        var k :| 0 <= k < |c[1..]| && c[1..][k] == rest[i];
        assert c[k + 1] == rest[i];
      }
      InsertKeepsTieOrder(c[0], rest, xs);
    }
  }

  /** `items[:n]`. */
  function Top<T>(s: seq<T>, n: nat): (r: seq<T>)
    ensures |r| == if |s| < n then |s| else n
    ensures r == s[..|r|]
  {
    if |s| <= n then s else s[..n]
  }

  /** The first n entries of the ranking of c: exactly min(n, |c|) entries,
      all drawn from c, non-increasing; no entry left out outcounts one that
      was kept; ties in first-seen order when c's bins are. */
  lemma {:induction false} TopOfRanking<K>(c: seq<Bin<K>>, n: nat, xs: seq<K>)
    requires InFirstSeenOrder(c, xs)
    ensures |Top(Ranked(c), n)| == if |c| < n then |c| else n
    ensures forall b :: b in Top(Ranked(c), n) ==> b in c
    ensures Descending(Top(Ranked(c), n))
    ensures forall i, j :: 0 <= i < |Top(Ranked(c), n)| <= j < |Ranked(c)| ==>
              Ranked(c)[j].count <= Top(Ranked(c), n)[i].count
    ensures TiesInFirstSeenOrder(Top(Ranked(c), n), xs)
  {
    var r := Ranked(c);
    assert |r| == |multiset(r)| == |multiset(c)| == |c|;
    RankedKeepsTieOrder(c, xs);
    forall b | b in Top(r, n) ensures b in c {
      assert b in r;
      assert b in multiset(r);
    }
  }
}
