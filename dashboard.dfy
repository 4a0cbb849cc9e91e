/** The in-memory aggregations of the analytics routes of
    app/routes/dashboard.py. The rows each route fetches are parameters.
    A route that loops is a method whose result is proved equal to a
    specification function; what the view promises is proved about that
    function. */
module Dashboard {
  import opened Rows
  import opened Counter
  import Lookup
  import opened Percentages
  import opened Ranking

  predicate IsHired(a: Application)
  {
    a.status == Some("hired")
  }

  function Statuses(apps: seq<Application>): seq<Option<string>>
  {
    seq(|apps|, i requires 0 <= i < |apps| => apps[i].status)
  }

  // ---------------------------------------------------------------- job stats

  predicate AllParsed(apps: seq<Application>)
  {
    forall i :: 0 <= i < |apps| ==> apps[i].createdAt.Some?
  }

  /** (creation month, hired) of every application. */
  function MonthRows(apps: seq<Application>): seq<(Month, bool)>
    requires AllParsed(apps)
  {
    seq(|apps|, i requires 0 <= i < |apps| => (apps[i].createdAt.value.month, IsHired(apps[i])))
  }

  /** The job-stats view: None when a `created_at` does not parse, which
      fails the whole route; otherwise one (month, applications, hired)
      entry per month, in the order the months first occur. */
  function JobStatsOf(apps: seq<Application>): Option<seq<Stat<Month>>>
  {
    if AllParsed(apps) then Some(StatsOf(MonthRows(apps))) else None
  }

  method JobStats(apps: seq<Application>) returns (r: Option<seq<Stat<Month>>>)
    ensures r == JobStatsOf(apps)
  {
    var stats: seq<Stat<Month>> := [];
    for i := 0 to |apps|
      invariant AllParsed(apps[..i])
      invariant stats == StatsOf(MonthRows(apps[..i]))
    {
      if apps[i].createdAt.None? {
        return None;
      }
      assert AllParsed(apps[..i + 1]);
      assert MonthRows(apps[..i + 1])[..i] == MonthRows(apps[..i]);
      stats := BumpStat(stats, apps[i].createdAt.value.month, IsHired(apps[i]));
    }
    assert apps[..|apps|] == apps;
    return Some(stats);
  }

  /** Job stats conserve the rows: the months are distinct, each month's
      `applications` is the number of applications created in it and its
      `hired` the number of those with status "hired", never more; the
      month totals add up to the number of applications. */
  lemma JobStatsConserves(apps: seq<Application>)
    requires JobStatsOf(apps).Some?
    ensures var s := JobStatsOf(apps).value;
      && Distinct(Keys(Totals(s)))
      && Total(Totals(s)) == |apps|
      && forall i :: 0 <= i < |s| ==>
           && s[i].total == multiset(RowKeys(MonthRows(apps)))[s[i].key] > 0
           && s[i].hired == multiset(MonthRows(apps))[(s[i].key, true)]
           && s[i].hired <= s[i].total
  {
    StatsEntries(MonthRows(apps));
  }

  // ------------------------------------------- application progression, funnel

  /** The loop `for app in apps: counts[app["status"]] += 1`. */
  method CountStatuses(apps: seq<Application>) returns (counts: seq<Bin<Option<string>>>)
    ensures counts == Tally(Statuses(apps))
  {
    counts := [];
    for i := 0 to |apps|
      invariant counts == Tally(Statuses(apps[..i]))
    {
      assert Statuses(apps[..i + 1])[..i] == Statuses(apps[..i]);
      counts := Bump(counts, apps[i].status);
    }
    assert apps[..|apps|] == apps;
  }

  /** The four funnel statuses, in display order. */
  const Buckets: seq<string> := ["applied", "shortlisted_round1", "shortlisted_round2", "hired"]

  function BucketStatuses(): seq<Option<string>>
  {
    [Some(Buckets[0]), Some(Buckets[1]), Some(Buckets[2]), Some(Buckets[3])]
  }

  datatype Progression = Progression(applied: nat, shortlistedRound1: nat, shortlistedRound2: nat, hired: nat)

  /** Each bucket is the number of applications with exactly that status
      (0 when there are none); other statuses fall in no bucket, so the
      buckets share out the applications exactly when every status is one
      of the four. */
  method ApplicationProgression(apps: seq<Application>) returns (p: Progression)
    ensures p.applied == multiset(Statuses(apps))[Some("applied")]
    ensures p.shortlistedRound1 == multiset(Statuses(apps))[Some("shortlisted_round1")]
    ensures p.shortlistedRound2 == multiset(Statuses(apps))[Some("shortlisted_round2")]
    ensures p.hired == multiset(Statuses(apps))[Some("hired")]
    ensures p.applied + p.shortlistedRound1 + p.shortlistedRound2 + p.hired <= |apps|
    ensures p.applied + p.shortlistedRound1 + p.shortlistedRound2 + p.hired == |apps| <==>
              forall i :: 0 <= i < |apps| ==> apps[i].status in BucketStatuses()
  {
    var counts := CountStatuses(apps);
    TallyCounts(Statuses(apps));
    p := Progression(
      Get(counts, Some("applied")),
      Get(counts, Some("shortlisted_round1")),
      Get(counts, Some("shortlisted_round2")),
      Get(counts, Some("hired")));
    BucketsShareOut(apps);
  }

  lemma BucketsShareOut(apps: seq<Application>)
    ensures var m := multiset(Statuses(apps));
      m[Some("applied")] + m[Some("shortlisted_round1")] + m[Some("shortlisted_round2")] + m[Some("hired")] <= |apps|
    ensures var m := multiset(Statuses(apps));
      m[Some("applied")] + m[Some("shortlisted_round1")] + m[Some("shortlisted_round2")] + m[Some("hired")] == |apps| <==>
        forall i :: 0 <= i < |apps| ==> apps[i].status in BucketStatuses()
  {
    var b := BucketStatuses();
    var xs := Statuses(apps);
    assert Distinct(b);
    OccurrencesBound(xs, b);
    assert SumOccurrences(xs, b[3..]) == multiset(xs)[b[3]] + SumOccurrences(xs, []);
    assert SumOccurrences(xs, b[2..]) == multiset(xs)[b[2]] + SumOccurrences(xs, b[3..]);
    assert SumOccurrences(xs, b[1..]) == multiset(xs)[b[1]] + SumOccurrences(xs, b[2..]);
    assert forall i :: 0 <= i < |apps| ==> xs[i] == apps[i].status;
    assert (forall i :: 0 <= i < |xs| ==> xs[i] in b) <==> (forall i :: 0 <= i < |apps| ==> apps[i].status in b);
  }

  /** An insertion-ordered JSON object: `d[k] = v` keeps an existing key in
      place and appends a new one. */
  function Put(d: seq<(string, nat)>, k: string, v: nat): seq<(string, nat)>
  {
    if |d| == 0 then [(k, v)]
    else if d[0].0 == k then [(k, v)] + d[1..]
    else [d[0]] + Put(d[1..], k, v)
  }

  lemma {:induction false} PutNewKey(d: seq<(string, nat)>, k: string, v: nat)
    requires forall i :: 0 <= i < |d| ==> d[i].0 != k
    ensures Put(d, k, v) == d + [(k, v)]
  {
    if |d| > 0 {
      PutNewKey(d[1..], k, v);
    }
  }

  /** `round((funnel[key] / total) * 100) if total else 0`. */
  function FunnelPercent(count: nat, total: nat): nat
  {
    if total == 0 then 0 else Percent(count, total)
  }

  /** Ten applications, 5 "applied", 3 "shortlisted_round1", none
      "shortlisted_round2" and 2 "hired", give 50, 30, 0 and 20 percent. */
  lemma FunnelPercentExample()
    ensures FunnelPercent(5, 10) == 50 && FunnelPercent(3, 10) == 30
    ensures FunnelPercent(0, 10) == 0 && FunnelPercent(2, 10) == 20
  {
  }

  /** The funnel object before its percentage loop: the four buckets. */
  function FunnelBuckets(counts: seq<Bin<Option<string>>>): seq<(string, nat)>
  {
    [ (Buckets[0], Get(counts, Some(Buckets[0]))), (Buckets[1], Get(counts, Some(Buckets[1]))),
      (Buckets[2], Get(counts, Some(Buckets[2]))), (Buckets[3], Get(counts, Some(Buckets[3]))) ]
  }

  /** How the funnel route ends: with its object, or with the exception
      CPython raises when a dict changes size while it is iterated. */
  datatype FunnelOutcome = Returned(funnel: seq<(string, nat)>) | DictChangedSizeDuringIteration

  /** The funnel route as written: `for key in funnel:` inserts
      `key + "_percent"` into the very dict it iterates. CPython's dict
      iterator remembers the size it started with and raises RuntimeError
      on the next step after the size changes, so the route fails on every
      input, the empty one included. */
  method ApplicationFunnelAsWritten(apps: seq<Application>) returns (r: FunnelOutcome)
    ensures r == DictChangedSizeDuringIteration
  {
    var total := |apps|;
    var counts := CountStatuses(apps);
    var funnel := FunnelBuckets(counts);
    var size, pos, failed := |funnel|, 0, false;
    while !failed && pos < |funnel|
      invariant size == 4 && pos <= 1
      invariant !failed ==> |funnel| == size + pos
      invariant pos == 0 ==> funnel == FunnelBuckets(counts)
      decreases (if failed then 0 else 1) + size - pos
    {
      if |funnel| != size {
        failed := true;
      } else {
        var key := funnel[pos].0;
        PutNewKey(funnel, key + "_percent", FunnelPercent(funnel[pos].1, total));
        funnel := Put(funnel, key + "_percent", FunnelPercent(funnel[pos].1, total));
        pos := pos + 1;
      }
    }
    r := if failed then DictChangedSizeDuringIteration else Returned(funnel);
  }

  lemma PercentKeysAreNew(k: nat, i: nat)
    requires k < 4 && i < 4
    ensures Buckets[k] + "_percent" != Buckets[i]
    ensures i != k ==> Buckets[k] + "_percent" != Buckets[i] + "_percent"
  {
    if i != k && |Buckets[k]| == |Buckets[i]| {
      assert (Buckets[k] + "_percent")[17] != (Buckets[i] + "_percent")[17];
    }
  }

  /** The funnel view as evidently intended: the four buckets, each the
      number of applications with that status, then for each bucket
      `<bucket>_percent`, its share of all applications whatever their
      status, 0 when there are none, and never above 100. The percentage
      loop runs over the four bucket names, not over the object it extends. */
  method ApplicationFunnel(apps: seq<Application>) returns (funnel: seq<(string, nat)>)
    ensures |funnel| == 8
    ensures forall i :: 0 <= i < 4 ==> funnel[i] == (Buckets[i], multiset(Statuses(apps))[Some(Buckets[i])])
    ensures forall i :: 0 <= i < 4 ==> funnel[4 + i].0 == Buckets[i] + "_percent"
    ensures forall i :: 0 <= i < 4 ==> funnel[4 + i].1 == FunnelPercent(funnel[i].1, |apps|)
    ensures forall i :: 4 <= i < 8 ==> funnel[i].1 <= 100
    ensures |apps| == 0 ==> forall i :: 0 <= i < 8 ==> funnel[i].1 == 0
  {
    var total := |apps|;
    var counts := CountStatuses(apps);
    TallyCounts(Statuses(apps));
    BucketsShareOut(apps);
    var start := FunnelBuckets(counts);
    funnel := start;
    for k := 0 to 4
      invariant |funnel| == 4 + k && funnel[..4] == start
      invariant forall i :: 0 <= i < k ==> funnel[4 + i] == (Buckets[i] + "_percent", FunnelPercent(start[i].1, total))
    {
      var key := Buckets[k];
      forall i | 0 <= i < |funnel| ensures funnel[i].0 != key + "_percent" {
        if i < 4 {
          assert funnel[i] == start[i];
          PercentKeysAreNew(k, i);
        } else {
          PercentKeysAreNew(k, i - 4);
        }
      }
      PutNewKey(funnel, key + "_percent", FunnelPercent(funnel[k].1, total));
      assert funnel[k] == start[k];
      funnel := Put(funnel, key + "_percent", FunnelPercent(funnel[k].1, total));
    }
    assert forall i :: 0 <= i < 4 ==> funnel[i] == start[i];
  }

  // --------------------------------------------------------- offer acceptance

  /** `sum(1 for app in apps if app["status"] == s)`: the number of
      applications whose status is s. */
  function CountStatus(apps: seq<Application>, s: string): (n: nat)
    ensures n == multiset(Statuses(apps))[Some(s)]
  {
    if |apps| == 0 then 0
    else
      var p := apps[..|apps| - 1];
      assert Statuses(apps) == Statuses(p) + [apps[|apps| - 1].status];
      CountStatus(p, s) + if apps[|apps| - 1].status == Some(s) then 1 else 0
  }

  datatype OfferRates = OfferRates(accepted: nat, rejected: nat)

  /** Both rates are 0 without applications; otherwise each is the nearest
      whole percentage of "hired" (accepted) and "rejected" applications
      among all of them, each in 0..100, and since other statuses count
      for neither, together at most 101. */
  function OfferAcceptance(apps: seq<Application>): (r: OfferRates)
    ensures |apps| == 0 ==> r == OfferRates(0, 0)
    ensures |apps| > 0 ==>
              && (2 * r.accepted - 1) * |apps| <= 200 * CountStatus(apps, "hired") <= (2 * r.accepted + 1) * |apps|
              && (2 * r.rejected - 1) * |apps| <= 200 * CountStatus(apps, "rejected") <= (2 * r.rejected + 1) * |apps|
    ensures r.accepted <= 100 && r.rejected <= 100
    ensures r.accepted + r.rejected <= 101
  {
    var accepted, rejected := CountStatus(apps, "hired"), CountStatus(apps, "rejected");
    if |apps| == 0 then OfferRates(0, 0)
    else
      HiredAndRejectedWithin(apps);
      var a, b := Percent(accepted, |apps|), Percent(rejected, |apps|);
      Distribute(2 * a - 1, 2 * b - 1, |apps|);
      ScaleCancel(2 * a - 1 + 2 * b - 1, 200, |apps|);
      OfferRates(a, b)
  }

  lemma HiredAndRejectedWithin(apps: seq<Application>)
    ensures CountStatus(apps, "hired") + CountStatus(apps, "rejected") <= |apps|
  {
    var keys := [Some("hired"), Some("rejected")];
    OccurrencesBound(Statuses(apps), keys);
    assert SumOccurrences(Statuses(apps), keys[1..]) == multiset(Statuses(apps))[keys[1]] + SumOccurrences(Statuses(apps), []);
  }

  // ---------------------------------- source of hire, location, gender diversity

  /** The profile columns read with a fallback. */
  datatype Column = Source | Location | Gender

  function ColumnOf(p: Profile, col: Column): Field<string>
  {
    match col
    case Source => p.source
    case Location => p.location
    case Gender => p.gender
  }

  /** `p.get(column, fallback)` for every profile. */
  function Labels(ps: seq<Profile>, col: Column, fallback: string): seq<Option<string>>
  {
    seq(|ps|, i requires 0 <= i < |ps| => FieldOr(ColumnOf(ps[i], col), fallback))
  }

  /** The loop `for p in profiles: counts[p.get(column, fallback)] += 1`,
      which three views share. */
  method CountLabels(ps: seq<Profile>, col: Column, fallback: string) returns (counts: seq<Bin<Option<string>>>)
    ensures counts == Tally(Labels(ps, col, fallback))
  {
    counts := [];
    for i := 0 to |ps|
      invariant counts == Tally(Labels(ps[..i], col, fallback))
    {
      assert Labels(ps[..i + 1], col, fallback)[..i] == Labels(ps[..i], col, fallback);
      counts := Bump(counts, FieldOr(ColumnOf(ps[i], col), fallback));
    }
    assert ps[..|ps|] == ps;
  }

  /** The count-plus-percentage list of the profiles labelled by a column. */
  function LabelShares(ps: seq<Profile>, col: Column, fallback: string): seq<Share<Option<string>>>
  {
    TallyCounts(Labels(ps, col, fallback));
    Shares(Tally(Labels(ps, col, fallback)))
  }

  /** A profile without a source counts as "other". */
  method SourceOfHire(ps: seq<Profile>) returns (r: seq<Share<Option<string>>>)
    ensures r == LabelShares(ps, Source, "other")
  {
    var counts := CountLabels(ps, Source, "other");
    TallyCounts(Labels(ps, Source, "other"));
    r := Shares(counts);
  }

  /** A profile without a location counts as "unknown". */
  method CandidatesByLocation(ps: seq<Profile>) returns (r: seq<Bin<Option<string>>>)
    ensures r == Tally(Labels(ps, Location, "unknown"))
  {
    r := CountLabels(ps, Location, "unknown");
  }

  /** A profile without a gender counts as "unknown". */
  method GenderDiversity(ps: seq<Profile>) returns (r: seq<Share<Option<string>>>)
    ensures r == LabelShares(ps, Gender, "unknown")
  {
    var counts := CountLabels(ps, Gender, "unknown");
    TallyCounts(Labels(ps, Gender, "unknown"));
    r := Shares(counts);
  }

  /** Counting profiles by a column conserves them: one entry per distinct
      label (the fallback standing in for a missing column), in first-seen
      order, each holding the number of profiles with that label, all
      adding up to the number of profiles. */
  lemma LabelCountsConserve(ps: seq<Profile>, col: Column, fallback: string)
    ensures var c := Tally(Labels(ps, col, fallback));
      && Distinct(Keys(c))
      && Total(c) == |ps|
      && InFirstSeenOrder(c, Labels(ps, col, fallback))
      && (forall i :: 0 <= i < |c| ==> c[i].count == multiset(Labels(ps, col, fallback))[c[i].key] > 0)
      && (forall i :: 0 <= i < |ps| ==> ColumnOf(ps[i], col).Missing? ==> Get(c, Some(fallback)) > 0)
      && (forall i :: 0 <= i < |ps| ==> ColumnOf(ps[i], col).Null? ==> Get(c, None) > 0)
      && (forall i :: 0 <= i < |ps| ==> ColumnOf(ps[i], col).Present? ==> Get(c, Some(ColumnOf(ps[i], col).value)) > 0)
  {
    var xs := Labels(ps, col, fallback);
    TallyCounts(xs);
    TallyFirstSeen(xs);
    forall i | 0 <= i < |ps|
      ensures ColumnOf(ps[i], col).Missing? ==> Get(Tally(xs), Some(fallback)) > 0
      ensures ColumnOf(ps[i], col).Null? ==> Get(Tally(xs), None) > 0
      ensures ColumnOf(ps[i], col).Present? ==> Get(Tally(xs), Some(ColumnOf(ps[i], col).value)) > 0
    {
      assert xs[i] == FieldOr(ColumnOf(ps[i], col), fallback);
      assert xs[i] in xs;
    }
  }

  /** The count-plus-percentage views (source of hire, gender diversity)
      conserve the profiles, and their percentages, each the nearest whole
      share of all profiles, add up to 100 within half a point per entry. */
  lemma LabelSharesAddUp(ps: seq<Profile>, col: Column, fallback: string)
    ensures Total(Tally(Labels(ps, col, fallback))) == |ps|
    ensures var r := LabelShares(ps, col, fallback);
      && (|r| == 0 <==> |ps| == 0)
      && (forall i :: 0 <= i < |r| ==>
            && r[i].count == multiset(Labels(ps, col, fallback))[r[i].key]
            && (2 * r[i].percentage - 1) * |ps| <= 200 * r[i].count <= (2 * r[i].percentage + 1) * |ps|
            && r[i].percentage <= 100)
      && (|ps| > 0 ==> 200 - |r| <= 2 * PercentSum(r) <= 200 + |r|)
  {
    var xs := Labels(ps, col, fallback);
    var c := Tally(xs);
    TallyCounts(xs);
    if |ps| > 0 {
      assert xs[0] in Keys(c);
      SharesAddUp(c);
    }
  }

  // ---------------------------------------------------------- jobs by company

  function CompanyNames(companies: seq<Company>): map<int, Option<string>>
  {
    Lookup.Index(seq(|companies|, i requires 0 <= i < |companies| => (companies[i].id, companies[i].name)))
  }

  /** `company_map.get(job["company_id"], "unknown")` for every job. */
  function CompanyLabels(jobs: seq<Job>, names: map<int, Option<string>>): seq<Option<string>>
  {
    seq(|jobs|, i requires 0 <= i < |jobs| => Lookup.Get(names, jobs[i].companyId, Some("unknown")))
  }

  method JobsByCompany(jobs: seq<Job>, companies: seq<Company>) returns (r: seq<Bin<Option<string>>>)
    ensures r == Tally(CompanyLabels(jobs, CompanyNames(companies)))
  {
    var companyMap := CompanyNames(companies);
    r := [];
    for i := 0 to |jobs|
      invariant r == Tally(CompanyLabels(jobs[..i], companyMap))
    {
      assert CompanyLabels(jobs[..i + 1], companyMap)[..i] == CompanyLabels(jobs[..i], companyMap);
      r := Bump(r, Lookup.Get(companyMap, jobs[i].companyId, Some("unknown")));
    }
    assert jobs[..|jobs|] == jobs;
  }

  /** Jobs by company conserves the jobs: every job lands in exactly one
      bucket, and the bucket counts add up to the number of jobs. */
  lemma JobsByCompanyConserves(jobs: seq<Job>, companies: seq<Company>)
    ensures var labels := CompanyLabels(jobs, CompanyNames(companies));
      && Total(Tally(labels)) == |jobs|
      && Distinct(Keys(Tally(labels)))
      && (forall i :: 0 <= i < |Tally(labels)| ==> Tally(labels)[i].count == multiset(labels)[Tally(labels)[i].key])
  {
    TallyCounts(CompanyLabels(jobs, CompanyNames(companies)));
  }

  /** A job's bucket is labelled with the name of the (last listed) company
      its `company_id` names, or "unknown" when no company has that id. */
  lemma CompanyLabelOf(job: Job, companies: seq<Company>)
    ensures (job.companyId.None? || forall c :: 0 <= c < |companies| ==> companies[c].id != job.companyId.value) ==>
              Lookup.Get(CompanyNames(companies), job.companyId, Some("unknown")) == Some("unknown")
    ensures forall c :: 0 <= c < |companies| && job.companyId == Some(companies[c].id) &&
              (forall d :: c < d < |companies| ==> companies[d].id != companies[c].id)
              ==> Lookup.Get(CompanyNames(companies), job.companyId, Some("unknown")) == companies[c].name
  {
    var pairs := seq(|companies|, i requires 0 <= i < |companies| => (companies[i].id, companies[i].name));
    assert forall c :: 0 <= c < |companies| ==> pairs[c] == (companies[c].id, companies[c].name);
  }

  // --------------------------------------------------------------- top skills

  /** Lower-cases the ASCII letters A-Z. */
  function Lower(s: string): string
  {
    seq(|s|, i requires 0 <= i < |s| => if 'A' <= s[i] <= 'Z' then (s[i] as int + 32) as char else s[i])
  }

  function LowerAll(skills: seq<string>): seq<string>
  {
    seq(|skills|, i requires 0 <= i < |skills| => Lower(skills[i]))
  }

  /** `profile.get("skills", []) or []`: a missing or null list has no skills. */
  function SkillsOf(p: Profile): seq<string>
  {
    match p.skills
    case Present(skills) => skills
    case _ => []
  }

  /** Every skill of every profile, lower-cased, in order. */
  function SkillTokens(ps: seq<Profile>): seq<string>
  {
    if |ps| == 0 then [] else SkillTokens(ps[..|ps| - 1]) + LowerAll(SkillsOf(ps[|ps| - 1]))
  }

  lemma LowerAllSnoc(skills: seq<string>, j: nat)
    requires j < |skills|
    ensures LowerAll(skills[..j + 1]) == LowerAll(skills[..j]) + [Lower(skills[j])]
  {
  }

  /** Every counted skill is already lower-case. */
  lemma {:induction false} SkillTokensLowered(ps: seq<Profile>)
    ensures forall t :: t in SkillTokens(ps) ==> Lower(t) == t
  {
    if |ps| > 0 {
      SkillTokensLowered(ps[..|ps| - 1]);
      var added := LowerAll(SkillsOf(ps[|ps| - 1]));
      forall t | t in added ensures Lower(t) == t {
        var j :| 0 <= j < |added| && added[j] == t;
        assert Lower(Lower(SkillsOf(ps[|ps| - 1])[j])) == t;
      }
    }
  }

  /** A profile whose skills are missing or null adds no skill. */
  lemma NoSkillsAddNothing(ps: seq<Profile>, p: Profile)
    requires !p.skills.Present?
    ensures SkillTokens(ps + [p]) == SkillTokens(ps)
  {
    assert (ps + [p])[..|ps|] == ps;
  }

  /** Counting the next skill of a profile bumps that skill's count. */
  lemma CountOneSkill(before: seq<string>, skills: seq<string>, j: nat)
    requires j < |skills|
    ensures Tally(before + LowerAll(skills[..j + 1])) == Bump(Tally(before + LowerAll(skills[..j])), Lower(skills[j]))
  {
    LowerAllSnoc(skills, j);
    assert before + LowerAll(skills[..j + 1]) == (before + LowerAll(skills[..j])) + [Lower(skills[j])];
    TallySnoc(before + LowerAll(skills[..j]), Lower(skills[j]));
  }

  lemma SkillTokensStep(ps: seq<Profile>, i: nat)
    requires i < |ps|
    ensures SkillTokens(ps[..i + 1]) == SkillTokens(ps[..i]) + LowerAll(SkillsOf(ps[i]))
  {
    assert ps[..i + 1][..i] == ps[..i];
  }

  method TopSkills(ps: seq<Profile>) returns (r: seq<Bin<string>>)
    ensures r == Top(Ranked(Tally(SkillTokens(ps))), 10)
  {
    var skillCounts: seq<Bin<string>> := [];
    for i := 0 to |ps|
      invariant skillCounts == Tally(SkillTokens(ps[..i]))
    {
      var skills := SkillsOf(ps[i]);
      var before := SkillTokens(ps[..i]);
      assert before + LowerAll(skills[..0]) == before;
      for j := 0 to |skills|
        invariant skillCounts == Tally(before + LowerAll(skills[..j]))
      {
        CountOneSkill(before, skills, j);
        skillCounts := Bump(skillCounts, Lower(skills[j]));
      }
      assert skills[..|skills|] == skills;
      SkillTokensStep(ps, i);
    }
    assert ps[..|ps|] == ps;
    r := Top(Ranked(skillCounts), 10);
  }

  /** The top-skills view: at most 10 entries, each a distinct lower-cased
      skill with its number of occurrences over all profiles; non-increasing
      by count; no skill left out occurs more often than one kept; skills
      with equal counts in the order they were first seen. */
  lemma TopSkillsRanks(ps: seq<Profile>)
    ensures var tokens := SkillTokens(ps);
      var r := Top(Ranked(Tally(tokens)), 10);
      && |r| <= 10
      && |r| == (if |Tally(tokens)| < 10 then |Tally(tokens)| else 10)
      && Descending(r)
      && (forall i :: 0 <= i < |r| ==> r[i].key in tokens && r[i].count == multiset(tokens)[r[i].key])
      && Distinct(Keys(r))
      && (forall k, i :: k in tokens && k !in Keys(r) && 0 <= i < |r| ==> multiset(tokens)[k] <= r[i].count)
      && TiesInFirstSeenOrder(r, tokens)
  {
    var tokens := SkillTokens(ps);
    TopRanksTally(tokens, 10);
  }

  /** The first n of the stable descending ranking of the counts of xs. */
  lemma TopRanksTally<K>(xs: seq<K>, n: nat)
    ensures var r := Top(Ranked(Tally(xs)), n);
      && |r| == (if |Tally(xs)| < n then |Tally(xs)| else n)
      && Descending(r)
      && (forall i :: 0 <= i < |r| ==> r[i].key in xs && r[i].count == multiset(xs)[r[i].key])
      && Distinct(Keys(r))
      && (forall k, i :: k in xs && k !in Keys(r) && 0 <= i < |r| ==> multiset(xs)[k] <= r[i].count)
      && TiesInFirstSeenOrder(r, xs)
  {
    TallyFirstSeen(xs);
    TopOfRanking(Tally(xs), n, xs);
    TopEntriesCounted(xs, n);
    TopOmitsFewer(xs, n);
    TopKeysDistinct(xs, n);
  }

  /** Two kept entries never share a key: both would be the one bin of that
      key, so they would tie on its count and yet one would come first in
      first-seen order. */
  lemma TopKeysDistinct<K>(xs: seq<K>, n: nat)
    ensures Distinct(Keys(Top(Ranked(Tally(xs)), n)))
  {
    var c := Tally(xs);
    var r := Top(Ranked(c), n);
    TallyCounts(xs);
    TallyFirstSeen(xs);
    TopOfRanking(c, n, xs);
    forall i, j | 0 <= i < j < |r| ensures Keys(r)[i] != Keys(r)[j] {
      assert r[i] in c && r[j] in c;
    }
  }

  lemma TopEntriesCounted<K>(xs: seq<K>, n: nat)
    ensures var r := Top(Ranked(Tally(xs)), n);
      forall i :: 0 <= i < |r| ==> r[i].key in xs && r[i].count == multiset(xs)[r[i].key]
  {
    var c := Tally(xs);
    var r := Top(Ranked(c), n);
    TallyCounts(xs);
    TallyFirstSeen(xs);
    TopOfRanking(c, n, xs);
    forall i | 0 <= i < |r| ensures r[i].key in xs && r[i].count == multiset(xs)[r[i].key] {
      assert r[i] in c;
    }
  }

  lemma TopOmitsFewer<K>(xs: seq<K>, n: nat)
    ensures var r := Top(Ranked(Tally(xs)), n);
      forall k, i :: k in xs && k !in Keys(r) && 0 <= i < |r| ==> multiset(xs)[k] <= r[i].count
  {
    var r := Top(Ranked(Tally(xs)), n);
    forall k | k in xs && k !in Keys(r) ensures forall i :: 0 <= i < |r| ==> multiset(xs)[k] <= r[i].count {
      OmittedRanksLow(xs, n, k);
    }
  }

  lemma OmittedRanksLow<K>(xs: seq<K>, n: nat, k: K)
    requires k in xs && k !in Keys(Top(Ranked(Tally(xs)), n))
    ensures forall i :: 0 <= i < |Top(Ranked(Tally(xs)), n)| ==> multiset(xs)[k] <= Top(Ranked(Tally(xs)), n)[i].count
  {
    var ranked := Ranked(Tally(xs));
    var r := Top(ranked, n);
    var j := RankedPosition(xs, k);
    assert forall m :: 0 <= m < |r| ==> Keys(r)[m] == ranked[m].key;
    assert j >= |r|;
    TallyFirstSeen(xs);
    TopOfRanking(Tally(xs), n, xs);
  }

  /** Where a counted element sits in the ranking. */
  lemma RankedPosition<K>(xs: seq<K>, k: K) returns (j: nat)
    requires k in xs
    ensures j < |Ranked(Tally(xs))| && Ranked(Tally(xs))[j] == Bin(k, multiset(xs)[k])
  {
    var c := Tally(xs);
    TallyCounts(xs);
    var a :| 0 <= a < |c| && Keys(c)[a] == k;
    assert c[a] in multiset(Ranked(c));
    j :| 0 <= j < |Ranked(c)| && Ranked(c)[j] == c[a];
  }

  // ---------------------------------------------------- recruiter performance

  function JobCompanies(jobs: seq<Job>): map<int, Option<int>>
  {
    Lookup.Index(seq(|jobs|, i requires 0 <= i < |jobs| => (jobs[i].id, jobs[i].companyId)))
  }

  function CompanyRecruiters(companies: seq<Company>): map<int, Option<int>>
  {
    Lookup.Index(seq(|companies|, i requires 0 <= i < |companies| => (companies[i].id, companies[i].recruiterId)))
  }

  function RecruiterNames(recruiters: seq<Recruiter>): map<int, Option<string>>
  {
    Lookup.Index(seq(|recruiters|, i requires 0 <= i < |recruiters| => (recruiters[i].id, recruiters[i].fullName)))
  }

  /** `company_to_recruiter.get(job_to_company.get(app["job_id"]))`. */
  function RecruiterOf(a: Application, jobToCompany: map<int, Option<int>>, companyToRecruiter: map<int, Option<int>>): Option<int>
  {
    Lookup.Get(companyToRecruiter, Lookup.Get(jobToCompany, a.jobId, None), None)
  }

  /** (recruiter the chain resolves to, hired) of every application. */
  function Chain(apps: seq<Application>, jobToCompany: map<int, Option<int>>, companyToRecruiter: map<int, Option<int>>): seq<(Option<int>, bool)>
  {
    seq(|apps|, i requires 0 <= i < |apps| => (RecruiterOf(apps[i], jobToCompany, companyToRecruiter), IsHired(apps[i])))
  }

  /** The rows whose id is truthy, with the id unwrapped; the rest are dropped. */
  function TruthyRows(rows: seq<(Option<int>, bool)>): seq<(int, bool)>
  {
    if |rows| == 0 then []
    else
      var last := rows[|rows| - 1];
      TruthyRows(rows[..|rows| - 1]) + if Truthy(last.0) then [(last.0.value, last.1)] else []
  }

  /** Dropping the rows with a falsy id keeps every other row: a nonzero id
      k occurs with each flag exactly as often as Some(k) did, and 0 never
      occurs. */
  lemma {:induction false} TruthyRowsKeep(rows: seq<(Option<int>, bool)>)
    ensures forall k, h :: k != 0 ==> multiset(TruthyRows(rows))[(k, h)] == multiset(rows)[(Some(k), h)]
    ensures forall i :: 0 <= i < |TruthyRows(rows)| ==> TruthyRows(rows)[i].0 != 0
  {
    if |rows| > 0 {
      var p, last := rows[..|rows| - 1], rows[|rows| - 1];
      assert rows == p + [last];
      TruthyRowsKeep(p);
    }
  }

  lemma TruthyRowCount(rows: seq<(Option<int>, bool)>, k: int, h: bool)
    requires k != 0
    ensures multiset(TruthyRows(rows))[(k, h)] == multiset(rows)[(Some(k), h)]
  {
    TruthyRowsKeep(rows);
  }

  /** Counting the rows with a truthy id by id: one entry per distinct id,
      never 0, holding the number of rows with Some(id) and, no more than
      that, the number of those flagged hired; the entries add up to the
      number of kept rows. */
  lemma TruthyStats(rows: seq<(Option<int>, bool)>)
    ensures var s := StatsOf(TruthyRows(rows));
      && Distinct(Keys(Totals(s)))
      && Total(Totals(s)) == |TruthyRows(rows)|
      && forall i :: 0 <= i < |s| ==>
           && s[i].key != 0
           && s[i].total == multiset(RowKeys(rows))[Some(s[i].key)] > 0
           && s[i].hired == multiset(rows)[(Some(s[i].key), true)]
           && s[i].hired <= s[i].total
  {
    var t := TruthyRows(rows);
    var s := StatsOf(t);
    StatsEntries(t);
    TruthyRowsKeep(rows);
    forall i | 0 <= i < |s|
      ensures s[i].key != 0 && s[i].total == multiset(RowKeys(rows))[Some(s[i].key)]
    {
      var k := s[i].key;
      assert k in RowKeys(t);
      var j :| 0 <= j < |t| && RowKeys(t)[j] == k;
      assert t[j].0 == k;
      RowKeysCount(t, k);
      RowKeysCount(rows, Some(k));
    }
  }

  /** Every row whose id is truthy is counted under that id. */
  lemma TruthyRowsReachStats(rows: seq<(Option<int>, bool)>)
    ensures forall i :: 0 <= i < |rows| && Truthy(rows[i].0) ==> rows[i].0.value in Keys(Totals(StatsOf(TruthyRows(rows))))
  {
    var t := TruthyRows(rows);
    StatsCounts(t);
    TallyCounts(RowKeys(t));
    TruthyRowsKeep(rows);
    forall i | 0 <= i < |rows| && Truthy(rows[i].0) ensures rows[i].0.value in Keys(Totals(StatsOf(t))) {
      var k := rows[i].0.value;
      assert rows[i] == (Some(k), rows[i].1);
      assert multiset(rows)[rows[i]] > 0;
      TruthyRowCount(rows, k, rows[i].1);
      var j :| 0 <= j < |t| && t[j] == (k, rows[i].1);
      assert RowKeys(t)[j] == k;
    }
  }

  datatype RecruiterRow = RecruiterRow(recruiter: Option<string>, applied: nat, hired: nat)

  /** `[{"recruiter": recruiter_map.get(rid, "unknown"), **stats} for rid, stats in performance.items()]`. */
  function Named(stats: seq<Stat<int>>, names: map<int, Option<string>>): seq<RecruiterRow>
  {
    seq(|stats|, i requires 0 <= i < |stats| =>
      RecruiterRow(Lookup.Get(names, Some(stats[i].key), Some("unknown")), stats[i].total, stats[i].hired))
  }

  /** The recruiter-performance view, keyed by recruiter id before naming. */
  function PerformanceStats(companies: seq<Company>, jobs: seq<Job>, apps: seq<Application>): seq<Stat<int>>
  {
    StatsOf(TruthyRows(Chain(apps, JobCompanies(jobs), CompanyRecruiters(companies))))
  }

  lemma ChainStep(apps: seq<Application>, i: nat, jobToCompany: map<int, Option<int>>, companyToRecruiter: map<int, Option<int>>)
    requires i < |apps|
    ensures Chain(apps[..i + 1], jobToCompany, companyToRecruiter) ==
              Chain(apps[..i], jobToCompany, companyToRecruiter) + [(RecruiterOf(apps[i], jobToCompany, companyToRecruiter), IsHired(apps[i]))]
  {
  }

  lemma TruthyRowsSnoc(rows: seq<(Option<int>, bool)>, x: (Option<int>, bool))
    ensures Truthy(x.0) ==> TruthyRows(rows + [x]) == TruthyRows(rows) + [(x.0.value, x.1)]
    ensures !Truthy(x.0) ==> TruthyRows(rows + [x]) == TruthyRows(rows)
  {
    assert (rows + [x])[..|rows|] == rows;
  }

  method RecruiterPerformance(recruiters: seq<Recruiter>, companies: seq<Company>, jobs: seq<Job>, apps: seq<Application>)
    returns (r: seq<RecruiterRow>)
    ensures r == Named(PerformanceStats(companies, jobs, apps), RecruiterNames(recruiters))
  {
    var recruiterMap := RecruiterNames(recruiters);
    var companyToRecruiter := CompanyRecruiters(companies);
    var jobToCompany := JobCompanies(jobs);
    var performance: seq<Stat<int>> := [];
    for i := 0 to |apps|
      invariant performance == StatsOf(TruthyRows(Chain(apps[..i], jobToCompany, companyToRecruiter)))
    {
      var companyId := Lookup.Get(jobToCompany, apps[i].jobId, None);
      var recruiterId := Lookup.Get(companyToRecruiter, companyId, None);
      ChainStep(apps, i, jobToCompany, companyToRecruiter);
      assert recruiterId == RecruiterOf(apps[i], jobToCompany, companyToRecruiter);
      TruthyRowsSnoc(Chain(apps[..i], jobToCompany, companyToRecruiter), (recruiterId, IsHired(apps[i])));
      if Truthy(recruiterId) {
        StatsOfSnoc(TruthyRows(Chain(apps[..i], jobToCompany, companyToRecruiter)), (recruiterId.value, IsHired(apps[i])));
        performance := BumpStat(performance, recruiterId.value, IsHired(apps[i]));
      }
    }
    assert apps[..|apps|] == apps;
    r := Named(performance, recruiterMap);
  }

  function AppliedSum(r: seq<RecruiterRow>): nat
  {
    if |r| == 0 then 0 else r[0].applied + AppliedSum(r[1..])
  }

  lemma {:induction false} AppliedSumOfNamed(s: seq<Stat<int>>, names: map<int, Option<string>>)
    ensures AppliedSum(Named(s, names)) == Total(Totals(s))
  {
    if |s| > 0 {
      assert Named(s, names)[1..] == Named(s[1..], names);
      assert Totals(s)[1..] == Totals(s[1..]);
      AppliedSumOfNamed(s[1..], names);
    }
  }

  /** Recruiter performance counts an application only when its chain
      job -> company -> recruiter ends at a truthy recruiter id: one entry
      per such recruiter (never id 0 or null), whose `applied` is the number
      of applications reaching it and whose `hired` is the number of those
      hired, never more; the unresolved applications are dropped, so the
      `applied` values add up to the number of resolved ones; a recruiter
      id with no recruiter row is shown as "unknown". */
  lemma RecruiterPerformanceCounts(recruiters: seq<Recruiter>, companies: seq<Company>, jobs: seq<Job>, apps: seq<Application>)
    ensures var chain := Chain(apps, JobCompanies(jobs), CompanyRecruiters(companies));
      var s := PerformanceStats(companies, jobs, apps);
      var r := Named(s, RecruiterNames(recruiters));
      && |r| == |s|
      && Distinct(Keys(Totals(s)))
      && AppliedSum(r) == |TruthyRows(chain)|
      && (forall i :: 0 <= i < |r| ==>
            && s[i].key != 0
            && r[i].applied == multiset(RowKeys(chain))[Some(s[i].key)] > 0
            && r[i].hired == multiset(chain)[(Some(s[i].key), true)]
            && r[i].hired <= r[i].applied
            && r[i].recruiter == (if s[i].key in RecruiterNames(recruiters) then RecruiterNames(recruiters)[s[i].key] else Some("unknown")))
      && (forall i :: 0 <= i < |chain| && Truthy(chain[i].0) ==> chain[i].0.value in Keys(Totals(s)))
  {
    var chain := Chain(apps, JobCompanies(jobs), CompanyRecruiters(companies));
    TruthyStats(chain);
    TruthyRowsReachStats(chain);
    AppliedSumOfNamed(StatsOf(TruthyRows(chain)), RecruiterNames(recruiters));
  }

  // ----------------------------------------------------------- time to hire

  const MicrosPerDay: int := 86_400_000_000

  /** `(now - created).days`: the whole days elapsed, rounded down. */
  function DaysSince(created: int, now: int): (d: int)
    ensures d * MicrosPerDay <= now - created < (d + 1) * MicrosPerDay
  {
    (now - created) / MicrosPerDay
  }

  /** The days since creation of every hired application whose `created_at`
      parses; the others contribute nothing. */
  function HireDurations(apps: seq<Application>, now: int): seq<int>
  {
    if |apps| == 0 then []
    else
      var a := apps[|apps| - 1];
      HireDurations(apps[..|apps| - 1], now) +
        if IsHired(a) && a.createdAt.Some? then [DaysSince(a.createdAt.value.micros, now)] else []
  }

  /** Each hired application gives at most one duration, exactly one when
      its timestamp parses; which ones they are is HireDurationsMembers. */
  lemma {:induction false} HireDurationsFromHired(apps: seq<Application>, now: int)
    ensures |HireDurations(apps, now)| <= CountStatus(apps, "hired")
    ensures (forall i :: 0 <= i < |apps| && IsHired(apps[i]) ==> apps[i].createdAt.Some?) ==>
              |HireDurations(apps, now)| == CountStatus(apps, "hired")
  {
    if |apps| > 0 {
      var p := apps[..|apps| - 1];
      HireDurationsFromHired(p, now);
      assert forall i :: 0 <= i < |p| ==> p[i] == apps[i];
    }
  }

  /** A duration is listed exactly when some hired application with a
      parsable timestamp was created that many days before now. */
  lemma {:induction false} HireDurationsMembers(apps: seq<Application>, now: int)
    ensures forall d :: d in HireDurations(apps, now) <==>
              exists i :: 0 <= i < |apps| && IsHired(apps[i]) && apps[i].createdAt.Some? &&
                d == DaysSince(apps[i].createdAt.value.micros, now)
  {
    if |apps| > 0 {
      var p, a := apps[..|apps| - 1], apps[|apps| - 1];
      HireDurationsMembers(p, now);
      assert forall i :: 0 <= i < |p| ==> p[i] == apps[i];
      forall d | d in HireDurations(apps, now)
        ensures exists i :: 0 <= i < |apps| && IsHired(apps[i]) && apps[i].createdAt.Some? &&
                  d == DaysSince(apps[i].createdAt.value.micros, now)
      {
        if d !in HireDurations(p, now) {
          assert apps[|apps| - 1] == a;
        }
      }
    }
  }

  function SumOf(s: seq<int>): int
  {
    if |s| == 0 then 0 else SumOf(s[..|s| - 1]) + s[|s| - 1]
  }

  /** `min(s)`. */
  function MinOf(s: seq<int>): (m: int)
    requires |s| > 0
    ensures m in s && forall x :: x in s ==> m <= x
  {
    if |s| == 1 then s[0]
    else
      var rest := MinOf(s[1..]);
      assert s == [s[0]] + s[1..];
      if s[0] <= rest then s[0] else rest
  }

  /** `max(s)`. */
  function MaxOf(s: seq<int>): (m: int)
    requires |s| > 0
    ensures m in s && forall x :: x in s ==> x <= m
  {
    if |s| == 1 then s[0]
    else
      var rest := MaxOf(s[1..]);
      assert s == [s[0]] + s[1..];
      if s[0] >= rest then s[0] else rest
  }

  /** The integers behind the time-to-hire view: the sum and number of
      durations (whose quotient, to one decimal, is `averageDays`), the
      minimum and the maximum. */
  datatype HireTimes = HireTimes(totalDays: int, hires: nat, minDays: int, maxDays: int)

  /** Time to hire looks only at hired applications with a parsable
      timestamp; with none it is all zeros, otherwise minDays <= maxDays,
      both taken from the durations and bounding all of them. */
  method TimeToHire(apps: seq<Application>, now: int) returns (r: HireTimes)
    ensures r.hires == |HireDurations(apps, now)| && r.totalDays == SumOf(HireDurations(apps, now))
    ensures r.hires == 0 ==> r == HireTimes(0, 0, 0, 0)
    ensures r.hires > 0 ==>
              && r.minDays <= r.maxDays
              && r.minDays in HireDurations(apps, now) && r.maxDays in HireDurations(apps, now)
              && forall d :: d in HireDurations(apps, now) ==> r.minDays <= d <= r.maxDays
  {
    var durations: seq<int> := [];
    for i := 0 to |apps|
      invariant durations == HireDurations(apps[..i], now)
    {
      assert apps[..i + 1][..i] == apps[..i];
      if IsHired(apps[i]) {
        match apps[i].createdAt
        case None =>  // `except: continue`
        case Some(created) =>
          durations := durations + [DaysSince(created.micros, now)];
      }
    }
    assert apps[..|apps|] == apps;
    if |durations| == 0 {
      return HireTimes(0, 0, 0, 0);
    }
    r := HireTimes(SumOf(durations), |durations|, MinOf(durations), MaxOf(durations));
  }

  // ------------------------------------------------------------ job popularity

  function JobTitles(jobs: seq<Job>): map<int, Option<string>>
  {
    Lookup.Index(seq(|jobs|, i requires 0 <= i < |jobs| => (jobs[i].id, jobs[i].title)))
  }

  /** The job id of every application; a missing key reads as null. */
  function JobIdColumn(apps: seq<Application>): seq<Option<int>>
  {
    seq(|apps|, i requires 0 <= i < |apps| => apps[i].jobId)
  }

  /** The truthy job ids, in order (`if job_id:`). */
  function JobIds(apps: seq<Application>): seq<int>
  {
    if |apps| == 0 then []
    else
      var id := apps[|apps| - 1].jobId;
      JobIds(apps[..|apps| - 1]) + if Truthy(id) then [id.value] else []
  }

  lemma JobIdsStep(apps: seq<Application>, i: nat)
    requires i < |apps|
    ensures Truthy(apps[i].jobId) ==> JobIds(apps[..i + 1]) == JobIds(apps[..i]) + [apps[i].jobId.value]
    ensures !Truthy(apps[i].jobId) ==> JobIds(apps[..i + 1]) == JobIds(apps[..i])
  {
    assert apps[..i + 1][..i] == apps[..i];
  }

  lemma {:induction false} JobIdsKeep(apps: seq<Application>)
    ensures forall k :: k != 0 ==> multiset(JobIds(apps))[k] == multiset(JobIdColumn(apps))[Some(k)]
    ensures 0 !in JobIds(apps)
  {
    if |apps| > 0 {
      var p := apps[..|apps| - 1];
      JobIdsKeep(p);
      assert JobIdColumn(apps) == JobIdColumn(p) + [apps[|apps| - 1].jobId];
    }
  }

  datatype Popularity = Popularity(job: Option<string>, applications: nat)

  /** `{"job": job_titles.get(jid, "Unknown"), "applications": count}` for every ranked job id. */
  function Titled(ranked: seq<Bin<int>>, titles: map<int, Option<string>>): seq<Popularity>
  {
    seq(|ranked|, i requires 0 <= i < |ranked| =>
      Popularity(Lookup.Get(titles, Some(ranked[i].key), Some("Unknown")), ranked[i].count))
  }

  function JobPopularityOf(apps: seq<Application>, jobs: seq<Job>): seq<Popularity>
  {
    Top(Titled(Ranked(Tally(JobIds(apps))), JobTitles(jobs)), 10)
  }

  method JobPopularity(apps: seq<Application>, jobs: seq<Job>) returns (r: seq<Popularity>)
    ensures r == JobPopularityOf(apps, jobs)
  {
    var jobTitles := JobTitles(jobs);
    var counts: seq<Bin<int>> := [];
    for i := 0 to |apps|
      invariant counts == Tally(JobIds(apps[..i]))
    {
      JobIdsStep(apps, i);
      var jobId := apps[i].jobId;
      if Truthy(jobId) {
        TallySnoc(JobIds(apps[..i]), jobId.value);
        counts := Bump(counts, jobId.value);
      }
    }
    assert apps[..|apps|] == apps;
    var result := Titled(Ranked(counts), jobTitles);
    r := if |result| <= 10 then result else result[..10];
  }

  /** Naming the ranked entries and then keeping the first n is keeping the
      first n and then naming them. */
  lemma TopTitled(ranked: seq<Bin<int>>, titles: map<int, Option<string>>, n: nat)
    ensures Top(Titled(ranked, titles), n) == Titled(Top(ranked, n), titles)
  {
  }

  /** The job-popularity view: at most 10 entries, non-increasing by
      applications; each entry is a distinct nonzero job id with the number
      of applications naming it, shown under its title or "Unknown" when no
      job has that id; applications without a truthy job id are skipped;
      no job left out has more applications than one kept. */
  lemma JobPopularityRanks(apps: seq<Application>, jobs: seq<Job>)
    ensures var ids := JobIds(apps);
      var top := Top(Ranked(Tally(ids)), 10);
      var r := JobPopularityOf(apps, jobs);
      && |r| == |top| == (if |Tally(ids)| < 10 then |Tally(ids)| else 10)
      && (forall i, j :: 0 <= i < j < |r| ==> r[i].applications >= r[j].applications)
      && (forall i :: 0 <= i < |r| ==>
            && top[i].key != 0
            && r[i].applications == multiset(JobIdColumn(apps))[Some(top[i].key)]
            && r[i].job == (if top[i].key in JobTitles(jobs) then JobTitles(jobs)[top[i].key] else Some("Unknown")))
      && (forall k, i :: k in ids && k !in Keys(top) && 0 <= i < |r| ==>
            multiset(JobIdColumn(apps))[Some(k)] <= r[i].applications)
      && Distinct(Keys(top))
      && TiesInFirstSeenOrder(top, ids)
  {
    var ids := JobIds(apps);
    var top := Top(Ranked(Tally(ids)), 10);
    TopRanksTally(ids, 10);
    JobIdsKeep(apps);
    TopTitled(Ranked(Tally(ids)), JobTitles(jobs), 10);
    forall i | 0 <= i < |top| ensures top[i].key != 0 {
      assert top[i].key in ids;
    }
  }

  // --------------------------------------------------- average candidate score

  /** The integers behind the average-score view: the sums of the two scores,
      a null score counting as 0, and the number of profiles, which divides
      both sums. */
  datatype ScoreTotals = ScoreTotals(skills: int, context: int, count: nat)

  function ScoreOrZero(s: Option<int>): int
  {
    match s
    case Some(v) => v
    case None => 0
  }

  function ScoreTotalsOf(ps: seq<Profile>): (t: ScoreTotals)
    ensures t.count == |ps|
    ensures |ps| == 0 ==> t == ScoreTotals(0, 0, 0)
  {
    if |ps| == 0 then ScoreTotals(0, 0, 0)
    else
      var t := ScoreTotalsOf(ps[..|ps| - 1]);
      var p := ps[|ps| - 1];
      ScoreTotals(t.skills + ScoreOrZero(p.skillsScore), t.context + ScoreOrZero(p.contextScore), t.count + 1)
  }

  /** A profile with a null score adds nothing to that score's sum but still
      counts in the denominator. */
  lemma NullScoreStillCounts(ps: seq<Profile>, p: Profile)
    ensures p.skillsScore.None? ==> ScoreTotalsOf(ps + [p]).skills == ScoreTotalsOf(ps).skills
    ensures p.contextScore.None? ==> ScoreTotalsOf(ps + [p]).context == ScoreTotalsOf(ps).context
    ensures ScoreTotalsOf(ps + [p]).count == ScoreTotalsOf(ps).count + 1
  {
    assert (ps + [p])[..|ps|] == ps;
  }
}
