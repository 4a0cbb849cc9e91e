# Dashboard analytics aggregations

A Dafny model of the recruiting dashboard's analytics routes in
`app/routes/dashboard.py`. Each route fetches whole tables of applications,
candidate profiles, jobs, companies and recruiters. It then folds those rows
in memory into a small JSON view. Examples: applications per month,
counts per status, the share of hires per source, top skills and job
popularity. The model takes the fetched rows as parameters and captures the
folding.

The model has six modules:

- `Rows` holds the row shapes. A column read with `row[...]` is an `Option`
  (null or a value). A column read with `row.get(key, default)` is a `Field`
  (missing, null or present), because the default replaces only a missing key.
- `Counter` models a `defaultdict(int)` as an insertion-ordered list of bins.
  `Bump` is `d[k] += 1` and `Tally` is the counting loop. `Stat` bins carry
  the two counters of the job-stats and recruiter views.
- `Lookup` models the id-keyed dict comprehensions, where the last row wins,
  and their `.get` reads.
- `Percentages` models `round((part / total) * 100)` with Python's half-to-even
  `round`, and the count-plus-percentage lists.
- `Ranking` models `sorted(items, key=count, reverse=True)[:n]` as a stable
  insertion sort followed by a prefix.
- `Dashboard` holds the routes. A route that loops is a method proved equal
  to a specification function. The lemmas beside it state what the view
  promises.

## Model

| member | source | states |
|---|---|---|
| Counter.TallyCounts | app/routes/dashboard.py:44-46 | counting rows into a dict conserves them: the counts total the number of rows, keys are distinct, a key is present iff some row carries it, and its count is its number of occurrences |
| Counter.TallyFirstSeen | app/routes/dashboard.py:102 | the counted dict lists its keys in the order they first occur among the rows |
| Counter.StatsEntries | app/routes/dashboard.py:29-35 | a two-counter dict has distinct keys in first-seen order, and its totals sum to the row count; per key, the total is its occurrences, hired is its hired occurrences, and hired never exceeds total |
| Counter.OccurrencesBound | app/routes/dashboard.py:48-53 | the occurrences of a set of distinct keys add up to at most the row count, and to exactly it iff every row is one of those keys |
| Lookup.Index | app/routes/dashboard.py:124 | every id in the rows becomes a key and nothing else does; a key whose row is the last with that id maps to that row's value |
| Percentages.RoundHalfEven | app/routes/dashboard.py:64 | the result is the integer nearest to n/d, and on an exact tie it is the even one |
| Percentages.Percent | app/routes/dashboard.py:64 | the nearest whole percentage of part in total; 0 for no part, 100 for all of it, never above 100 for a part of the total |
| Percentages.Shares | app/routes/dashboard.py:78-81 | one entry per bin with its key and count, and a percentage of the grand total in 0..100 |
| Percentages.SharesAddUp | app/routes/dashboard.py:78-81 | the percentages of a nonempty list add up to 100 within half a point per entry |
| Ranking.Ranked | app/routes/dashboard.py:143 | the ranking is non-increasing by count, a permutation of the dict, and stable: the entries of any one count keep their relative order |
| Ranking.RankedKeepsTieOrder | app/routes/dashboard.py:143 | ranking a first-seen-ordered dict leaves equal counts in first-seen order |
| Ranking.Top | app/routes/dashboard.py:143 | `items[:n]` keeps min(n, length) entries, the leading ones |
| Ranking.TopOfRanking | app/routes/dashboard.py:143 | the first n of a ranking hold min(n, size) entries from the dict, non-increasing; no entry left out outcounts a kept one; ties stay in first-seen order |
| Dashboard.JobStats | app/routes/dashboard.py:24-37 | the loop computes `JobStatsOf`: the route fails (None) when any `created_at` does not parse, and otherwise gives per-month counts |
| Dashboard.JobStatsConserves | app/routes/dashboard.py:29-37 | months are distinct; each month's applications is the number created in it, never 0, and its hired the number of those with status "hired", never more; the months total the number of applications |
| Dashboard.CountStatuses | app/routes/dashboard.py:44-46 | the status-counting loop yields the tally of the statuses, null included |
| Dashboard.ApplicationProgression | app/routes/dashboard.py:39-53 | each bucket is the number of applications with exactly that status (0 if none); the buckets total at most the number of applications, and exactly it iff every status is one of the four |
| Dashboard.BucketsShareOut | app/routes/dashboard.py:48-53 | statuses outside the four buckets fall in none: the four counts total the applications iff no other status occurs |
| Dashboard.ApplicationFunnelAsWritten | app/routes/dashboard.py:234-235 | as written, the route ends in "dictionary changed size during iteration" on every input, the empty one included |
| Dashboard.ApplicationFunnel | app/routes/dashboard.py:217-237 | the intended funnel has eight entries: the four buckets with their status counts, then `<bucket>_percent`, each bucket's share of all applications, 0 with no applications, never above 100 |
| Dashboard.PutNewKey | app/routes/dashboard.py:235 | assigning a key not yet in an ordered dict appends it |
| Dashboard.PercentKeysAreNew | app/routes/dashboard.py:235 | a `<bucket>_percent` key never collides with a bucket or with another bucket's percent key |
| Dashboard.FunnelPercentExample | app/routes/dashboard.py:235 | 5, 3, 0 and 2 of 10 applications give 50, 30, 0 and 20 percent |
| Dashboard.CountStatus | app/routes/dashboard.py:60-61 | the generator sum is the number of applications whose status is exactly the one asked for |
| Dashboard.OfferAcceptance | app/routes/dashboard.py:55-66 | both rates are 0 without applications; otherwise each is the nearest whole percentage of hired or rejected applications; each lies in 0..100 and together they reach at most 101 |
| Dashboard.HiredAndRejectedWithin | app/routes/dashboard.py:60-61 | hired and rejected applications together are at most all applications |
| Dashboard.CountLabels | app/routes/dashboard.py:73-76 | the label-counting loop yields the tally of each profile's column, read with its fallback |
| Dashboard.SourceOfHire | app/routes/dashboard.py:68-82 | the view is the count-plus-percentage list of the sources, with a missing source counted as "other" |
| Dashboard.CandidatesByLocation | app/routes/dashboard.py:92-102 | the view is the count of profiles per location, with a missing location counted as "unknown" |
| Dashboard.GenderDiversity | app/routes/dashboard.py:148-162 | the view is the count-plus-percentage list of the genders, with a missing gender counted as "unknown" |
| Dashboard.LabelCountsConserve | app/routes/dashboard.py:97-102 | one entry per distinct label in first-seen order, each counting the profiles with that label, all totalling the number of profiles; a missing column is counted under the fallback, a null column under null (not the fallback), and a present value under itself |
| Dashboard.LabelSharesAddUp | app/routes/dashboard.py:78-81 | counts total the profiles; the list is empty iff there are no profiles; each entry's percentage is the nearest whole share of all profiles, in 0..100, and they add to 100 within half a point per entry |
| Dashboard.JobsByCompany | app/routes/dashboard.py:118-130 | the loop yields the tally of each job's company label |
| Dashboard.JobsByCompanyConserves | app/routes/dashboard.py:125-130 | every job is counted in exactly one bucket, and the buckets total the number of jobs |
| Dashboard.CompanyLabelOf | app/routes/dashboard.py:124-127 | a job is labelled with the name of the last company row holding its `company_id`, or "unknown" when its id is null or unmatched |
| Dashboard.TopSkills | app/routes/dashboard.py:132-144 | the nested loops count every lower-cased skill of every profile, and the view is the first 10 of their stable ranking |
| Dashboard.TopSkillsRanks | app/routes/dashboard.py:143-144 | at most 10 entries with distinct skills, each with its number of occurrences; non-increasing; no skill left out occurs more often than one kept; ties in first-seen order |
| Dashboard.SkillTokensLowered | app/routes/dashboard.py:141 | every counted skill key is lower-case |
| Dashboard.NoSkillsAddNothing | app/routes/dashboard.py:139 | a profile whose skills are missing or null adds no skill |
| Dashboard.TopRanksTally | app/routes/dashboard.py:143 | the first n of the ranked counts have distinct keys and exact counts, are non-increasing, outrank everything left out and keep ties in first-seen order |
| Dashboard.TopKeysDistinct | app/routes/dashboard.py:143 | the first n of a ranked count dict never repeat a key |
| Dashboard.RecruiterPerformance | app/routes/dashboard.py:164-191 | the loop yields the per-recruiter counters of the applications whose job-company-recruiter chain ends at a truthy id, named through the recruiter map |
| Dashboard.RecruiterPerformanceCounts | app/routes/dashboard.py:178-191 | one entry per truthy recruiter id (never 0 or null); applied counts the applications reaching it, never 0, and hired those of them hired, never more; the applied counts total the resolved applications; an id with no recruiter row reads "unknown"; every resolved application is counted under its recruiter |
| Dashboard.TruthyStats | app/routes/dashboard.py:178-185 | counting rows by a truthy id gives distinct nonzero ids; each holds the rows with that id (at least one) and, no more, the hired ones; the counts total the kept rows |
| Dashboard.TruthyRowsReachStats | app/routes/dashboard.py:182-183 | every row with a truthy id is counted under that id |
| Dashboard.TruthyRowsKeep | app/routes/dashboard.py:182 | the `if recruiter_id:` filter drops exactly the rows with a null or 0 id and keeps every other row |
| Dashboard.TimeToHire | app/routes/dashboard.py:193-215 | the view summarises the durations of hired applications with a parsable timestamp: all zeros when there are none; otherwise their sum and number, with min ≤ max, both drawn from the durations and bounding all of them |
| Dashboard.HireDurationsFromHired | app/routes/dashboard.py:199-206 | there are at most as many durations as hires, and exactly as many when every hired timestamp parses |
| Dashboard.HireDurationsMembers | app/routes/dashboard.py:199-204 | a value is a listed duration iff some hired application with a parsable timestamp was created that many days before now |
| Dashboard.DaysSince | app/routes/dashboard.py:203 | `timedelta.days` is the floor of the elapsed days: the result times a day is at most the interval, which is less than one more day, negative intervals included |
| Dashboard.MinOf | app/routes/dashboard.py:213 | `min` is a member of the list and no larger than any member |
| Dashboard.MaxOf | app/routes/dashboard.py:214 | `max` is a member of the list and no smaller than any member |
| Dashboard.JobPopularity | app/routes/dashboard.py:239-258 | the loop counts the truthy job ids, and the view is the first 10 of their titled ranking |
| Dashboard.JobPopularityRanks | app/routes/dashboard.py:248-258 | at most 10 entries, non-increasing by applications; each is a nonzero job id with the number of applications naming it, titled or "Unknown" when no job has that id; no job left out has more applications than one kept; the kept job ids are distinct and jobs with equal counts appear in the order their first application appears |
| Dashboard.JobIdsKeep | app/routes/dashboard.py:249-251 | applications without a truthy job id are skipped, and every nonzero id keeps all its applications |
| Dashboard.TopTitled | app/routes/dashboard.py:253-258 | titling the ranking and then keeping 10 is keeping 10 and then titling them |
| Dashboard.ScoreTotalsOf | app/routes/dashboard.py:109-111 | the denominator of both averages is the number of profiles; no profiles give zero sums |
| Dashboard.NullScoreStillCounts | app/routes/dashboard.py:109-111 | a null score adds nothing to its sum but still counts in the denominator |

## Left out

- `dashboard_summary` (lines 7-22) only returns the lengths of three query results and a constant, and `lgbtq_inclusion` (lines 84-90) returns constants. Neither aggregates anything, so they are not modelled.
- The Flask routing, the Supabase queries and `jsonify` are left out. The rows each route fetches are parameters, and each view is returned as a Dafny value.
- `app/routes/offer.py`, `app/routes/interview.py`, `app/routes/recruiter.py` and `app/routes/company.py` are not part of this model. They pass requests through to the database.
- Timestamp parsing (`datetime.strptime` with `%Y-%m-%dT%H:%M:%S.%f`) is an input. A `created_at` arrives already parsed into its month and its microseconds since an epoch, or as "unparsable".
- `datetime.now()` is left out. The time-to-hire route takes the current time as a parameter. The source reads the clock afresh for each hired application inside its loop, while the model uses one instant for all of them, so a duration computed across a day boundary during the loop can differ by one day.
- Dashboard.TimeToHire: returns the sum and number of durations rather than the floating-point `averageDays` rounded to one decimal.
- Dashboard.ScoreTotalsOf: returns the integer score sums and the profile count rather than the floating-point averages rounded to two decimals. Scores are modelled as integers.
- Percentages.Percent: rounds the exact ratio half to even. Python rounds the float `(v / total) * 100`, whose rounding error can move a result off an exact .5 tie. Away from such ties the two agree.
- Dashboard.Lower: lower-cases ASCII letters only. Python's `str.lower` also folds non-ASCII letters.
- A row lacking a column read with `row[...]` raises `KeyError` in the source. The model treats such a column as null, since the queries select every column they read.
- Skill lists are modelled as lists of strings. A non-string skill, which would make `.lower()` raise, is not modelled.

## Findings

| source | as written | input that shows it | evidently intended | confidence | as-written member | corrected member |
|---|---|---|---|---|---|---|
| app/routes/dashboard.py:234-235 | `for key in funnel:` assigns `funnel[key + "_percent"]`, inserting into the dict it iterates. CPython's dict iterator raises `RuntimeError: dictionary changed size during iteration` on its next step. | any input, the empty list of applications included: the first assignment grows the dict from 4 to 5 keys, and the second step raises | loop over the four bucket names, giving the eight-field funnel with `<bucket>_percent` against all applications | high; not executed | Dashboard.ApplicationFunnelAsWritten | Dashboard.ApplicationFunnel |

The route is meant to return the eight-field funnel, with 5/3/0/2 of 10
applications giving 50/30/0/20. The code as written never returns it. The model follows
the code in `Dashboard.ApplicationFunnelAsWritten`, and models the corrected
route as `Dashboard.ApplicationFunnel`.
