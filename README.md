# AWS cost report collector and aggregator, modelled in Dafny

The system is two AWS Lambda handlers.

- **Collector** (`cost-explorer.py`). It runs in each linked account. It
  asks Cost Explorer for the current month's blended cost per service,
  over the half-open range from the first of this month to the first of
  next month. It wraps the raw answer in an envelope and stores it in the
  account's bucket under `cost-reports/monthly/{account_id}_{YYYYMMDD_HHMMSS}.json`.
- **Aggregator** (`cost-explorer-agrregation.py`). It runs in the payer
  account. For each configured account it lists that bucket under
  `cost-reports/monthly/{account_id}_{YYYYMM}` for the current KST month
  and reads the most recently modified object. It walks
  `ResultsByTime[].Groups[]` and adds each group's amount to three
  things: the account total, the account's per-service map and the
  run-wide `service_costs`. A failing account is recorded with total zero,
  no services and the error. The aggregator then ranks the accounts and
  the top five services, each with its share of `total_cost`, and returns
  the figures with status 200.

The model is split into these modules:

- `Calendar` (calendar.dfy): clock readings and the two `strftime`
  formats the handlers share.
- `CostReport` (cost_report.dfy): the parsed Cost Explorer response and
  the specification of the aggregator's fold. That specification covers
  the flattened group walk, the first malformed group, the exact total,
  the per-service sums, and the sum of a map's values.
- `Ranking` (ranking.dfy): the library calls the aggregator ranks with.
  These are `max`, `sorted(..., reverse=True)`, the `cost > 0` filter, the
  top-N slice and the guarded percentage.
- `Collector` (collector.dfy): the collector's date range, labels, object
  key and run result.
- `Aggregator` (aggregator.dfy):
  - the latest-object choice;
  - the per-account specification `AccountOutcome`;
  - the imperative loops (`FoldDocument`, `FoldGroups`, `ProcessAccount`,
    `Aggregate`, `ShareAccounts`, `ShareServices`), each proved against
    those specifications;
  - the run-level identities;
  - the summaries, the handler, and how the collector's keys relate to the
    aggregator's search prefix.

One behaviour of the aggregator is kept as written. A group whose `Keys`
or `Amount` cannot be read raises part-way through an account. The groups
before it have already been added to the run-wide `service_costs`, but the
account's total never reaches `total_cost`.
`Aggregator.ServiceCostsBalance` states the exact relation:
`service_costs` adds up to `total_cost` plus what failed accounts left
behind. `Aggregator.ServiceCostsMatchTotal` states when the two agree.
`Aggregator.PartialFailureLeaks` exhibits a report for which they differ
by 5.00.

## Model

| member | source | states |
|---|---|---|
| `Calendar.YearMonthInjective` | cost-explorer-agrregation.py:34 | Two readings give the same `%Y%m` label exactly when they fall in the same year and month. |
| `Calendar.TimestampRoundTrip` | cost-explorer.py:62 | Parsing a formatted `%Y%m%d_%H%M%S` timestamp gives back the original reading. |
| `Calendar.TimestampExact` | cost-explorer.py:62 | Every string the timestamp parser accepts is exactly the timestamp of the valid reading it returns. |
| `Collector.NextMonthStart` | cost-explorer.py:28-33 | The end of the range is a valid first day of a month strictly after the month's first day. It is an error exactly for December of year 9999, where `replace` raises. |
| `Collector.RangeCoversTheMonth` | cost-explorer.py:24-33 | A valid date lies in [start, end) exactly when it is in the month of the reading. |
| `Collector.StartDateIsFirstOfMonth` | cost-explorer.py:26 | The start date is sent as the envelope's `YYYY-MM` label followed by `-01`. |
| `Collector.MonthLabelIsDashedYearMonth` | cost-explorer.py:57 | The envelope's `%Y-%m` month is the aggregator's `%Y%m` label with a dash after the year. |
| `Collector.ObjectKeysDistinct` | cost-explorer.py:62-66 | For one account, two runs write the same key exactly when they read the same second on the clock. |
| `Collector.Collect` | cost-explorer.py:17-72 | The run follows the handler's order: `get_caller_identity`, the range end, the Cost Explorer query, `put_object`. It fails exactly when one of these raises, with the text of the first that does. Otherwise it stores the query's answer verbatim under the timestamped key, with the caller's account id, the reading and the month label, for the first-of-month range. |
| `Collector.Respond` | cost-explorer.py:76-95 | The status is 200 exactly after a stored report, with the stored account id, month, key and timestamp in the body. Otherwise it is 500 with the exception text. |
| `Collector.LambdaHandler` | cost-explorer.py:17-95 | The handler answers 200 exactly when no step raised. Its body then names the caller's account id, the key built from that id and the reading, the `YYYY-MM` month, and a timestamp that parses back to the reading. Otherwise it answers 500 with the first exception's text. |
| `CostReport.FirstMalformed` | cost-explorer-agrregation.py:88-90 | Gives the position of the first group whose keys or amount cannot be read: every group before it is well formed, and the group there is malformed. |
| `CostReport.FlattenResultsPrefix` | cost-explorer-agrregation.py:85-88 | Walking the first i time buckets visits a prefix of the groups of the whole walk. |
| `CostReport.FlattenResultsWithoutGroups` | cost-explorer-agrregation.py:86-87 | Time buckets without a `Groups` key contribute no groups to the walk. |
| `CostReport.TotalAppend` | cost-explorer-agrregation.py:102 | The accumulated total of a concatenation is the sum of the two totals. |
| `CostReport.ByServiceAppend` | cost-explorer-agrregation.py:93-100 | Folding a concatenation under service names is folding the first part and then the second. |
| `CostReport.ByServiceIsPerServiceSum` | cost-explorer-agrregation.py:89-100 | After the per-service fold, a service is a key exactly when it was already there or some group names it (`Unknown` for empty `Keys`). Its value is its earlier value plus the sum of the amounts of the groups charged to it. |
| `CostReport.MapSumByService` | cost-explorer-agrregation.py:98-102 | The per-service fold adds exactly the groups' total to the sum of the map's values. |
| `Ranking.ArgMax` | cost-explorer-agrregation.py:171 | `max(..., key=...)` returns an element whose key no element exceeds, and it is the first such element. |
| `Ranking.SortDescending` | cost-explorer-agrregation.py:178 | `sorted(..., reverse=True)` yields a permutation of its input with non-increasing costs. |
| `Ranking.SortMembers` | cost-explorer-agrregation.py:178 | An entry is in the ranking exactly when it is in the input. |
| `Ranking.SortKeepsNamesDistinct` | cost-explorer-agrregation.py:178 | Ranking the items of a dict keeps the names distinct. |
| `Ranking.PositiveMembers` | cost-explorer-agrregation.py:179-180 | The `if ... > 0` filter keeps exactly the entries of positive cost. |
| `Ranking.PositiveSorted` | cost-explorer-agrregation.py:179-180 | The filter keeps a ranking's order. |
| `Ranking.PositiveDistinct` | cost-explorer-agrregation.py:179-180 | The filter does not repeat names. |
| `Ranking.PositiveLength` | cost-explorer-agrregation.py:193-194 | The filter keeps at most as many entries as it is given. |
| `Ranking.TopDominates` | cost-explorer-agrregation.py:192-194 | No entry left out of the filtered top-N costs more than an entry kept in it. |
| `Ranking.TopComplete` | cost-explorer-agrregation.py:192-194 | When the filtered top-N holds fewer than N entries, it holds every entry of positive cost. |
| `Ranking.PercentageOfTotal` | cost-explorer-agrregation.py:181 | With a positive total, the percentage times the total gives the part times 100. It is 0 when the total is not positive, and it lies in 0..100 for a part between 0 and the total. |
| `Aggregator.ListByPrefix` | cost-explorer-agrregation.py:57-60 | The listing holds exactly the bucket's objects whose key starts with the prefix. |
| `Aggregator.LatestListed` | cost-explorer-agrregation.py:57-66 | If the listing raises, the error is a storage failure. Otherwise there is an error exactly when nothing has the month's prefix, and it is then "no cost data files" for the account id. When something is found, the chosen object is a prefixed object of the bucket with the greatest `LastModified`. |
| `Aggregator.AccountOutcome` | cost-explorer-agrregation.py:53-130 | Says exactly when an account fails. A listing failure or an empty listing is recorded as that error, with nothing folded. An unreadable body is recorded as its exception text, with nothing folded. A readable report fails exactly when it has a malformed group: the error is the first malformed group's, and the groups before it are folded. Otherwise the account succeeds with no error field, having folded all the groups. Every entry keeps the alias. A failed entry has total 0 and no services. A successful entry has the total and per-service sums of its groups. |
| `Aggregator.EmptyListingRecorded` | cost-explorer-agrregation.py:62-63 | An account with nothing under the month's prefix is recorded with total 0, no services and nothing folded. Its error text is "No cost data files found for account " followed by its id. |
| `Aggregator.SuccessfulAccount` | cost-explorer-agrregation.py:81-109 | A successful account read the latest listed object as a document. Its total is the sum of all its groups, and its services map holds exactly the named services, each with its own sum. Those sums add up to the total. |
| `Aggregator.ReportWithoutGroupsSucceeds` | cost-explorer-agrregation.py:79-109 | A latest report without `ResultsByTime`, or whose results have no `Groups`, is not an error. The account is recorded with total 0, no services and no error field. |
| `Aggregator.OutcomesConsistent` | cost-explorer-agrregation.py:45-130 | Every iteration of the account loop leaves a failed account at total 0 and a successful one at the total of what it folded. |
| `Aggregator.EveryAccountRecorded` | cost-explorer-agrregation.py:104-130 | The keys of `account_costs` are exactly the configured account ids, whether an account succeeds or fails. |
| `Aggregator.EntryOfAccount` | cost-explorer-agrregation.py:104-130 | An account's entry in `account_costs` is the outcome of its own iteration, unless a later account reuses its id. |
| `Aggregator.TotalIsSumOfAccountTotals` | cost-explorer-agrregation.py:104-130 | With distinct ids, `total_cost` is the sum of the totals recorded in `account_costs`. |
| `Aggregator.FoldedTotal` | cost-explorer-agrregation.py:98-111 | The groups the run folded total `total_cost` plus what failed accounts folded before raising. |
| `Aggregator.ServiceCostsBalance` | cost-explorer-agrregation.py:98-111 | The values of `service_costs` add up to `total_cost` plus the amounts failed accounts folded before raising. |
| `Aggregator.ServiceCostsMatchTotal` | cost-explorer-agrregation.py:98-111 | When no failed account folded anything, `service_costs` adds up to `total_cost`. |
| `Aggregator.MalformedReportOutcome` | cost-explorer-agrregation.py:88-130 | If the latest report has a malformed group, the account fails with that group's error after folding exactly the groups before it. |
| `Aggregator.PartialFailureLeaks` | cost-explorer-agrregation.py:88-130 | For one account whose latest report has a 5.00 EC2 group followed by a malformed one, `total_cost` is 0 while `service_costs` sums to 5.00. |
| `Aggregator.LeakReportIsReachable` | cost-explorer-agrregation.py:54-66 | A bucket holding that report under the month's prefix makes it the latest listed object. |
| `Aggregator.FoldDocument` | cost-explorer-agrregation.py:81-102 | The walk adds to `service_costs` exactly the groups before the first malformed one. It reports that group's error exactly when one exists. Without an error, it returns the account total and the per-service map of all groups. |
| `Aggregator.FoldGroups` | cost-explorer-agrregation.py:88-102 | The inner loop extends the walk's state by the bucket's groups up to its first malformed one, and fails exactly when there is one. |
| `Aggregator.FoldStep` | cost-explorer-agrregation.py:89-102 | Folding one well-formed group adds its amount to the total and under its service name in both maps. |
| `Aggregator.AddCost` | cost-explorer-agrregation.py:93-95 | Setting a missing key to zero and then adding gives the map with the amount added under that key. |
| `Aggregator.StopsAtMalformed` | cost-explorer-agrregation.py:86-90 | Where the nested loops raise is the position of the first malformed group of the flattened walk, and what was visited before is that position's prefix. |
| `Aggregator.ProcessAccount` | cost-explorer-agrregation.py:46-130 | One iteration's entry and new `service_costs` are those of `AccountOutcome` for that account. |
| `Aggregator.RunStep` | cost-explorer-agrregation.py:45-130 | One more account changes `total_cost` only on success, overwrites its id in `account_costs` with its entry, and folds its groups into `service_costs`. |
| `Aggregator.Aggregate` | cost-explorer-agrregation.py:40-130 | The loop's `total_cost`, `account_costs` and `service_costs` are those of the per-account outcomes, in order. |
| `Aggregator.Entries` | cost-explorer-agrregation.py:178 | `items()` lists every key of the map once, with its value. |
| `Aggregator.RankedPositive` | cost-explorer-agrregation.py:178-180 | Ranking a dict's items and keeping the positive ones gives exactly the keys with positive values, most expensive first, each once, as many as there are such keys. |
| `Aggregator.RankedTop` | cost-explorer-agrregation.py:192-194 | The positive entries among the first N of the ranking are at most N, positive entries of the map, non-increasing and distinct. No left-out key costs more than a kept one, and if fewer than N are kept, every positive key is kept. |
| `Aggregator.AccountSharesAreOfPayingAccounts` | cost-explorer-agrregation.py:177-188 | Each element built from the filtered ranking describes a paying account: its alias, total, percentage of `total_cost` and display name. The elements are non-increasing by cost and distinct by id. |
| `Aggregator.EveryPayingAccountShared` | cost-explorer-agrregation.py:177-188 | Every account of `account_costs` with a positive total appears in `account_summary`, and the summary has as many elements as `active_accounts` (line 170) counts. |
| `Aggregator.ShareAccounts` | cost-explorer-agrregation.py:179-188 | The append loop builds one share per ranked entry of positive total, in ranking order. |
| `Aggregator.AccountSummary` | cost-explorer-agrregation.py:177-188 | `account_summary` holds one correct share per paying account, most expensive first, with distinct ids, as many as `active_accounts`. |
| `Aggregator.ServiceSharesAreOfCostlyServices` | cost-explorer-agrregation.py:191-200 | At most five shares, each of a service with positive total and its percentage, non-increasing and distinct. |
| `Aggregator.SharedServices` | cost-explorer-agrregation.py:193-200 | The services named by the shares are exactly those of the entries they were built from. |
| `Aggregator.ServiceSharesDominate` | cost-explorer-agrregation.py:191-200 | No service left out costs more than one listed. If fewer than five are listed, every service with a positive total is listed. |
| `Aggregator.ShareServices` | cost-explorer-agrregation.py:193-200 | The append loop builds one share per entry of positive cost, in order. |
| `Aggregator.TopServices` | cost-explorer-agrregation.py:190-200 | `top_services` is at most five services of positive total with their percentages, most expensive first and distinct. None left out costs more, and all paying services are listed when fewer than five are. |
| `Aggregator.TopService` | cost-explorer-agrregation.py:171 | `top_service` is `"None"` for an empty `service_costs`, and otherwise a service of greatest total. |
| `Aggregator.LambdaHandler` | cost-explorer-agrregation.py:8-259 | The run reports status 200 and the `%Y%m` month of the reading. Its figures are those of the account loop, every configured account has an entry, and `active_accounts` equals the length of `account_summary`. Each summary element is a correct share, there are at most five top services, and `top_service` is `"None"` for an empty `service_costs` and otherwise a service of greatest total. |
| `Aggregator.CollectorKeyMatchesSearchPrefix` | cost-explorer-agrregation.py:54 | A key the collector wrote starts with the aggregator's search prefix exactly when the collector's reading is in the same year and month as the aggregator's. |

## Left out

- AWS calls are left out: STS, Cost Explorer, `list_objects_v2`, `get_object`, `put_object` and SNS.
  - The collector takes the outcomes of `get_caller_identity`, the Cost Explorer query and `put_object` (each a value or the exception text) and the clock reading as parameters.
  - The aggregator takes the buckets as a function from bucket name to contents or listing error.
- JSON encoding and decoding and UTF-8 are left out. A body that cannot be read or parsed is `Unreadable` with the exception text. The envelope's `generated_at` ISO string is the reading itself.
- The clock and time zones are left out. Each handler takes one reading as a parameter. The collector reads the clock three times; the model uses one reading for all three.
  - The collector's naive (UTC on Lambda) reading and the aggregator's KST reading are independent parameters.
  - `CollectorKeyMatchesSearchPrefix` shows which keys a month's search finds for any pair of readings.
- Decimal is modelled as exact `real`. The 28-digit context, NaN and infinities are left out, and so are the `float(...)` conversions and `round(..., 1)` of the output.
  - Percentages are exact quotients.
  - A string `Decimal` rejects is a `MalformedGroup`.
- The order of equal costs in `sorted` is left out. The model ranks by an insertion sort and states only the order and the permutation. The order `items()` lists a dict in is not modelled either.
- The log output is left out: all `print` calls, the per-account top three, the ten-service log ranking and the account ranking printed at lines 138-144.
- The SNS message text and both SNS publishes are left out. A failed publish does not change the result.
- The outer `except` on lines 261-291 is left out. It returns 500 only if an exception is raised outside the per-account `try`, in the summaries, sorts and result construction of lines 132-258. With a configured account list and exact arithmetic, none is raised there.
- `result_data`'s copy of `account_costs` without the `error` field is left out. The model keeps the entries with their error.
- `list_objects_v2` returns at most 1000 keys per call. The model lists every object.
- `%Y` is modelled as a four-digit zero-padded year; years below 1000 are not padded on every platform.
- The collector's unused `month_str` is left out.
- The collector's `S3_BUCKET_NAME` lookup is not modelled; the bucket name does not enter the upload model.
- In the aggregator, the order in which a group's `Keys` and `Amount` are read is not modelled. Either failure is one `MalformedGroup` raised before that group touches any sum.
- `Aggregator.LambdaHandler`: the ranking properties of `account_summary` and `top_services` are stated on `AccountSummary` and `TopServices`. The handler's own contract repeats only their lengths and the shares' correctness.
- `Aggregator.PartialFailureLeaks`: the discrepancy is shown for one report shape (a 5.00 group followed by a malformed one). `ServiceCostsBalance` states the general relation.
