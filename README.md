# Service level reporting, modelled in Dafny

This project models the computational core of a service level reporting service. The service
computes Service Level Indicators (SLIs) from monitoring backends, stores them per minute, and
summarises them against the targets of Service Level Objectives (SLOs). The model covers:

- **The ZMON/KairosDB source** (`Kairos`, `Zmon`). This covers the KairosDB query body and the
  bucketing of the returned series. Readings are floored to whole minutes and grouped by
  (entity, key prefix) into value and weight slots. Each minute is reduced by the weighted,
  average, sum, min or max aggregation. Nonzero results are clamped away from zero by a
  positive ε. The fetch window of an incremental update is modelled too. So is the
  indicator-value table: a class whose `map` is keyed by (timestamp, indicator id), with its
  upsert, windowed read, paging, grouped aggregates and windowed delete.
- **The older copies of the aggregation engine** (`Variants`, `Legacy`). These are
  `app/slo.py`, `hack.py` and the monolithic `app/resources/sli/sources.py`. Each is proved
  to agree or disagree with the current engine. A fourth copy, `app/libs/zmon.py`
  (`query_sli`), repeats the current engine's bucketing and aggregation, so the `Kairos`
  members model it as they stand.
- **The Lightstep source** (`Lightstep`), with its older scripts (`LightstepScripts`,
  `LightstepCommon`). This covers metric-name parsing, request flags, extraction of
  (timestamp, value) pairs from the timeseries answer, the page-window arithmetic,
  configuration validation and the response handling.
- **Source dispatch** (`Sources`): a configuration's `type` selects the backend, with "zmon"
  when absent.
- **The product report** (`Report`): values are bucketed by day, and count, sum, average,
  minimum, maximum and breaches of a target's bounds are computed per day.
- **The REST rules** (`SliApi`, `Resource`, `Utils`):
  - SLI validation, the cached aggregation and the soft delete;
  - the value-listing and query windows;
  - paging, id-from-URI, field copying and page links;
  - column prefix stripping.
- **Authorization and request plumbing** (`Community`, `TokenSession`, `Throttle`):
  - the community authorization rules;
  - the session's token cache, a class updated in place;
  - the rate limiter's key.
- **The two command-line clients** (`SlrCli` for `zmon_slr/main.py`, `LegacyCli` for `cli.py`,
  both sharing `CliAction`). Their validators record errors on an `Action` object. Also
  modelled: dict flattening, the key search over a check's alert data, and the range checks.
- **The two weekly report renderers** (`SlrRender` for `zmon_slr/generate_slr.py`, `SlrLegacy`
  for `generate-slr.py`). This covers durations, aggregate selection, day-cell classes, SLO
  totals, target verdicts, the report period and the retry loop.

Python values are modelled by `PyValue` (JSON-like values with Python truthiness) and
`OrderedDict` (dicts as insertion-ordered association lists). `PyStr` models the string
operations the code uses, over ASCII text.

Code that updates state step by step is modelled as methods with loops, each proved against a
specification function. Examples: the bucketing loops, the upsert loop, the validators that
append to `act.errors`, the key searches, the session store and `call_and_retry`. Code made of
expressions is modelled as functions.

Where the description of the system and the code disagree, the model follows the code:

- **Breach counting.** A target bound of 0 is dropped by `from or -inf`
  (app/resources/report/api.py:82-83). With `from=0, to=100` and values `[50, 150, -10, 99]`,
  only 150 breaches, so the count is 1, not 2 (`Report.ZeroLowerBound`).
- **Lightstep validators.** The command-line client validates Lightstep sources under
  `stream-id` with metric names `ops-count`/`p50`. The server reads `stream_id` with
  `operation_count`/`latency_p50`. A source one accepts the other refuses
  (`SlrCli.LightstepValidatorsDisagree`).
- **The shipped `app/resources/sli/sources/base.py`.** It defines none of `TimeRange`,
  `RelativeMinutesRange`, `DatetimeRange` or `IndicatorValueAggregate`, which `zmon.py` and
  `lightstep.py` import from it. Its `Pagination` requires `page` and `per_page` and has no
  `next_num`, yet `lightstep.py:131` builds it with no arguments. The model follows the users
  of the module:
  - a time range is a pair of instants;
  - a pagination record has an optional page, a page size and an optional next page.

## Model

| member | source | states |
|---|---|---|
| `Kairos.KeyMatchesAny` | app/resources/sli/sources/zmon.py:24-28 | the loop answers true exactly when some pattern matches the key |
| `Kairos.BuildQueryMeaning` | app/resources/sli/sources/zmon.py:206-239 | the query names metric `zmon.check.<check_id>` (the id reads back from it) and starts `start` minutes back with the query limit; a tag reads the source's own tag, else for `key` the keys followed by the weight keys; an end is sent only when a non-zero end is given |
| `Kairos.MinuteOfBounds` | app/resources/sli/sources/zmon.py:258-259 | a point lands in the whole minute that contains its millisecond stamp, and flooring a minute again changes nothing |
| `Kairos.KeyPrefixMeaning` | app/resources/sli/sources/zmon.py:264 | the group key is the key without its last dotted segment: prefix, dot and last segment give back the key; a key without a dot has the empty prefix |
| `Kairos.Bucket` | app/resources/sli/sources/zmon.py:246-272 | the bucketing loops build exactly the bucket function of the result series |
| `Kairos.BucketsHoldFedGroups` | app/resources/sli/sources/zmon.py:246-272 | group g exists in minute m exactly when some series with values, not excluded, of group g has a point in m |
| `Kairos.BucketsSlotMeaning` | app/resources/sli/sources/zmon.py:255-270 | in each minute a group's value slot and weight slot each hold the last point in that minute of the last counted series of the group whose key sends it to that slot (the weight slot only for weighted aggregation and a key matching weight_keys), and are empty when no such series has a point there |
| `Kairos.BucketsWellFormed` | app/resources/sli/sources/zmon.py:246-272 | the minutes of the buckets are distinct and each holds at least one group |
| `Kairos.BucketMinutes` | app/resources/sli/sources/zmon.py:246-260 | a minute is bucketed exactly when some series with values and a key outside exclude_keys has a point in it |
| `Kairos.BucketSeriesValued` | app/resources/sli/sources/zmon.py:266-272 | unless the aggregation is weighted, every group of every minute carries a value |
| `Kairos.ValuesOf` | app/resources/sli/sources/zmon.py:303-305 | one value per group, in group order, each the group's value |
| `Kairos.MinOf` | app/resources/sli/sources/zmon.py:303 | the result is one of the values and no value is smaller |
| `Kairos.MaxOf` | app/resources/sli/sources/zmon.py:305 | the result is one of the values and no value is greater |
| `Kairos.WeightedTotalsOf` | app/resources/sli/sources/zmon.py:276-285 | the loop's totals are the weights of the groups with a value (1 when missing) and the sum of value times weight |
| `Kairos.SumValues` | app/resources/sli/sources/zmon.py:290-300 | the loop's total is the sum of the groups' values |
| `Kairos.AggregateMinute` | app/resources/sli/sources/zmon.py:274-305 | one minute's value is the aggregate its type defines, none for an unknown type |
| `Kairos.AggregateBuckets` | app/resources/sli/sources/zmon.py:273-305 | the aggregation loop gives the aggregate of every minute in order |
| `Kairos.AggregateAllMeaning` | app/resources/sli/sources/zmon.py:273-307 | a known type gives every bucketed minute its aggregate, in bucket order; an unknown type gives an empty result |
| `Kairos.BucketsAggregable` | app/resources/sli/sources/zmon.py:290-305 | no minute of a response raises: every minute has a group, and every group has a value unless the type is weighted |
| `Kairos.ProcessResponse` | app/resources/sli/sources/zmon.py:245-307 | the processing of a response returns the query result function of its series |
| `Kairos.QueryResultMinutes` | app/resources/sli/sources/zmon.py:245-307 | with a known type the result lists each minute once, exactly the minutes some counted series has a point in; with an unknown type it is empty |
| `Kairos.AverageOfEqualValues` | app/resources/sli/sources/zmon.py:290-294 | a minute whose groups all report the same value averages to exactly that value |
| `Kairos.AverageBetweenMinAndMax` | app/resources/sli/sources/zmon.py:290-305 | a minute's average lies between its minimum and its maximum |
| `Kairos.WeightedWithoutWeightsIsAverage` | app/resources/sli/sources/zmon.py:276-286 | a weighted minute in which no weight was reported equals the plain average of its values |
| `Kairos.WeightedTotalPositive` | app/resources/sli/sources/zmon.py:286-289 | with positive weights, one group with a value makes the total weight positive, so the zero-weight branch is not taken |
| `Kairos.WeightedBetweenBounds` | app/resources/sli/sources/zmon.py:274-289 | with positive weights a weighted minute lies between the least and the greatest of its values |
| `Kairos.ClampMeaning` | app/resources/sli/sources/zmon.py:331-335 | clamping keeps the sign, leaves zero and every value at least MinVal in magnitude alone, lifts the rest to MinVal in magnitude, moves a value by less than MinVal and is idempotent |
| `Zmon.MissingKeys` | app/resources/sli/sources/zmon.py:90-91 | a key is reported missing exactly when it is one of aggregation, check_id, keys and the config lacks it |
| `Zmon.ValidateConfig` | app/resources/sli/sources/zmon.py:89-113 | a config is accepted exactly when all five checks pass |
| `Zmon.ValidateConfigFirstFailure` | app/resources/sli/sources/zmon.py:89-113 | the first failing check, in source order, names the error: missing keys (listing them), empty keys, empty aggregation, invalid type, weighted without weight_keys |
| `Zmon.WindowMeaning` | app/resources/sli/sources/zmon.py:150-155 | the read window holds exactly the indicator's stored values with start <= timestamp < end, in strictly ascending timestamp order |
| `Zmon.Paginate` | app/resources/sli/sources/zmon.py:156-161 | a page below 1 reads as 1, a negative size as 20; the items are the matching slice of the ordered values; a next page exists exactly when page * per_page < total, and is page + 1 |
| `Zmon.PagesMeaning` | app/resources/sli/sources/zmon.py:157 | the paginator's `page < pages` with pages = ceil(total / per_page) is the same test as page * per_page < total |
| `Zmon.Newest` | app/resources/sli/sources/zmon.py:185-198 | the result is the newest instant in [now - slice, now) holding a value of the indicator, or none when no instant in that window does |
| `Zmon.StartRelativeAsWritten` | app/resources/sli/sources/zmon.py:199-202 | the fetch start computed with `.seconds` always lies between 5 and 1444 minutes |
| `Zmon.StartRelative` | app/resources/sli/sources/zmon.py:184-202 | the corrected fetch start always lies between 5 and slice + 5 minutes |
| `Zmon.StartRelativeCovers` | app/resources/sli/sources/zmon.py:184-202 | with no value in the slice the fetch covers the whole slice; otherwise the fetch starts 4 to 5 minutes before the newest stored value |
| `Zmon.StartRelativeAsWrittenMissesNewest` | app/resources/sli/sources/zmon.py:202 | a value stored exactly one slice (1440 minutes) ago gives a 5-minute fetch that starts after it, where the corrected start is 1445 |
| `Zmon.StartRelativeAgreement` | app/resources/sli/sources/zmon.py:202 | the written and corrected starts agree exactly when the newest value is not exactly one slice old |
| `Zmon.StoredHits` | app/resources/sli/sources/zmon.py:331-339 | after the upsert loop, each result minute holds its clamped value for the indicator |
| `Zmon.StoredElsewhere` | app/resources/sli/sources/zmon.py:331-339 | the upsert loop leaves every other (timestamp, indicator) key of the store as it was |
| `Zmon.StoredIdempotent` | app/resources/sli/sources/zmon.py:331-339 | repeating the upserts of the same result leaves the store unchanged |
| `Zmon.GroupRunsFlatten` | app/resources/sli/sources/zmon.py:176-179 | the groups of `itertools.groupby`, concatenated, give back the values in order |
| `Zmon.GroupRunsSeparate` | app/resources/sli/sources/zmon.py:176-179 | every group is non-empty and neighbouring groups have different keys |
| `Zmon.GroupRunsShareKey` | app/resources/sli/sources/zmon.py:176-179 | every member of a group has the group's key |
| `Zmon.IndicatorStore.constructor` | app/resources/sli/sources/zmon.py:31-50 | the value table starts empty |
| `Zmon.IndicatorStore.Upsert` | app/resources/sli/sources/zmon.py:69-84 | the store maps (timestamp, indicator_id) to the new value and is otherwise unchanged |
| `Zmon.IndicatorStore.GetIndicatorValues` | app/resources/sli/sources/zmon.py:143-164 | with both page and per_page given, the page of the read window and its pagination; otherwise the whole window and no pagination |
| `Zmon.IndicatorStore.GetIndicatorValueAggregates` | app/resources/sli/sources/zmon.py:166-182 | one entry per requested resolution, holding the read window grouped into runs by the truncated timestamp |
| `Zmon.IndicatorStore.DeleteAllIndicatorValues` | app/resources/sli/sources/zmon.py:116-123 | exactly the values of every indicator with from <= timestamp <= to are removed; the count is their number |
| `Zmon.IndicatorStore.UpdateIndicatorValues` | app/resources/sli/sources/zmon.py:310-346 | the query starts at the explicit relative start, or else at the start computed as written with `.seconds` (`StartRelativeAsWritten`); the store becomes the old store with every result minute upserted, clamped; the count is the number of result minutes |
| `Zmon.UpdateMeaning` | app/resources/sli/sources/zmon.py:331-346 | after an update each result minute holds its clamped value, nothing else changed, and running the same update again changes nothing |
| `Lightstep.Names` | app/resources/sli/sources/lightstep.py:92-94 | one name per member, in definition order, each the member's name in lower case |
| `Lightstep.Lookup` | app/resources/sli/sources/lightstep.py:98 | a found member carries exactly the name looked up; no member is found only when no member has that name |
| `Lightstep.FromStr` | app/resources/sli/sources/lightstep.py:96-98 | a metric text names a member exactly when its upper-cased, dash-to-underscore form is some member's name, and then names that member |
| `Lightstep.FromStrName` | app/resources/sli/sources/lightstep.py:92-98 | every member's lower-cased name parses back to the member |
| `Lightstep.NamesRoundTrip` | app/resources/sli/sources/lightstep.py:92-98 | every name `names()` lists parses back to the member at the same position |
| `Lightstep.FromStrDashed` | app/resources/sli/sources/lightstep.py:96-98 | the dashed spelling `latency-p99` is accepted while the short `p99` is not |
| `Lightstep.RequestCoversExtraction` | app/resources/sli/sources/lightstep.py:33-79 | every count list a metric's extraction reads is included by its request, and a latency metric requests the very percentile it then looks for |
| `Lightstep.RequestKeys` | app/resources/sli/sources/lightstep.py:37-38 | the parameters a metric adds have distinct keys, each beginning with `include-` or `percentile`, so they never clash with the time and resolution parameters |
| `Lightstep.RawCounts` | app/resources/sli/sources/lightstep.py:78-79 | a raw count reads its list exactly when the list is there, and yields that list |
| `Lightstep.Rates` | app/resources/sli/sources/lightstep.py:52-55 | the rate fails only for a zero resolution with some counts; otherwise one value per count, each the count divided by the resolution |
| `Lightstep.RatesErrors` | app/resources/sli/sources/lightstep.py:52-55 | a failing rate raises Decimal's InvalidOperation or DivisionByZero |
| `Lightstep.ErrorRatios` | app/resources/sli/sources/lightstep.py:62-68 | the ratios fail exactly when some zipped window has zero operations; otherwise one ratio per zipped window, errors over operations |
| `Lightstep.ErrorRatiosErrors` | app/resources/sli/sources/lightstep.py:62-68 | a failing ratio raises Decimal's InvalidOperation or DivisionByZero |
| `Lightstep.FirstLatency` | app/resources/sli/sources/lightstep.py:41-42 | the entry found has the percentile and no earlier entry has it; none is found only when no entry has it |
| `Lightstep.LatencyValues` | app/resources/sli/sources/lightstep.py:40-45 | latencies are read exactly when the list is there: the first matching entry's values, or no values when none matches |
| `Lightstep.ExtractErrors` | app/resources/sli/sources/lightstep.py:25-79 | an extraction raises only KeyError, InvalidOperation or DivisionByZero |
| `Lightstep.ExtractNeverZeroDivision` | app/resources/sli/sources/lightstep.py:52-68 | no read, as written or as intended, raises a float ZeroDivisionError: a zero divisor raises only Decimal's DivisionByZero or InvalidOperation (both subclasses of ZeroDivisionError) |
| `Lightstep.FromResponse` | app/resources/sli/sources/lightstep.py:103-112 | a response is read exactly when the metric's values and the time windows are there, and then each window's youngest time is paired with its value, up to the shorter list |
| `Lightstep.FromResponseAsWrittenRejects` | app/resources/sli/sources/lightstep.py:107 | as written every metric except the operation rate raises TypeError on any response, and the operation rate reads as intended |
| `Lightstep.FromResponseLatencyExample` | app/resources/sli/sources/lightstep.py:40-45 | a complete 50th-percentile answer is rejected as written and read as intended |
| `Lightstep.PaginateTimerangeMeaning` | app/resources/sli/sources/lightstep.py:115-138 | a page's window starts (page - 1) * per_page steps into the range and lasts per_page steps, so consecutive pages tile it; the page is recorded only beyond the first; a next page exists exactly when the pages so far end before the range does |
| `Lightstep.PaginateTimerangeUnpaged` | app/resources/sli/sources/lightstep.py:121-122 | without a page or a page size the range passes unchanged and nothing is paginated |
| `Lightstep.ValidateConfigMeaning` | app/resources/sli/sources/lightstep.py:142-159 | a configuration passes exactly when its stream id is truthy and its metric is a string naming a member; a missing stream id is reported first; every refusal is a source error |
| `Lightstep.KeywordsNoMetric` | app/resources/sli/sources/lightstep.py:145 | the text of None and of the booleans names no metric, so an absent metric is refused |
| `Lightstep.NoLettersNoMetric` | app/resources/sli/sources/lightstep.py:145 | text that does not start with a letter, such as the text of a number, names no metric |
| `Lightstep.RequestParamsWindow` | app/resources/sli/sources/lightstep.py:198-201 | the request carries the window's two instants and the resolution in milliseconds |
| `Lightstep.RequestParamsMetric` | app/resources/sli/sources/lightstep.py:198-203 | the request carries every parameter the metric asks for, unchanged |
| `Lightstep.Readings` | app/resources/sli/sources/lightstep.py:222-230 | one reading per response pair, its parsed timestamp with its value, in order |
| `Lightstep.GetIndicatorValues` | app/resources/sli/sources/lightstep.py:210-214 | a failure on a 401 answer is always a source error, with either reader |
| `Lightstep.GetIndicatorValuesMeaning` | app/resources/sli/sources/lightstep.py:185-232 | the request is for the page's window at the effective resolution; a 401 and then a truthy errors entry are source errors; values are read exactly when neither happens and the chosen reader (as written or intended) reads the response, and they are then its pairs with parsed timestamps, with the page's pagination |
| `Lightstep.GetIndicatorValuesPages` | app/resources/sli/sources/lightstep.py:192-195 | the resolution defaults to a non-zero value, so the page arithmetic never divides by zero and, with either reader, no float ZeroDivisionError is raised; a zero divisor in an extraction raises only Decimal's DivisionByZero or InvalidOperation |
| `Lightstep.GetIndicatorValuesAsWritten` | app/resources/sli/sources/lightstep.py:222-230 | as written, a readable answer for any metric but the operation rate ends in TypeError, and for the operation rate the written read equals the intended one |
| `Lightstep.ValueAggregatesSucceed` | app/resources/sli/sources/lightstep.py:166-183 | with either reader, the aggregates are read exactly when the read at every aggregate's resolution succeeds |
| `Lightstep.ValueAggregatesMeaning` | app/resources/sli/sources/lightstep.py:169-175 | with either reader, read aggregates pair each aggregate, in order, with the values read over the whole unpaged range at its resolution |
| `Sources.KindOf` | app/resources/sli/sources/__init__.py:9 | a type value selects ZMON exactly when it is the text `zmon`, Lightstep exactly when it is the text `lightstep` |
| `Sources.SourceClassFromConfig` | app/resources/sli/sources/__init__.py:12-21 | the configuration handed on is the caller's with its `type` entry removed |
| `Sources.SourceClassAccepts` | app/resources/sli/sources/__init__.py:12-21 | only the two registered names are accepted, a missing type selects ZMON with the configuration unchanged, and `lightstep` selects Lightstep |
| `Sources.SourceClassRejects` | app/resources/sli/sources/__init__.py:18-21 | any other text type is a source error naming it and listing the registry's keys |
| `Sources.SourceClassStrips` | app/resources/sli/sources/__init__.py:13-14 | the configuration handed on has no type, reads every other key as the caller's does and has no key the caller's lacks |
| `Sources.ValidateConfigDelegates` | app/resources/sli/sources/__init__.py:24-27 | an untyped configuration is checked exactly as ZMON checks it; a typed one by the named backend without its `type` entry |
| `Sources.NewZmon` | app/resources/sli/sources/zmon.py:125-141 | a ZMON source builds exactly when the keyword arguments bind (no unknown key, the three required ones given), and otherwise raises TypeError |
| `Sources.NewLightstep` | app/resources/sli/sources/lightstep.py:161-164 | a Lightstep source that fails to build raises TypeError, AttributeError or KeyError |
| `Sources.NewLightstepMeaning` | app/resources/sli/sources/lightstep.py:161-164 | a Lightstep source builds exactly when stream_id and metric are its only arguments and the metric is text naming a member, and it then holds that member |
| `Sources.ValidatedBuilds` | app/resources/sli/sources/__init__.py:24-33 | a configuration that validates builds its source whenever it has no key the constructor does not take |
| `Sources.ValidatedButUnbuildable` | app/resources/sli/sources/__init__.py:24-33 | a valid ZMON configuration with one extra key passes validation yet raises TypeError when built |
| `Legacy.UpdateIndicatorValues` | app/resources/sli/sources.py:268-302 | whenever the update returns, it reports zero values written |
| `Legacy.UpdateVersions` | app/resources/sli/sources.py:268-302 | the update returns only with a relative start and an empty query result, and then the package's update writes nothing either; a known aggregation with any counted reading makes it raise NameError |
| `Legacy.Lookup` | app/resources/sli/sources.py:316 | a found member carries exactly the name looked up; none is found only when no member has that name |
| `Legacy.FromStr` | app/resources/sli/sources.py:314-316 | a metric text names the member whose name is its upper-cased, dash-to-underscore form, and no member when none has that name |
| `Legacy.ToRequestVersions` | app/resources/sli/sources.py:318-322 | every member asks for exactly what the member that replaced it asks for, and it is a latency member exactly when its successor is |
| `Legacy.FromStrVersions` | app/resources/sli/sources.py:306-316 | the two versions spell the counts differently: `ops-count` is refused by the package and `operation-count` by the legacy code, while `latency-p50` is accepted by both |
| `Legacy.Datapoints` | app/resources/sli/sources.py:324-342 | the datapoints pair the time windows, in order, with the selected values, never more of them than windows |
| `Legacy.DatapointsVersions` | app/resources/sli/sources.py:324-342 | where the legacy extraction answers, the package's intended `from_response` answers the same; a crash here is a failure there too; a missing percentile is a source error here and no values there |
| `Legacy.GetIndicatorValues` | app/resources/sli/sources.py:349-383 | a read carries no pagination |
| `Legacy.ResolutionVersions` | app/resources/sli/sources.py:359 | the fixed `600000` is the package's default resolution in milliseconds |
| `Legacy.GetIndicatorValuesVersions` | app/resources/sli/sources.py:349-383 | the legacy request is the package's unpaged request at its default resolution; where the legacy read succeeds, the package's intended reader reads the same values, while the package as written raises TypeError for every metric but the operation rate |
| `Legacy.ValidateConfigVersions` | app/resources/sli/sources.py:393-408 | the two versions check every configuration alike except those typed `lightstep`, which raise NotImplementedError here |
| `Legacy.FromIndicator` | app/resources/sli/sources.py:411-414 | building a source always fails |
| `Legacy.FromIndicatorVersions` | app/resources/sli/sources.py:411-414 | every configuration the package builds raises TypeError here, since the constructors take `indicator_id` and are called with `indicator` |
| `Variants.SloProcessSli` | app/slo.py:62-129 | the count returned is the number of minutes that got a value |
| `Variants.SloVersions` | app/slo.py:81-106 | for weighted, average and sum the old engine computes what the current one does; for min and max it computes nothing, where the current engine gives a value to every minute some counted series hits |
| `Variants.StrictTotals` | hack.py:71-76 | the loop's totals are the weights, and the weighted values, of the groups with both a weight and a value |
| `Variants.StrictTotalsComplete` | hack.py:71-76 | where every group has both, the strict totals are the current engine's totals |
| `Variants.HackMinute` | hack.py:70-82 | a minute fails exactly for weighted with zero strict total weight; otherwise it has a value exactly for weighted and sum |
| `Variants.HackAllFailurePersists` | hack.py:68-82 | once a prefix of the minutes fails, the whole run fails the same way |
| `Variants.HackAggregate` | hack.py:68-82 | the loop computes the run over all minutes in order, stopping at the first failure |
| `Variants.HackProcessSli` | hack.py:18-82 | the script buckets the series and then aggregates them |
| `Variants.HackAllFails` | hack.py:70-77 | a weighted run fails exactly when some minute has no complete group with weight |
| `Variants.HackSumAgrees` | hack.py:78-82 | for sum the script and the current engine agree on every minute |
| `Variants.HackWeightedAgrees` | hack.py:70-77 | for weighted they agree where every group is complete and every minute has some weight |
| `Variants.HackMissingWeight` | hack.py:74-77 | a group with a value and no weight is weighted 1 by the current engine, ignored by the script, which then divides by zero |
| `Report.DayOf` | app/resources/report/api.py:32 | the day an instant falls in starts at a midnight no later than the instant and ends after it |
| `Report.TruncateValues` | app/resources/report/api.py:26-34 | the loop's buckets are the buckets of all the values read |
| `Report.TruncatedMeaning` | app/resources/report/api.py:26-34 | a day's bucket holds exactly that day's values in input order; a day has a bucket exactly when it has a value; no day is listed twice |
| `Report.TruncatedNonEmpty` | app/resources/report/api.py:29-32 | every bucket holds at least one value, so a day's minimum, maximum and average are defined |
| `Report.EffectiveBound` | app/resources/report/api.py:82-83 | a bound counts exactly when the target has one and it is not 0, and it is then the target's own |
| `Report.CountWithin` | app/resources/report/api.py:88 | no more values are counted within the bounds than there are values |
| `Report.SummariseAverage` | app/resources/report/api.py:85-98 | a day's count is its number of values and its average lies between its minimum and its maximum |
| `Report.SummariseBreaches` | app/resources/report/api.py:82-89 | a day's breaches are never negative and never more than its count, and are none exactly when every value is within the effective bounds |
| `Report.CountWithinAll` | app/resources/report/api.py:87-89 | every value is counted exactly when every value is within the bounds |
| `Report.ZeroLowerBound` | app/resources/report/api.py:82 | with bounds 0 and 100 the day [50, 150, -10, 99] has one breach, since a lower bound of 0 reads as none |
| `Report.Infos` | app/resources/report/api.py:106-115 | one description per target, in order |
| `Report.AddTargetDays` | app/resources/report/api.py:77-99 | every bucket of the target is non-empty, and the loop records each of its days under the target's indicator |
| `Report.SummariseTargets` | app/resources/report/api.py:69-99 | the loop over the targets builds the objective's days from all of them |
| `Report.GetReportSummary` | app/resources/report/api.py:37-120 | one summary per objective with targets, in order, built from its targets' days |
| `Report.ReportSummaryObjectives` | app/resources/report/api.py:48-118 | the summary lists, in order, exactly the objectives that have targets, each with every one of its targets described |
| `Report.ObjectiveDaysKeys` | app/resources/report/api.py:81-91 | a day is reported for an objective exactly when one of its targets has a value that day |
| `Report.ObjectiveDaysNames` | app/resources/report/api.py:81-91 | every target with a value on a reported day is listed under that day |
| `Report.AddBucketsMeaning` | app/resources/report/api.py:81-99 | adding a target's buckets adds exactly its days, lists the target's indicator under each, and keeps every name already listed |
| `Report.ReportWindow` | app/resources/report/api.py:134-156 | a report type is accepted exactly when it is weekly, monthly or quarterly, and refused with a 404 otherwise; the window is counted in days exactly for weekly reports, whose unit alone is the day |
| `Report.ReportWindowValues` | app/resources/report/api.py:149-156 | weekly reports cover 7 days by day, monthly ones 1 month by week, quarterly ones 3 months by week, and a missing type is refused |
| `Resource.LimitedQuery` | app/libs/resource.py:170-179 | paging is accepted exactly when the page (default 1) is not negative and the page size (default 100) is at least 1, and then both are at least 1; every refusal is the paging problem |
| `Resource.LimitedQueryPages` | app/libs/resource.py:172-179 | without parameters the first page of the default size is read; page 0 reads as page 1; any other valid page is kept |
| `Resource.IdFromUri` | app/libs/resource.py:210-216 | an id is read only from a non-empty, all-digit last segment |
| `Resource.IdFromUriOf` | app/libs/resource.py:210-216 | a URI ending in a printed id, with or without a trailing '/', reads back that id |
| `Resource.PathLastSegment` | app/libs/resource.py:211 | the last segment of a path ending in `/d`, with or without a trailing '/', is d |
| `Resource.UriPathNamesId` | app/libs/resource.py:194-206 | the URI a resource is given, on a list request or a detail request alike, names its id: reading its id back gives the object's id |
| `Resource.GetObjectFields` | app/libs/resource.py:218-234 | the loop collects the fields of the model's field list from the body |
| `Resource.ObjectFieldsFailurePersists` | app/libs/resource.py:227-230 | once a field is refused, the whole collection is refused the same way |
| `Resource.ObjectFieldsMeaning` | app/libs/resource.py:218-234 | a body is refused exactly when the slug of its name is computed and empty, with the invalid-name problem; otherwise the fields are exactly the model's fields except the read-only ones, each once, the slug from the name and every other from the body or None |
| `Resource.ListLinks` | app/libs/resource.py:152-168 | the links fail exactly for a pagination without a page number, raising TypeError; an unpaginated list has no links |
| `Resource.ListLinksPages` | app/libs/resource.py:152-168 | a paginated list links to the next page exactly when there is a non-zero next number and to the previous page exactly when it is not page 1, each link keeping the page size |
| `Utils.AfterPrefix` | app/utils.py:21 | a column name has a remainder exactly when it contains '_', and the remainder is what follows its first '_' |
| `Utils.StripColumnPrefix` | app/utils.py:18-22 | the loop renames the row's columns in order |
| `Utils.StrippedFailurePersists` | app/utils.py:20-21 | once a column without '_' is met, the whole renaming fails the same way |
| `Utils.StrippedMeaning` | app/utils.py:18-22 | the renaming succeeds exactly when every column has a '_'; then each name reads the value of the last column stripping to it, no name is repeated and there are at most as many names as columns |
| `Utils.StrippedRenames` | app/utils.py:18-22 | `p_slug` and `p_name` become `slug` and `name`, in order |
| `Utils.StrippedLaterWins` | app/utils.py:18-22 | of two columns stripping to the same name the later one wins |
| `SliApi.ValidateMeaning` | app/resources/sli/api.py:60-75 | an SLI is accepted exactly when it has a name, a non-empty dictionary as source and the source passes its backend's check; the name is checked first, then the source, and a source error reaches the client as an Invalid SLI source problem with its message |
| `SliApi.CachedAggregationOfValidated` | app/resources/sli/api.py:77-79 | a ZMON source that passed validation caches its aggregation type, one of the seven names; a source without an aggregation caches None |
| `SliApi.Indicator.constructor` | app/resources/sli/api.py:81-90 | a new row holds the body's name, slug, source, unit and aggregation (None where absent) under the given product, not deleted, with no targets |
| `SliApi.Indicator.BeforeObjectUpdate` | app/resources/sli/api.py:77-79 | the aggregation is replaced by the source's aggregation type exactly when the source can be read, and the row is left as it was otherwise |
| `SliApi.Indicator.SaveObject` | app/resources/sli/api.py:98-104 | the slug becomes the slug of the name and the aggregation is cached from the source |
| `SliApi.Indicator.SetField` | app/resources/sli/api.py:109-110 | setting a field changes that column alone and every other column keeps its value |
| `SliApi.Indicator.UpdateObject` | app/resources/sli/api.py:106-123 | each column takes the body's value or keeps its own; the aggregation is re-cached from the new source whatever the body said; the row moves to the requested product, which must exist, and is otherwise refused with a 404 |
| `SliApi.AssignedDistinct` | app/resources/sli/api.py:109-110 | with the distinct fields the body gives, a column ends with the body's value for it or keeps its own |
| `SliApi.Indicator.DeleteObject` | app/resources/sli/api.py:125-134 | a delete is refused with a 403 exactly when targets reference the SLI, changing nothing; otherwise the name gets the deletion time appended and the SLI is hidden from every listing |
| `SliApi.ListedByName` | app/resources/sli/api.py:48-58 | a product's listing shows its SLIs that are not deleted, and with a name filter only those whose slug is the slug of that name |
| `SliApi.ValueListing` | app/resources/sli/api.py:158-186 | the window defaults to a week back and is refused exactly when it starts after it ends; an explicit "from" reads every value unpaged; otherwise the page (0 read as 1) and the page size (default 100) apply |
| `SliApi.ValueListingDefaults` | app/resources/sli/api.py:163-179 | without parameters the listing reads a week back, first page, default size |
| `SliApi.QueryValidate` | app/resources/sli/api.py:226-240 | a query is accepted exactly when its start is given, non-zero and at least its end (default 0); a missing start is reported before a start below the end |
| `SlrRender.HumanTimeRoundTrip` | zmon_slr/generate_slr.py:78-92 | a worded duration reads back as the minutes it was made from, and only zero minutes gives the empty text |
| `SlrRender.HumanTimeInjective` | zmon_slr/generate_slr.py:78-92 | different durations are worded differently |
| `SlrRender.Round2` | zmon_slr/generate_slr.py:71 | rounding to two places moves a value by at most half a hundredth |
| `SlrRender.Round2Idempotent` | zmon_slr/generate_slr.py:71 | rounding a rounded value changes nothing |
| `SlrRender.GetAggregateDefined` | zmon_slr/generate_slr.py:53-71 | exactly the seven aggregation names are understood, and a figure without a value reads as 0.0 |
| `SlrRender.AggregateWithinRange` | zmon_slr/generate_slr.py:53-71 | the mean, maximum or minimum of a non-empty daily list lies, up to rounding, between the list's extremes |
| `SlrRender.AggregateOrNone` | zmon_slr/generate_slr.py:53-71 | the intended aggregate is defined exactly when the written one is, equals it where it has a value, and has none only where the written one shows 0.0 |
| `SlrRender.Title` | zmon_slr/generate_slr.py:50 | title casing keeps the length and upper-cases exactly the letters that start a run of letters, lower-casing the others |
| `SlrRender.SliTitleShape` | zmon_slr/generate_slr.py:49-50 | a title keeps the name's length, has no underscore or dot, starts each word with a capital and differs from the name only in case and in those separators |
| `SlrRender.SliTitleIdempotent` | zmon_slr/generate_slr.py:49-50 | titling a title changes nothing |
| `SlrRender.DayCell` | zmon_slr/generate_slr.py:176-205 | a day's cell is orange exactly when the day has breaches, red exactly when its average breaks a target of its SLI, ok exactly when it is neither, flagged exactly when it has fewer than 1400 samples; its unit is the unit of the SLI's last target; its aggregate is defined exactly when the day's aggregation is known, and is then the figure it names, rounded to within half a hundredth |
| `SlrRender.Truncate` | zmon_slr/generate_slr.py:200 | `int` truncates toward zero: the result is within one of the value, on the zero side |
| `SlrRender.BumpMeaning` | zmon_slr/generate_slr.py:166-167 | after an increment the key reads that much more, every other key as before, and no key repeats |
| `SlrRender.SloTotals` | zmon_slr/generate_slr.py:158-167 | the loops build the per-SLI breach and sample totals over all days |
| `SlrRender.TotalsMeaning` | zmon_slr/generate_slr.py:158-167 | an SLO's total for an SLI is the sum of its daily figures, an SLI is totalled exactly when it appears on some day, and each SLI is totalled once |
| `SlrRender.MaxOrZero` | zmon_slr/generate_slr.py:74-75 | the result is one of the values and no value exceeds it, or 0 for no values |
| `SlrRender.SloFigureMeaning` | zmon_slr/generate_slr.py:212-213 | an SLO's breaches (or samples) are the largest total of any one SLI: no SLI exceeds them and they are some SLI's total, or 0 when no SLI has figures |
| `SlrRender.ColumnOfEmpty` | zmon_slr/generate_slr.py:171-174 | an SLI's collected daily figures are empty exactly when it appears on no day |
| `SlrRender.TargetOk` | zmon_slr/generate_slr.py:232-236 | a target without a value holds |
| `SlrRender.TargetOkIsNotRed` | zmon_slr/generate_slr.py:232-236 | a target's verdict on a value is the negation of the day cells' red rule on it |
| `SlrRender.TargetVerdictMeaning` | zmon_slr/generate_slr.py:222-239 | a target is judged exactly when its aggregation is known; it shows a value exactly when its SLI has data, and it holds exactly when it has no value or the value does not break it |
| `SlrRender.TargetVerdictAsWrittenMeaning` | zmon_slr/generate_slr.py:222-238 | as written a target is judged exactly when its aggregation is known and then always shows a value, 0.00 when its SLI has no data; it holds exactly when that value does not break it; with data the written verdict is the intended one |
| `SlrRender.NoDataVerdicts` | zmon_slr/generate_slr.py:230-238 | a target with a lower bound and no data is shown as 0.00 and failed as written, where '-' and holding are meant |
| `SlrRender.VerdictsFailurePersists` | zmon_slr/generate_slr.py:216-239 | once a target cannot be judged, the whole table fails the same way |
| `SlrRender.SloTargets` | zmon_slr/generate_slr.py:214-239 | the targets loop, run with the verdicts as written or as intended, lists the SLIs without samples and the verdict table, failing as the table does |
| `SlrRender.SloTargetsMeaning` | zmon_slr/generate_slr.py:216-239 | with either verdict, an SLI is listed without data exactly when it is targeted and has no samples; the table holds each targeted SLI exactly once |
| `SlrRender.ReportPeriodMeaning` | zmon_slr/generate_slr.py:127-135 | the period comes from an SLO with days: it starts no later than it ends, both ends are dates of at most ten characters and every day of that SLO falls within it; with no days anywhere the report is aborted |
| `SlrRender.CallAndRetry` | zmon_slr/generate_slr.py:33-46 | the call is made at least once and at most 11 times, every call but the last failed, the last call's outcome is returned, and a failure is returned only after all 11 calls |
| `SlrRender.RetrySucceeds` | zmon_slr/generate_slr.py:33-46 | a retried call is answered exactly when one of its first 11 attempts succeeds |
| `SlrLegacy.AllAvgsEmpty` | generate-slr.py:70-74 | an SLI's collected averages are empty exactly when it has data in no SLO's days |
| `SlrLegacy.MeanAvgMeaning` | generate-slr.py:87-88 | a target's value exists exactly when its SLI has data in some SLO, and it lies between the smallest and the largest daily average |
| `SlrLegacy.LegacyVerdictMeaning` | generate-slr.py:86-97 | a target's row carries its unit and the mean of its SLI's averages, and the target holds exactly when it has no value or the value does not break it |
| `SlrLegacy.StrictFigureMeaning` | generate-slr.py:135-136 | the plain `max` fails exactly for an SLO without any SLI data, and otherwise agrees with the renderer's `max_or_zero` |
| `SlrLegacy.StrictPeriodAgrees` | generate-slr.py:62-63 | the first script fails exactly when there is no SLO or the first has no days, and otherwise, with non-empty dates, reports the renderer's period |
| `SlrLegacy.FirstSloWithoutDays` | generate-slr.py:62-63 | with days only in the second SLO, the first script fails where the renderer reports |
| `SlrCli.FlattenIntoLeaves` | zmon_slr/main.py:73-93 | flattening into a dict of leaves under distinct keys keeps it a dict of leaves under distinct keys |
| `SlrCli.FlattenFlat` | zmon_slr/main.py:73-93 | a dict without nested dicts and without repeated keys flattens to itself |
| `SlrCli.FlattenIdempotent` | zmon_slr/main.py:73-93 | the flattened dict holds only leaves under distinct dotted keys, and flattening it again changes nothing |
| `SlrCli.FlattenLeaf` | zmon_slr/main.py:87-88 | anything that is not a dict is one leaf under the empty key |
| `SlrCli.FlattenExamples` | zmon_slr/main.py:74-81 | the three documented examples: `{}`, a list kept as a leaf under `a.b.c`, and `a.b` with `d` |
| `SlrCli.ValidateTarget` | zmon_slr/main.py:487-494 | records, in order, exactly the messages of the target's failed checks |
| `SlrCli.TargetMessagesMeaning` | zmon_slr/main.py:487-494 | a target passes exactly when it has `sli_uri` and both bounds, each None or a number; a missing `sli_uri` is reported; at most three messages |
| `SlrCli.TargetDicts` | zmon_slr/main.py:350 | the targets the SLO check walks are the SLO's `targets` list, item by item, or none when absent |
| `SlrCli.ValidateSlo` | zmon_slr/main.py:345-351 | records the title message, if due, then every target's messages in order |
| `SlrCli.ValidateTargets` | zmon_slr/main.py:350-351 | the loop over the targets records the concatenation of their messages |
| `SlrCli.SloMessagesMeaning` | zmon_slr/main.py:345-351 | an SLO passes exactly when its title is truthy and every target passes |
| `SlrCli.WithoutWildcards` | zmon_slr/main.py:690 | the keys kept are exactly the source's keys without `.*` |
| `SlrCli.FindKeys` | zmon_slr/main.py:695-722 | the search succeeds exactly when some entity's dict data of some alert has all the keys once flattened, and otherwise names every flattened key seen |
| `SlrCli.SearchEntities` | zmon_slr/main.py:705-716 | one alert's entities: found exactly when one has the keys; when none does, all of the alert's keys are added to the sample |
| `SlrCli.ValidateZmonSource` | zmon_slr/main.py:645-722 | records the structural messages and ends as the structural and ZMON checks together decide |
| `SlrCli.CheckZmonStructure` | zmon_slr/main.py:646-668 | records the structural messages in order and stops with an AttributeError for a non-dict aggregation |
| `SlrCli.CheckFields` | zmon_slr/main.py:646-654 | records the missing-fields message, then the empty-keys message, each when due |
| `SlrCli.CheckAggregation` | zmon_slr/main.py:657-665 | a present aggregation needs a known type, and a weighted one needs weight keys |
| `SlrCli.CheckGiven` | zmon_slr/main.py:667-668 | the empty message is recorded exactly for a missing check_id or missing or empty keys |
| `SlrCli.CheckZmonKeys` | zmon_slr/main.py:675-722 | the ZMON part: check_id conversion, a check with alerts, then the key search unless skipped |
| `SlrCli.ZmonStructureAgrees` | zmon_slr/main.py:645-668 | the structural checks pass silently exactly when the server's ZMON validator accepts the same source |
| `SlrCli.ZmonStructureMeaning` | zmon_slr/main.py:657-668 | the checks stop with an error exactly for a present non-dict aggregation; otherwise a missing check_id or keys leaves the empty message |
| `SlrCli.ZmonRemoteMeaning` | zmon_slr/main.py:675-722 | passes exactly when check_id converts, the check has alerts, and the keys are ignored, all wildcards or found; a keys failure names all keys seen |
| `SlrCli.WildcardKeysSkipped` | zmon_slr/main.py:690-693 | keys that are all wildcards are never searched for |
| `SlrCli.ValidateLightstepSource` | zmon_slr/main.py:725-734 | records the missing-fields message, then the invalid-metric message, each when due |
| `SlrCli.LightstepMessagesMeaning` | zmon_slr/main.py:725-734 | a Lightstep source passes exactly with `stream-id` and one of the six metric names |
| `SlrCli.LightstepValidatorsDisagree` | zmon_slr/main.py:725-734 | of the client's metric names only `error-count` is a server metric, and a source the client accepts the server refuses |
| `SlrCli.ValidateSliSource` | zmon_slr/main.py:737-743 | records the type message when due, then the chosen validator's messages, and ends as that validator does |
| `SlrCli.SliSourceDispatch` | zmon_slr/main.py:737-743 | `lightstep` runs the Lightstep checks, `zmon` or no type the ZMON checks, and any other type is reported and still runs the ZMON checks |
| `SlrCli.ValidateSli` | zmon_slr/main.py:746-760 | records the field messages, then the source's, and a client error exits |
| `SlrCli.CheckSliFields` | zmon_slr/main.py:747-754 | records the name, unit and source messages, each when due |
| `SlrCli.SliValidationMeaning` | zmon_slr/main.py:746-760 | an SLI passes silently exactly when name and unit are truthy and its dict source passes; every client error exits |
| `SlrCli.QueryAccepted` | zmon_slr/main.py:916-936 | the command refuses exactly nonzero bounds with end not before start; of the rest the server accepts exactly a positive start or two nonzero bounds |
| `SlrCli.QueryEqualBounds` | zmon_slr/main.py:920-921 | equal nonzero bounds are refused by the client though the server accepts them |
| `LegacyCli.AggTypesNarrower` | cli.py:20 | the aggregation types this client accepts are all accepted by the server and the newer client, but `min` and `max`, which both accept, are refused here |
| `LegacyCli.FindTopKeys` | cli.py:89-112 | the key search raises TypeError as soon as dict data is reached when the keys cannot be made a set; otherwise it succeeds exactly when some entity's dict data of some alert has every key, as a string, at its top level, and otherwise names the keys of the last non-empty dict seen |
| `LegacyCli.SearchTopKeys` | cli.py:99-106 | one alert's entities: it raises exactly when the keys cannot be made a set and some entity has dict data; otherwise found exactly when one has the keys at its top level, else the sample becomes the last non-empty dict's keys |
| `LegacyCli.TopKeysAgreeOnFlatData` | cli.py:99-106 | on flat data, for string keys, this client's top-level search agrees with the newer client's flattened search |
| `LegacyCli.NestedKeysMissed` | cli.py:99-106 | on nested data a dotted key is found by the newer client only |
| `LegacyCli.ValidateSli` | cli.py:71-112 | `int(check_id)`, a check with alerts, then the key search over `set(keys)`, where keys of any hashable type are compared and a non-string key is simply missing; a failed search is the client's own error |
| `LegacyCli.KeyItems` | cli.py:104 | `set(keys)` holds a list's items, a string's characters or a dict's keys, all hashable; anything not iterable, or a list with an unhashable item, raises TypeError |
| `LegacyCli.KeyItemsVersions` | cli.py:104 | wherever the newer client reads the keys as strings, this client's set holds the same keys |
| `LegacyCli.KeyItemsRaiseAtDict` | cli.py:99-106 | keys that cannot be made a set raise TypeError exactly when some entity has dict data; otherwise the search fails with an empty sample |
| `LegacyCli.IntKeyNotFound` | cli.py:104-112 | the key list `[1]` is a TypeError for the newer client but only a missing key here, so `data-source create` records a fatal error and exits |
| `LegacyCli.DataSourceCreate` | cli.py:458-501 | records exactly the messages of the structural checks and the key check, in order, and sends the request only without errors |
| `LegacyCli.RecordDataSourceFields` | cli.py:464-468 | records the missing `sli_name` and `definition` messages, each when due |
| `LegacyCli.RecordDefinition` | cli.py:472-479 | records the missing-fields message, then the empty-keys message, each when due |
| `LegacyCli.RecordDefinitionAggregation` | cli.py:482-491 | a present aggregation needs a known type, and a weighted one needs weight keys |
| `LegacyCli.RecordKeyCheck` | cli.py:493-501 | runs the key check only when the definition has a check_id and non-empty keys, records a client error as fatal and exits, and sends the request only when nothing was recorded |
| `LegacyCli.KeyCheckOutcomeMeaning` | cli.py:493-501 | after the structural messages, the request is sent exactly when none was recorded and the key check, when due, passed; nothing is then recorded |
| `LegacyCli.StructuralMessagesEmpty` | cli.py:465-491 | no structural message is recorded exactly when the data source has `sli_name` and `definition` and its definition is well formed, and the key check is then due |
| `LegacyCli.DataSourceCreationMeaning` | cli.py:458-501 | a data source is sent exactly when it has an `sli_name` and a well-formed dict definition whose keys the check's alerts hold, and then nothing was recorded |
| `LegacyCli.DataSourceCreationLocal` | cli.py:493-497 | without a check_id or non-empty keys the alert data is never looked at, and nothing is sent |
| `LegacyCli.CreatedDefinitionsAccepted` | cli.py:458-501 | every definition this client sends is one the server's ZMON source accepts |
| `LegacyCli.WellFormedAccepted` | cli.py:470-491 | every definition of the shape this client demands is accepted by the server |
| `LegacyCli.SloCreate` | cli.py:396-414 | records the title, targets and per-target `sli_name` messages, and sends the SLO exactly when none was recorded |
| `LegacyCli.SloCreationMeaning` | cli.py:396-414 | an SLO is sent exactly when it has a title key, targets, and an `sli_name` in every target |
| `LegacyCli.EmptyTitleAccepted` | cli.py:403-404 | an SLO titled "" passes this client and is refused by the newer one |
| `LegacyCli.UpdateRefusedAsQuery` | cli.py:551-553 | `sli update` stops on exactly the ranges the newer `sli query` stops on: nonzero bounds with end not before start |
| `LegacyCli.SliUpdateBody` | cli.py:248-253 | the body carries start and end each exactly when truthy, and nothing else |
| `LegacyCli.OwnedMeaning` | cli.py:205 | the matching SLOs are not empty exactly when some SLO's id equals the number |
| `LegacyCli.SloDeleteMeaning` | cli.py:202-208 | an SLO is deleted exactly when the id is an integer that some SLO of the product has; a non-integer id raises ValueError exactly when the product has SLOs; with an integer id every refusal is the client's own |
| `LegacyCli.SloDeleteNumericIds` | cli.py:205 | id "1" matches an SLO whose id is 1.0 or true, but not "1" |
| `Community.UserCommunitiesMeaning` | app/libs/authorization/community.py:58-69 | the communities are listed exactly when every group with the prefix names one (otherwise IndexError), and are then exactly the communities those groups name |
| `Community.SlashPrefixNeverFails` | app/libs/authorization/community.py:64-67 | with a prefix containing '/', listing the communities never fails |
| `Community.CoreGroupCommunity` | app/libs/authorization/community.py:75-78 | a `Core...` group names its community, slugged, in the segment after the first '/' |
| `Community.OtherGroupExamples` | app/libs/authorization/community.py:76-77 | any other group, even `core/Pay` or a bare `Core`, is its own lower-cased name |
| `Community.CreateNeedsEmployee` | app/libs/authorization/community.py:42-52 | creating is allowed exactly for an employee token, and otherwise refused with the 401 employees-only problem |
| `Community.AuthorizeMeaning` | app/libs/authorization/community.py:86-98 | an update or delete is allowed exactly for an employee token with a uid whose groups are well formed and who is an administrator or a member of the owner's community; every refusal is a 401 |
| `TokenSession.Session.constructor` | app/extensions/session.py:36 | a new session holds no entries |
| `TokenSession.Session.SetTokenInfo` | app/extensions/session.py:24-33 | the session after storing a token, and the exception raised, are those of the step-by-step specification: a held token changes nothing, otherwise user, access token and expiry are written in order until one fails |
| `TokenSession.Session.GetTokenInfo` | app/extensions/session.py:9-21 | reads the stored details while the expiry lies after now, no details without an expiry or after it, reading the user from `uid` as written (see `TokenSession.SetThenGetAsWritten`) |
| `TokenSession.EmptySessionHasNoToken` | app/extensions/session.py:9-21 | a fresh session hands out no token details, as written and corrected |
| `TokenSession.SetThenGet` | app/extensions/session.py:9-33 | storing a token the session does not hold, then reading before expiry, gives back its access token, user and expiry; from the expiry on, nothing |
| `TokenSession.SetThenGetAsWritten` | app/extensions/session.py:17 | read as written, the user handed out is whatever `uid` held before, so a session that never had one names no user |
| `TokenSession.StoredEntries` | app/extensions/session.py:29-33 | storing a token the session does not hold writes user (default ''), access token and the expiry `expires_in` minutes from now, and leaves `uid` alone |
| `TokenSession.SetTwiceIsOnce` | app/extensions/session.py:25-27 | a token with a uid is stored once: storing it again at any later time changes nothing, so its expiry is not extended |
| `TokenSession.SetWithoutUidRewrites` | app/extensions/session.py:25-33 | a token without a uid is never held once stored, so every later call stores it again and moves the expiry |
| `Throttle.Header` | app/extensions/throttle.py:16 | a header is found exactly when some header has that name, whatever its case, and its value is that header's |
| `Throttle.BearerTokenMeaning` | app/extensions/throttle.py:18 | the header splits into a token exactly when it has two words, and the token is a non-empty word |
| `Throttle.BearerExample` | app/extensions/throttle.py:16-21 | `Bearer <token>` gives the token |
| `Throttle.LimiterKeyOrder` | app/extensions/throttle.py:5-29 | the request's token decides whenever present; else a truthy session token; else a non-empty Authorization header alone, giving its second word or raising; else the forwarded-for header, else the remote address |
| `Throttle.HeaderNameIgnoresCase` | app/extensions/throttle.py:16-21 | a request sending only a lower-case `authorization: Bearer <token>` is counted under its token |
| `LightstepScripts.MetricParamMeaning` | app/libs/lightstep.py:36-60 | exactly the six known metrics ask for a parameter: a count metric for its counts, a latency metric `pNN` for percentile NN |
| `LightstepScripts.DefaultParamsRead` | app/libs/lightstep.py:67-75 | the defaults ask for the window, the script's resolution, the 90th percentile, error counts, and operation counts only with `ops-count` |
| `LightstepScripts.StreamParamsMeaning` | app/libs/lightstep.py:67-75 | the parameters exist exactly for the known metrics (otherwise TypeError), and then each key reads the metric's own value if it has one and the default otherwise |
| `LightstepScripts.LatencyQuery` | zmon_slr/lightstep.py:55-63 | a latency metric `pNN` asks for percentile NN, error counts and no operation counts |
| `LightstepScripts.OpsCountQuery` | zmon_slr/lightstep.py:55-63 | `ops-count` asks for operation counts, error counts and the 90th percentile |
| `LightstepScripts.LibraryTimeDropsMicroseconds` | app/libs/lightstep.py:64-65 | the library's text of an instant does not depend on its microseconds |
| `LightstepScripts.At` | app/libs/lightstep.py:13-16 | indexing a list that may be absent succeeds exactly when it is there and long enough, and gives its item |
| `LightstepScripts.PointsErrorPersists` | app/libs/lightstep.py:28-32 | once a point fails, every longer run of points fails with the same error |
| `LightstepScripts.ExtractMetric` | app/libs/lightstep.py:25-33 | the loop builds one point per counted window, in order, or stops with the first error, as the extraction specifies |
| `LightstepScripts.PointsMeaning` | app/libs/lightstep.py:25-33 | the first n points exist exactly when each does, and are then those points in window order |
| `LightstepScripts.ScriptsAgreeOnCounts` | zmon_slr/lightstep.py:17-25 | with a count metric both scripts fail or succeed together and read the same values; the library's timestamps are the client's truncated to the second |
| `LightstepScripts.LibraryLatencyIgnoresPercentile` | app/libs/lightstep.py:16 | the library reads every latency metric from the first latency entry, so two latency metrics give the same points |
| `LightstepScripts.ClientLatencyEntries` | zmon_slr/lightstep.py:14 | the client hands on the i-th latency entry whole, whatever the metric's percentile |
| `LightstepScripts.StreamDataMeaning` | app/libs/lightstep.py:63-90 | only known metrics give points; the library fails on an answer with errors, while the client ignores them |
| `LightstepCommon.ToRequestMeaning` | common/lightstep.py:9-21 | count members include their own list and latency members ask for their percentile, as the service's legacy members of the same value do, although only the count members' names differ |
| `LightstepCommon.ValuesMeaning` | common/lightstep.py:24-36 | a count member's values are its list, present or KeyError; a latency member's are the first entry of its percentile, or ValueError when none has it |
| `LightstepCommon.Timestamps` | common/lightstep.py:38-41 | one parsed youngest time per window, in order |
| `LightstepCommon.DatapointsMeaning` | common/lightstep.py:23-43 | timestamps come exactly when the attributes, the member's values and the windows are there, one per window in order; every failure is one the code as written raises too |
| `LightstepCommon.DatapointsAsWrittenFails` | common/lightstep.py:38-41 | as written, any timeseries with values and at least one window raises NameError where timestamps were meant |

## Left out

- Outbound HTTP is not modelled. This covers the KairosDB POST, the Lightstep GET, the ZMON check and alert lookups of the command-line clients, zign tokens and `zmon_slr/client.py`. Backend answers are inputs; a 401 and an "errors" entry are error results.
- The database is not modelled as SQL. SQLAlchemy queries, `pg_insert`, commits, raw SQL in the handlers and the `dsn` branches of `app/slo.py` and `hack.py` are left out. The `indicatorvalue` table is a `map` from (timestamp, indicator id) to a value.
- The clock, ISO-8601 formatting and parsing, `fnmatch`, `slugger` and `datetime_truncate.truncate` are parameters (function-typed inputs). Time zones are not modelled. Instants are whole seconds, and KairosDB stamps are milliseconds.
- The updater (gevent pool, `run_updater`, `app/updater.py`, `app/handler/updater.py`) is left out because it is scheduling plumbing. The start-window rule the update uses is `Zmon.StartRelativeAsWritten`; `Zmon.StartRelative` is only its corrected twin (see "## Findings").
- Retention (`app/resources/sli/retention.py`) is left out because it calls `sources.from_type` and `DatetimeRange`, which are not part of this model. Deleting values is covered by `Zmon.IndicatorStore.DeleteAllIndicatorValues`.
- Floating point is modelled as exact `real` arithmetic. ε = `expm1(1e-10)` is the positive constant 1e-10. Decimal conversions are not modelled.
- `SlrRender.Round2` rounds halves up, where Python's `round` rounds halves to even on binary floats; only the half-hundredth bound is stated.
- `Report.SummariseAverage` does not state that average × count equals the sum, because that product of real terms is beyond the solver here; it states count and min ≤ average ≤ max.
- Strings are ASCII: `upper`, `lower`, `isdigit`, `int()` and whitespace splitting act on ASCII only. `int()` accepting surrounding whitespace, `+` signs and underscores is not modelled.
- Rendering is not modelled: jinja templates, HTML, CSS text, number formatting, gnuplot, plot scripts, directory indexes, `generate.py` colours, and sleeps between retries.
- The CRUD resources for products, product groups, SLOs and targets are left out, because they are ORM persistence with presence checks.
- OAuth (`app/libs/oauth.py`), URL resolution in the routes and middleware, the simple, admin and resolver authorization modules, tracing, logging and click prompts are left out.
- `Lightstep.ValueAggregates` returns the readings read at each aggregate's resolution. `IndicatorValueAggregate.from_indicator_value` and the `Aggregate` enum are not part of this model, so the conversion of readings into aggregates is left out.
- Both Lightstep classes' `update_indicator_values` (app/resources/sli/sources/lightstep.py:234-235 and app/resources/sli/sources.py:385-386) do nothing and return 0. They are not modelled as members.
- `LightstepCommon.Datapoints`, like its source, does not return the selected values.
- `Community.Authorize` takes the directory lookup `get_user_groups` as a function input, so its cache and its "empty list on any failure" rule are captured only as whatever that input returns. `request.token_info` missing altogether (AttributeError) is modelled as an absent token.
- `TokenSession` models only the four session entries the token code reads and writes. Python `==` between ints, floats and booleans is structural equality there. A `timedelta` overflow is not modelled.
- `Throttle` models the request headers as an ordered list with case-insensitive lookup. Werkzeug's header folding is not modelled.
- `SlrCli.TargetDicts` and `SlrCli.ValidateSlo` require the `targets` of an SLO to be a list of dicts. Iterating anything else raises in Python, and that path is not modelled.
- `LegacyCli.SloCreate` requires, like `SlrCli.TargetDicts`, the `targets` of an SLO to be a list of dicts; anything else raises in Python, and that path is not modelled.
- `SlrCli.KeyStrings` raises TypeError for a list item that is not a string as soon as the keys are read. `main.py` iterates the keys later, and raises at the first such item it reaches, so only the outcome, not the moment, is modelled.
- The Lightstep "errors" source error carries the fixed message text only. The `{errors}` rendering of the entry (app/resources/sli/sources/lightstep.py:218-219) is left out, because Python's text of a JSON value is not modelled.
- `Lightstep.GetIndicatorValues` and `SlrRender.SloTargets` take the reading to use: `AsWritten` models the source as it stands, and `Intended` is the corrected twin described under "## Findings". Their lemmas hold for both.
- `CliAction.Message`: the validators' messages are notices and sets of missing field names, not the exact printed text.
- A `SystemExit` from `fatal_error` is modelled as a recorded `Fatal` message plus the result `Raised("SystemExit")`.
- `Legacy` (the shadowed `app/resources/sli/sources.py`): its `update_indicator_values` uses undefined names, so it is modelled only as failing or writing nothing. Its `_get_timespan_for_update` uses `datetime.datetime.timedelta`, which does not exist.
- `app/slo.py` `update` calls `process_sli` with seven of its eight arguments, so it is not modelled; `process_sli` itself is (`Variants.SloProcessSli`).
- `tests/unit/generate_slr/test_get_worst_sli.py` imports `get_worst_sli`, which `zmon_slr/generate_slr.py` does not define. It is not modelled.

## Findings

| source | as written | input that shows it | evidently intended | confidence | as-written member | corrected member |
|---|---|---|---|---|---|---|
| app/resources/sli/sources/zmon.py:202 | the fetch start uses `(now - newest).seconds`, which drops whole days of the difference | the newest stored value is exactly 1440 minutes old: the fetch starts 5 minutes back instead of 1445, missing that value | the whole difference in minutes plus 5 | not executed | `Zmon.StartRelativeAsWrittenMissesNewest` | `Zmon.StartRelativeCovers` |
| app/extensions/session.py:17 | `get_token_info` reads the user from `uid`, but `set_token_info` writes it under `user` (line 29) | a fresh session storing `{uid: "jdoe", access_token: "t"}` then hands out user None | the user read from `user`, where it is stored | not executed | `TokenSession.SetThenGetAsWritten` | `TokenSession.SetThenGet` |
| app/resources/sli/sources/lightstep.py:107 | `from_response` passes `resolution` to every metric's extractor, but only the operation rate's takes one | any metric other than the operation rate, e.g. a p99 latency, raises TypeError on every response | each extractor called with the arguments it takes | not executed | `Lightstep.FromResponseAsWrittenRejects` | `Lightstep.FromResponse` |
| zmon_slr/generate_slr.py:71 | a target whose SLI has no data gets aggregate 0.0, which is then judged against its bounds (lines 230-238) | an average target with `from = 99` and no data for its SLI is shown as 0.00 and failed | a target without data is shown without a value and not failed | not executed | `SlrRender.NoDataVerdicts` | `SlrRender.TargetVerdictMeaning` |
| common/lightstep.py:39 | `datapoints` calls `pendulum.parse`, but `pendulum` is never imported | any timeseries with the member's values and at least one time window raises NameError | one parsed timestamp per time window | not executed | `LightstepCommon.DatapointsAsWrittenFails` | `LightstepCommon.DatapointsMeaning` |
