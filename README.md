# Meter registries of a metrics-collection library, in Dafny

This project models the core of a metrics library's meter registries. A
registry keeps a map from a meter identity (a name plus a tag list) to a
meter, and writes it in three ways:

- get-or-create: a counter, gauge, timer, distribution summary or
  long-task timer asked for by name and tags is created only if its identity
  is absent;
- unconditional overwrite: a caller-built meter is registered;
- clear.

Around the map sit a lookup and a naming rule. The lookup filters by name, by
tag containment and by class or type. The naming rule applies only in the
Prometheus registry: get-or-create never rebinds a name to another class of
collector (asking for another class fails), while registering a caller-built
meter rebinds the name unconditionally.

Four smaller pieces sit beside the registries:

- the in-memory distribution summary, which keeps a count and a running total
  and ignores negative amounts;
- the function-tracking counter, which reports nothing once its weakly held
  object is gone;
- the mapping from meter type to Prometheus family type, with the gauge
  child's NaN rule;
- the tags recorded for REST client requests.

Modules:

- `wrappers.dfy` (`Wrappers`): `Option` for nulls and cleared weak
  references, and `Result` for thrown exceptions.
- `meters.dfy` (`Meters`): the shared vocabulary. A `Meter` is its identity
  plus its `Kind`, meaning what the registry built it from. The module also
  has the meter type, the classes `findMeter` accepts, and `ContainsAll`.
- `meter_maps.dfy` (`MeterMaps`): the map writes as functions (`GetOrCreate`,
  `Put`), the invariant `Keyed` (every meter is stored under its own
  identity), and the lookup shared by both registries (`FindOutcome`,
  `FindMeter`).
- `simple_registry.dfy` (`SimpleRegistry`): the class `SimpleMeterRegistry`
  and the quantile-gauge registration loop.
- `simple_summary.dfy` (`SimpleSummary`): the class
  `SimpleDistributionSummary`. A ghost history of everything recorded pins
  down its count and total.
- `prometheus_registry.dfy` (`PrometheusRegistry`): the class
  `PrometheusMeterRegistry` with its collector map and meter map, the check
  in `collectorByName`, the family-type switch and the gauge child.
- `function_tracking_counter.dfy` (`FunctionTracking`): the counter as a
  value, with the weak reference as an `Option`.
- `rest_template_tags.dfy` (`RestTemplateTags`): status rendering (with a
  parser as its inverse), URL-template stripping, and the four tags.

The state-changing registry operations are class methods, and each keeps the
class invariant `Valid()`. Each one's new state is a function of its old
state:

- the simple registry's `Counter`, `FunctionCounter`, `LongTaskTimer` and
  `Gauge`: `GetOrCreate` of the old meter map;
- the simple registry's `DistributionSummary` and `Timer`: `GetOrCreate` of
  `QuantileGaugesIfNecessary` of the old meter map, since the quantile gauges
  are registered first;
- the Prometheus registry's get-or-create operations: the collector map
  becomes `CollectorByName` of the old one; on success the meter map becomes
  `GetOrCreate` of the old one, and on error it is unchanged;
- `Register`: `Put` of the old meter map;
- `RegisterMeter` (Prometheus): `Put` of the old meter map, and the old
  collector map with the meter's name bound to a collector exposing it;
- `RegisterQuantilesGaugeIfNecessary`: `QuantileGaugesIfNecessary` of the
  old meter map;
- `Clear`: the empty map.

Behaviour of the source the model keeps:

- The simple registry never checks meter types. Get-or-create returns
  whatever is stored under the identity. The only type check is the
  Prometheus registry's, and it is per name and per collector class, not per
  identity.
- A timer and a distribution summary share the summary collector class, so
  they may share a name without an error.
- A distribution summary reports two measurements: the count under its
  identity extended with the type tag and `statistic=count`, and the total
  under its identity extended with the type tag and `statistic=amount`.
- The quantile gauges are keyed by the caller's tags, without the common
  tags.
- `findMeter` first picks any identity with the right name and tags, and
  only then applies the class or type filter. If the picked meter fails the
  filter, the result is empty even when another candidate would pass.
  `FindOutcome` states exactly this. `FindSucceedsWhenAllCandidatesPass`
  gives the case where a result is guaranteed.

## Model

| member | source | states |
|---|---|---|
| `MeterMaps.GetOrCreate` | micrometer-core/src/main/java/io/micrometer/core/instrument/simple/SimpleMeterRegistry.java:55 | get-or-create never overwrites: the keys grow by at most the requested identity, every existing entry keeps its meter, the result is the entry at the identity, and a new entry is the factory's meter |
| `MeterMaps.Put` | micrometer-core/src/main/java/io/micrometer/core/instrument/simple/SimpleMeterRegistry.java:93-96 | registration stores the meter under the identity made of its own name and tags, replacing what was there, and leaves every other entry unchanged |
| `MeterMaps.GetOrCreateTwice` | micrometer-core/src/main/java/io/micrometer/core/instrument/simple/SimpleMeterRegistry.java:54-56 | asking twice for one identity returns the first meter and leaves the map as the first call left it, whatever the second factory would build; one call adds at most one entry |
| `MeterMaps.WritesKeepKeyed` | micrometer-core/src/main/java/io/micrometer/core/instrument/simple/SimpleMeterRegistry.java:53-102 | both get-or-create and registration keep every meter stored under its own identity |
| `MeterMaps.KeyedMetersCarryTheirKeys` | micrometer-core/src/main/java/io/micrometer/core/instrument/simple/SimpleMeterRegistry.java:104-107 | in a keyed map the identities of the meters `getMeters` returns are exactly the map's keys |
| `MeterMaps.FindMeter` | micrometer-core/src/main/java/io/micrometer/core/instrument/simple/SimpleMeterRegistry.java:109-132 | the lookup returns the meter of some identity with the requested name and tags when it passes the class or type filter, nothing when the picked one fails it, and nothing when no identity matches |
| `MeterMaps.FoundMeterMatches` | micrometer-core/src/main/java/io/micrometer/core/instrument/simple/SimpleMeterRegistry.java:113-119 | any meter a lookup returns is stored in the registry, has the requested name, carries every requested tag and has the requested class or type |
| `MeterMaps.FindSucceedsWhenAllCandidatesPass` | micrometer-core/src/main/java/io/micrometer/core/instrument/simple/SimpleMeterRegistry.java:126-131 | when some identity matches and every matching meter passes the filter, the lookup returns a meter |
| `SimpleRegistry.QuantileGaugesRegistered` | micrometer-core/src/main/java/io/micrometer/core/instrument/simple/SimpleMeterRegistry.java:76-85 | registering quantile gauges keeps every existing entry, adds an entry `name + ".quantiles"` with the caller's tags plus `quantile=q` for every monitored q, adds no other key, and keeps meters under their own identities |
| `SimpleRegistry.SimpleMeterRegistry.constructor` | micrometer-core/src/main/java/io/micrometer/core/instrument/simple/SimpleMeterRegistry.java:43-51 | a new registry has an empty meter map |
| `SimpleRegistry.SimpleMeterRegistry.ComputeIfAbsent` | micrometer-core/src/main/java/io/micrometer/core/instrument/simple/SimpleMeterRegistry.java:55 | the map and the returned meter are those of `GetOrCreate`: the factory's meter is stored only when the identity is absent |
| `SimpleRegistry.SimpleMeterRegistry.Counter` | micrometer-core/src/main/java/io/micrometer/core/instrument/simple/SimpleMeterRegistry.java:53-56 | get-or-create of a counter under the name and the tags merged with the common tags |
| `SimpleRegistry.SimpleMeterRegistry.FunctionCounter` | micrometer-core/src/main/java/io/micrometer/core/instrument/simple/SimpleMeterRegistry.java:58-62 | returns the passed object unchanged; inserts a function-tracking counter only if the identity is absent |
| `SimpleRegistry.SimpleMeterRegistry.DistributionSummary` | micrometer-core/src/main/java/io/micrometer/core/instrument/simple/SimpleMeterRegistry.java:64-68 | quantile gauges are registered first, then get-or-create of the summary on the resulting map |
| `SimpleRegistry.SimpleMeterRegistry.Timer` | micrometer-core/src/main/java/io/micrometer/core/instrument/simple/SimpleMeterRegistry.java:70-74 | quantile gauges are registered first, then get-or-create of the timer on the resulting map |
| `SimpleRegistry.SimpleMeterRegistry.RegisterQuantilesGaugeIfNecessary` | micrometer-core/src/main/java/io/micrometer/core/instrument/simple/SimpleMeterRegistry.java:76-85 | with no quantiles the map is unchanged; otherwise the loop leaves the map `WithQuantileGauges` describes (the quantile tag reads "NaN" for NaN), keeping every meter under its own identity |
| `SimpleRegistry.SimpleMeterRegistry.LongTaskTimer` | micrometer-core/src/main/java/io/micrometer/core/instrument/simple/SimpleMeterRegistry.java:87-90 | get-or-create of a long-task timer |
| `SimpleRegistry.SimpleMeterRegistry.Register` | micrometer-core/src/main/java/io/micrometer/core/instrument/simple/SimpleMeterRegistry.java:92-96 | the new map is `Put` of the old one: last write wins at the meter's identity, and nothing else changes |
| `SimpleRegistry.SimpleMeterRegistry.Gauge` | micrometer-core/src/main/java/io/micrometer/core/instrument/simple/SimpleMeterRegistry.java:98-102 | returns the passed object unchanged; inserts a gauge only if the identity is absent |
| `SimpleRegistry.SimpleMeterRegistry.GetMeters` | micrometer-core/src/main/java/io/micrometer/core/instrument/simple/SimpleMeterRegistry.java:104-107 | the meters are exactly the values of the map |
| `SimpleRegistry.SimpleMeterRegistry.FindMeterByClass` | micrometer-core/src/main/java/io/micrometer/core/instrument/simple/SimpleMeterRegistry.java:109-120 | the result satisfies `FindOutcome` with the class filter |
| `SimpleRegistry.SimpleMeterRegistry.FindMeterByType` | micrometer-core/src/main/java/io/micrometer/core/instrument/simple/SimpleMeterRegistry.java:122-132 | the result satisfies `FindOutcome` with the type filter |
| `SimpleRegistry.SimpleMeterRegistry.Clear` | micrometer-core/src/main/java/io/micrometer/core/instrument/simple/SimpleMeterRegistry.java:134-139 | the map is empty afterwards, the state a new registry starts in, so later get-or-create calls behave as in a new registry |
| `SimpleSummary.Accepted` | micrometer-core/src/main/java/io/micrometer/core/instrument/simple/SimpleDistributionSummary.java:47-52 | the amounts the summary counts are non-negative, drawn from the recorded ones, and no more numerous |
| `SimpleSummary.AcceptedConcat` | micrometer-core/src/main/java/io/micrometer/core/instrument/simple/SimpleDistributionSummary.java:47-52 | the counted amounts of two runs of records are those of the first run followed by those of the second |
| `SimpleSummary.AcceptedAppend` | micrometer-core/src/main/java/io/micrometer/core/instrument/simple/SimpleDistributionSummary.java:47-52 | one more record adds its amount to the counted ones exactly when it is non-negative |
| `SimpleSummary.SumConcat` | micrometer-core/src/main/java/io/micrometer/core/instrument/simple/SimpleDistributionSummary.java:50 | the total of two runs is the sum of their totals |
| `SimpleSummary.SumNonNegative` | micrometer-core/src/main/java/io/micrometer/core/instrument/simple/SimpleDistributionSummary.java:59-62 | a total of non-negative amounts is non-negative |
| `SimpleSummary.TotalsNeverDecrease` | micrometer-core/src/main/java/io/micrometer/core/instrument/simple/SimpleDistributionSummary.java:47-62 | whatever is recorded later, neither the count nor the total decreases |
| `SimpleSummary.SimpleDistributionSummary.constructor` | micrometer-core/src/main/java/io/micrometer/core/instrument/simple/SimpleDistributionSummary.java:30-44 | a new summary has count 0 and total 0; its count and amount identities are its identity extended with the type tag and `statistic=count` or `statistic=amount` |
| `SimpleSummary.SimpleDistributionSummary.Record` | micrometer-core/src/main/java/io/micrometer/core/instrument/simple/SimpleDistributionSummary.java:46-52 | a negative amount changes neither count nor total; a non-negative one raises the count by 1 and the total by the amount; the count and total stay those of all non-negative amounts ever recorded |
| `SimpleSummary.SimpleDistributionSummary.Count` | micrometer-core/src/main/java/io/micrometer/core/instrument/simple/SimpleDistributionSummary.java:54-57 | the count is the number of non-negative amounts recorded |
| `SimpleSummary.SimpleDistributionSummary.TotalAmount` | micrometer-core/src/main/java/io/micrometer/core/instrument/simple/SimpleDistributionSummary.java:59-62 | the total is the sum of the non-negative amounts recorded, and is never negative |
| `SimpleSummary.SimpleDistributionSummary.Measure` | micrometer-core/src/main/java/io/micrometer/core/instrument/simple/SimpleDistributionSummary.java:64-69 | exactly two measurements: first the count under the count identity, then the total under the amount identity |
| `PrometheusRegistry.FamilyTypeOf` | micrometer-core/src/main/java/io/micrometer/core/instrument/prometheus/PrometheusMeterRegistry.java:199-211 | counter to COUNTER, gauge to GAUGE, distribution summary and timer to SUMMARY, every other type to UNTYPED; never HISTOGRAM |
| `PrometheusRegistry.GaugeChildValue` | micrometer-core/src/main/java/io/micrometer/core/instrument/prometheus/PrometheusMeterRegistry.java:166-172 | the gauge reads NaN exactly when its weakly held object is gone, and `f(obj)` otherwise |
| `PrometheusRegistry.CollectorByName` | micrometer-core/src/main/java/io/micrometer/core/instrument/prometheus/PrometheusMeterRegistry.java:248-254 | succeeds exactly when the name is unbound or bound to a collector of the requested class; on success returns the collector at the name, built only if absent; on failure throws the illegal-argument error and changes nothing; never changes another name |
| `PrometheusRegistry.NameKeepsItsCollectorClass` | micrometer-core/src/main/java/io/micrometer/core/instrument/prometheus/PrometheusMeterRegistry.java:248-254 | once a name has a collector of one class, asking for it with another class fails |
| `PrometheusRegistry.RegisteredNameRefusesGetOrCreate` | micrometer-core/src/main/java/io/micrometer/core/instrument/prometheus/PrometheusMeterRegistry.java:216 | after a caller-built meter is registered, its name is bound to a collector exposing it, and every later get-or-create under that name fails with the different-type error, whatever collector class it asks for |
| `PrometheusRegistry.PrometheusMeterRegistry.constructor` | micrometer-core/src/main/java/io/micrometer/core/instrument/prometheus/PrometheusMeterRegistry.java:52-66 | a new registry has empty collector and meter maps |
| `PrometheusRegistry.PrometheusMeterRegistry.CollectorByNameOf` | micrometer-core/src/main/java/io/micrometer/core/instrument/prometheus/PrometheusMeterRegistry.java:248-254 | the collector map and the result are those of `CollectorByName` |
| `PrometheusRegistry.PrometheusMeterRegistry.GetOrCreateMeter` | micrometer-core/src/main/java/io/micrometer/core/instrument/prometheus/PrometheusMeterRegistry.java:114-147 | the collector for the name is fetched or built first; if it is of another class the error is returned and the meter map is untouched; otherwise get-or-create of the meter. For a meter already present the collector map is unchanged, and the call succeeds exactly when the name's collector is of the requested class |
| `PrometheusRegistry.PrometheusMeterRegistry.Counter` | micrometer-core/src/main/java/io/micrometer/core/instrument/prometheus/PrometheusMeterRegistry.java:114-120 | as `GetOrCreateMeter` with the counter collector class and a counter meter |
| `PrometheusRegistry.PrometheusMeterRegistry.DistributionSummary` | micrometer-core/src/main/java/io/micrometer/core/instrument/prometheus/PrometheusMeterRegistry.java:122-129 | as `GetOrCreateMeter` with the summary collector class and a summary meter |
| `PrometheusRegistry.PrometheusMeterRegistry.Timer` | micrometer-core/src/main/java/io/micrometer/core/instrument/prometheus/PrometheusMeterRegistry.java:131-138 | as `GetOrCreateMeter` with the summary collector class and a timer meter |
| `PrometheusRegistry.PrometheusMeterRegistry.LongTaskTimer` | micrometer-core/src/main/java/io/micrometer/core/instrument/prometheus/PrometheusMeterRegistry.java:140-147 | as `GetOrCreateMeter` with the long-task-timer collector class and a long-task-timer meter |
| `PrometheusRegistry.PrometheusMeterRegistry.Gauge` | micrometer-core/src/main/java/io/micrometer/core/instrument/prometheus/PrometheusMeterRegistry.java:149-179 | on success returns the passed object whether or not the gauge existed, and inserts only if absent; a name bound to another collector class is an error and leaves the meters untouched |
| `PrometheusRegistry.PrometheusMeterRegistry.RegisterMeter` | micrometer-core/src/main/java/io/micrometer/core/instrument/prometheus/PrometheusMeterRegistry.java:181-220 | overwrites the collector at the meter's name with one exposing the meter under its family type, overwrites the meter map at the meter's identity, and returns the meter |
| `PrometheusRegistry.PrometheusMeterRegistry.GetMeters` | micrometer-core/src/main/java/io/micrometer/core/instrument/prometheus/PrometheusMeterRegistry.java:68-71 | the meters are exactly the values of the meter map |
| `PrometheusRegistry.PrometheusMeterRegistry.FindMeterByClass` | micrometer-core/src/main/java/io/micrometer/core/instrument/prometheus/PrometheusMeterRegistry.java:88-100 | the result satisfies the same `FindOutcome` as the simple registry's, with the class filter |
| `PrometheusRegistry.PrometheusMeterRegistry.FindMeterByType` | micrometer-core/src/main/java/io/micrometer/core/instrument/prometheus/PrometheusMeterRegistry.java:102-112 | the result satisfies the same `FindOutcome` as the simple registry's, with the type filter |
| `FunctionTracking.FunctionTrackingCounter.Name` | micrometer-core/src/main/java/io/micrometer/core/instrument/internal/FunctionTrackingCounter.java:39-42 | the name is the identity's name |
| `FunctionTracking.FunctionTrackingCounter.Tags` | micrometer-core/src/main/java/io/micrometer/core/instrument/internal/FunctionTrackingCounter.java:44-47 | the tags are the identity's tags |
| `FunctionTracking.FunctionTrackingCounter.Type` | micrometer-core/src/main/java/io/micrometer/core/instrument/internal/FunctionTrackingCounter.java:49-52 | the type is always Counter |
| `FunctionTracking.FunctionTrackingCounter.Measure` | micrometer-core/src/main/java/io/micrometer/core/instrument/internal/FunctionTrackingCounter.java:54-59 | no measurement exactly when the object is gone; otherwise one measurement, under the counter's own identity, whose value is `f(obj)` |
| `FunctionTracking.Track` | micrometer-core/src/main/java/io/micrometer/core/instrument/internal/FunctionTrackingCounter.java:33-37 | a new counter keeps its identity, holds the object and keeps the caller's value function, so it reports one measurement of `f(obj)` under its identity |
| `FunctionTracking.ReclaimedReportsNothing` | micrometer-core/src/main/java/io/micrometer/core/instrument/internal/FunctionTrackingCounter.java:54-59 | once the object is reclaimed the counter reports nothing, and its name, tags and type stay the same |
| `FunctionTracking.HeisenCounterAfterOneIncrement` | micrometer-core/src/test/java/io/micrometer/core/instrument/CounterTest.java:62-71 | a counter tracking an `AtomicLong` incremented once from 0 reports one measurement of 1 (the counter is built directly, not registered and looked up again) |
| `RestTemplateTags.NaturalRoundTrip` | micrometer-spring/src/main/java/org/springframework/boot/metrics/web/RestTemplateTagConfigurer.java:56-57 | reading back the decimal digits of a natural number gives the number |
| `RestTemplateTags.DecimalString` | micrometer-spring/src/main/java/org/springframework/boot/metrics/web/RestTemplateTagConfigurer.java:56-57 | `Integer.toString`: a canonical spelling, starting with '-' exactly for negative numbers |
| `RestTemplateTags.DecimalRoundTrip` | micrometer-spring/src/main/java/org/springframework/boot/metrics/web/RestTemplateTagConfigurer.java:56-57 | reading back the decimal rendering of a status code gives the code |
| `RestTemplateTags.CanonicalNaturalRoundTrip` | micrometer-spring/src/main/java/org/springframework/boot/metrics/web/RestTemplateTagConfigurer.java:56-57 | canonical digits are exactly the rendering of the number they spell |
| `RestTemplateTags.CanonicalRoundTrip` | micrometer-spring/src/main/java/org/springframework/boot/metrics/web/RestTemplateTagConfigurer.java:56-57 | every canonical string reads back as a number whose rendering is that string; with `DecimalRoundTrip`, rendering is a bijection between integers and canonical strings |
| `RestTemplateTags.StatusTag` | micrometer-spring/src/main/java/org/springframework/boot/metrics/web/RestTemplateTagConfigurer.java:54-60 | CLIENT_ERROR without a response, IO_ERROR when the status cannot be read, otherwise the canonical decimal spelling of the raw status code (no leading zero, no "-0"), which reads back as the code and is the only canonical string that does |
| `RestTemplateTags.FirstSlash` | micrometer-spring/src/main/java/org/springframework/boot/metrics/web/RestTemplateTagConfigurer.java:67 | the position found holds a '/' and no earlier position does; with no position found there is no '/' at all |
| `RestTemplateTags.StripUrlTemplate` | micrometer-spring/src/main/java/org/springframework/boot/metrics/web/RestTemplateTagConfigurer.java:67 | the stripped template is a suffix of the template, and whatever was removed is a scheme, a non-empty host without '/', and a '/' |
| `RestTemplateTags.StripKeepsRelativeTemplates` | micrometer-spring/src/main/java/org/springframework/boot/metrics/web/RestTemplateTagConfigurer.java:67 | a template not starting with "http://" or "https://" is kept unchanged |
| `RestTemplateTags.StripRemovesSchemeAndHost` | micrometer-spring/src/main/java/org/springframework/boot/metrics/web/RestTemplateTagConfigurer.java:67 | `http(s)://host/rest`, with a non-empty host free of '/', becomes `rest` |
| `RestTemplateTags.RestTemplateTagConfigurer.ClientHttpRequestTags` | micrometer-spring/src/main/java/org/springframework/boot/metrics/web/RestTemplateTagConfigurer.java:47-73 | exactly four tags in the order method, uri, status, clientName; the method's name; the formatted stripped template, with "none" for a missing template; the status tag; the host, or "none" without one |

## Left out

- Concurrency: the atomicity of the concurrent maps' get-or-create and the
  thread safety of the adders are not modelled. Every operation is
  sequential.
- Floating point: the summary total is a `real`, so the adder's rounding is
  not modelled. Value functions (`ToDoubleFunction`) return a `real` and so
  never produce NaN. NaN arises only as a gauge's reading once its object is
  gone, and as a monitored quantile.
- SimpleSummary.SimpleDistributionSummary.Record: the count is an unbounded
  `nat`. The 64-bit wrap-around of the source's long adder is not modelled.
- Meter objects: the registries store each meter as its identity and kind.
  The accumulators and behaviour of the counters, gauges, timers and
  long-task timers they build are not modelled, apart from the distribution
  summary and the function-tracking counter. A gauge or function counter in
  a registry records which object it samples, but not its value function.
- The meter identity class and the tag-merging, number-formatting,
  tag-formatting and type-tag helpers are not part of this model. Equality of
  identities is taken to be equality of name and ordered tag list, and
  `withTags` is taken to append. Common-tag merging (`withCommonTags`),
  `Double.toString`, the backend's tag-value formatter, and the tag naming
  the summary's meter type are supplied as parameters.
- Quantiles and histograms: a quantile set is reduced to the list of
  quantiles it monitors. No estimator or histogram is modelled. The histogram
  parameters of `distributionSummary` and `timer` are dropped. The simple
  registry ignores them. The Prometheus registry passes both the quantiles and
  the histogram to its own summary collector, `CustomPrometheusSummary.child(...)`,
  whose per-child estimators are not modelled; its `DistributionSummary` and
  `Timer` methods therefore take neither parameter.
- Prometheus client calls: `scrape`, `CollectorRegistry.register`,
  `buildCollector`, the label lookup in `child(...)`, `setChild`, the sample
  and label building inside the collector that `meter(...)` creates, and
  `getPrometheusRegistry` are foreign library calls. A collector is modelled
  only by its class, or, for `meter(...)`, by the family name and type it
  exposes.
- A call-site cast: the generic get-or-create returns whatever meter is
  stored under the identity. In Java, a stored meter of another class would
  then fail a cast at the call site. The model returns the stored meter.
- RestTemplateTags.RestTemplateTagConfigurer.ClientHttpRequestTags: a
  request's method is one of the eight HTTP methods. A request whose method
  cannot be resolved (a null method) makes the source throw a
  `NullPointerException` when it takes the method's name, instead of
  producing tags; that error path is not modelled.
- Weak references and garbage collection: a weakly held object is an
  `Option`, and reclaiming it is `Reclaimed()`.
- The clock and the thread-local holder of the current URL template are not
  modelled as such. The URL template is a parameter, and no modelled
  operation reads the clock.
- Operations inherited from the abstract registry base class, such as the
  Prometheus registry's function counter, are not part of this model.
- Executor-service metrics, the Spectator long-task timer and the Spring
  configuration classes are outside the modelled core. They are
  reflection-based instrumentation, delegation to another library, and
  dependency-injection wiring.
