/**
 * The Prometheus-backed registry: a meter map as in the simple registry, plus
 * a map from meter name to the Prometheus collector holding that name.
 * Get-or-create never rebinds a name to another kind of collector: asking for
 * a meter whose collector would be of another kind fails. Registering a
 * caller-built meter rebinds the name unconditionally.
 */
module PrometheusRegistry {
  import opened Wrappers
  import opened Meters
  import opened MeterMaps

  /** The Prometheus type a metric family is exposed with. */
  datatype FamilyType = CounterFamily | GaugeFamily | SummaryFamily | HistogramFamily | UntypedFamily

  /**
   * The class of the collector built for each kind of meter: the Prometheus
   * client's counter and gauge, and the registry's own summary and long-task
   * timer collectors.
   */
  datatype CollectorClass = ClientCounter | ClientGauge | CustomSummary | CustomLongTaskTimer

  /**
   * A collector: one the registry built for a meter name (of some class), or
   * one that exposes a caller-supplied meter as a family of the given type.
   */
  datatype Collector = Built(cls: CollectorClass) | MeterFamily(family: string, familyType: FamilyType)

  predicate IsInstanceOf(c: Collector, cls: CollectorClass) {
    c.Built? && c.cls == cls
  }

  datatype Error = IllegalArgument(message: string)

  const DifferentTypeMessage := "There is already a registered meter of a different type with the same name"

  /** The family type a caller-supplied meter is exposed with. */
  function FamilyTypeOf(t: MeterType): (r: FamilyType)
    ensures r == CounterFamily <==> t == Counter
    ensures r == GaugeFamily <==> t == Gauge
    ensures r == SummaryFamily <==> t == DistributionSummary || t == Timer
    ensures r == UntypedFamily <==> t == LongTaskTimer || t == Other
    ensures r != HistogramFamily
  {
    match t
    case Counter => CounterFamily
    case Gauge => GaugeFamily
    case DistributionSummary => SummaryFamily
    case Timer => SummaryFamily
    case _ => UntypedFamily
  }

  /**
   * The current value of a gauge over a weakly held object (`None` once the
   * object has been reclaimed): NaN when it is gone, `f` of it otherwise.
   */
  function GaugeChildValue<T>(ref: Option<T>, f: T -> real): (r: Double)
    ensures r.NaN? <==> ref.None?
    ensures ref.Some? ==> r == Num(f(ref.value))
  {
    match ref
    case None => NaN
    case Some(obj) => Num(f(obj))
  }

  /**
   * Get-or-create of the collector for `name`, building one of class `cls` if
   * there is none, then a type check: a stored collector of another class is
   * an error and nothing changes.
   */
  function CollectorByName(cm: map<string, Collector>, cls: CollectorClass, name: string)
    : (r: (map<string, Collector>, Result<Collector, Error>))
    ensures r.1.Ok? <==> name !in cm || IsInstanceOf(cm[name], cls)
    ensures r.1.Ok? ==> r.0.Keys == cm.Keys + {name} && r.1.value == r.0[name] && IsInstanceOf(r.1.value, cls)
    ensures r.1.Ok? && name in cm ==> r.0 == cm
    ensures forall n :: n in cm ==> n in r.0 && r.0[n] == cm[n]
    ensures r.1.Err? ==> r.0 == cm && r.1.error == IllegalArgument(DifferentTypeMessage)
  {
    var cm' := if name in cm then cm else cm[name := Built(cls)];
    if IsInstanceOf(cm'[name], cls) then (cm', Ok(cm'[name]))
    else (cm', Err(IllegalArgument(DifferentTypeMessage)))
  }

  /** Once a name is bound to a collector of one class, asking for another class fails. */
  lemma {:induction false} NameKeepsItsCollectorClass(cm: map<string, Collector>, first: CollectorClass,
                                                      second: CollectorClass, name: string)
    requires CollectorByName(cm, first, name).1.Ok?
    requires second != first
    ensures CollectorByName(CollectorByName(cm, first, name).0, second, name).1.Err?
  {
  }

  /**
   * Registering a caller-built meter rebinds its name to a collector exposing
   * that meter, whatever was bound before; afterwards every get-or-create
   * under the name fails, whichever class it asks for.
   */
  lemma {:induction false} RegisteredNameRefusesGetOrCreate(cm: map<string, Collector>, meter: Meter, cls: CollectorClass)
    ensures var cm' := cm[meter.Name() := MeterFamily(meter.Name(), FamilyTypeOf(meter.Type()))];
            CollectorByName(cm', cls, meter.Name()).1 == Err(IllegalArgument(DifferentTypeMessage))
  {
  }

  /** A registry that exposes its meters to Prometheus; common-tag merging is supplied to it. */
  class PrometheusMeterRegistry {
    var collectorMap: map<string, Collector>
    var meterMap: MeterMap
    /** Merges the registry-wide common tags into a caller's tags. */
    const withCommonTags: seq<Tag> -> seq<Tag>

    /** Every meter is stored under its own identity, and every meter's name has a collector. */
    ghost predicate Valid()
      reads this
    {
      Keyed(meterMap) && forall id :: id in meterMap ==> id.name in collectorMap
    }

    constructor (withCommonTags: seq<Tag> -> seq<Tag>)
      ensures Valid() && collectorMap == map[] && meterMap == map[]
      ensures this.withCommonTags == withCommonTags
    {
      collectorMap := map[];
      meterMap := map[];
      this.withCommonTags := withCommonTags;
    }

    function IdOf(name: string, tags: seq<Tag>): MeterId {
      MeterId(name, withCommonTags(tags))
    }

    method CollectorByNameOf(cls: CollectorClass, name: string) returns (r: Result<Collector, Error>)
      requires Valid()
      modifies this`collectorMap
      ensures Valid()
      ensures (collectorMap, r) == CollectorByName(old(collectorMap), cls, name)
    {
      if name !in collectorMap {
        collectorMap := collectorMap[name := Built(cls)];
      }
      var c := collectorMap[name];
      if !IsInstanceOf(c, cls) {
        r := Err(IllegalArgument(DifferentTypeMessage));
        return;
      }
      r := Ok(c);
    }

    /**
     * The shape of `counter`, `distributionSummary`, `timer`, `longTaskTimer`
     * and `gauge`: the collector for the name first (which may fail, leaving
     * the meters untouched), then get-or-create of the meter.
     */
    method GetOrCreateMeter(cls: CollectorClass, name: string, tags: seq<Tag>, kind: Kind) returns (r: Result<Meter, Error>)
      requires Valid()
      modifies this`collectorMap, this`meterMap
      ensures Valid()
      ensures var (cm, c) := CollectorByName(old(collectorMap), cls, name);
              && collectorMap == cm
              && (c.Err? ==> r == Err(c.error) && meterMap == old(meterMap))
              && (c.Ok? ==> r.Ok? && (meterMap, r.value) == GetOrCreate(old(meterMap), IdOf(name, tags), kind))
      ensures IdOf(name, tags) in old(meterMap) ==>
                && collectorMap == old(collectorMap)
                && (r.Ok? <==> IsInstanceOf(old(collectorMap)[name], cls))
    {
      var id := IdOf(name, tags);
      var c := CollectorByNameOf(cls, name);
      if c.Err? {
        r := Err(c.error);
        return;
      }
      if id in meterMap {
        r := Ok(meterMap[id]);
      } else {
        meterMap := meterMap[id := Meter(id, kind)];
        r := Ok(Meter(id, kind));
      }
    }

    method Counter(name: string, tags: seq<Tag>) returns (r: Result<Meter, Error>)
      requires Valid()
      modifies this`collectorMap, this`meterMap
      ensures Valid()
      ensures var (cm, c) := CollectorByName(old(collectorMap), ClientCounter, name);
              && collectorMap == cm
              && (c.Err? ==> r == Err(c.error) && meterMap == old(meterMap))
              && (c.Ok? ==> r.Ok? && (meterMap, r.value) == GetOrCreate(old(meterMap), IdOf(name, tags), CounterMeter))
    {
      r := GetOrCreateMeter(ClientCounter, name, tags, CounterMeter);
    }

    method DistributionSummary(name: string, tags: seq<Tag>) returns (r: Result<Meter, Error>)
      requires Valid()
      modifies this`collectorMap, this`meterMap
      ensures Valid()
      ensures var (cm, c) := CollectorByName(old(collectorMap), CustomSummary, name);
              && collectorMap == cm
              && (c.Err? ==> r == Err(c.error) && meterMap == old(meterMap))
              && (c.Ok? ==> r.Ok? && (meterMap, r.value) == GetOrCreate(old(meterMap), IdOf(name, tags), SummaryMeter))
    {
      r := GetOrCreateMeter(CustomSummary, name, tags, SummaryMeter);
    }

    /** A timer shares the summary collector class, so a timer and a summary may share a name. */
    method Timer(name: string, tags: seq<Tag>) returns (r: Result<Meter, Error>)
      requires Valid()
      modifies this`collectorMap, this`meterMap
      ensures Valid()
      ensures var (cm, c) := CollectorByName(old(collectorMap), CustomSummary, name);
              && collectorMap == cm
              && (c.Err? ==> r == Err(c.error) && meterMap == old(meterMap))
              && (c.Ok? ==> r.Ok? && (meterMap, r.value) == GetOrCreate(old(meterMap), IdOf(name, tags), TimerMeter))
    {
      r := GetOrCreateMeter(CustomSummary, name, tags, TimerMeter);
    }

    method LongTaskTimer(name: string, tags: seq<Tag>) returns (r: Result<Meter, Error>)
      requires Valid()
      modifies this`collectorMap, this`meterMap
      ensures Valid()
      ensures var (cm, c) := CollectorByName(old(collectorMap), CustomLongTaskTimer, name);
              && collectorMap == cm
              && (c.Err? ==> r == Err(c.error) && meterMap == old(meterMap))
              && (c.Ok? ==> r.Ok? && (meterMap, r.value) == GetOrCreate(old(meterMap), IdOf(name, tags), LongTaskTimerMeter))
    {
      r := GetOrCreateMeter(CustomLongTaskTimer, name, tags, LongTaskTimerMeter);
    }

    /** A gauge sampling `obj`; on success returns `obj` whether or not the gauge already existed. */
    method Gauge(name: string, tags: seq<Tag>, obj: Ref) returns (r: Result<Ref, Error>)
      requires Valid()
      modifies this`collectorMap, this`meterMap
      ensures Valid()
      ensures var (cm, c) := CollectorByName(old(collectorMap), ClientGauge, name);
              && collectorMap == cm
              && (c.Err? ==> r == Err(c.error) && meterMap == old(meterMap))
              && (c.Ok? ==> r == Ok(obj) && meterMap == GetOrCreate(old(meterMap), IdOf(name, tags), GaugeMeter(obj)).0)
    {
      var g := GetOrCreateMeter(ClientGauge, name, tags, GaugeMeter(obj));
      if g.Err? {
        r := Err(g.error);
        return;
      }
      r := Ok(obj);
    }

    /**
     * Installs a caller-built meter: its name now maps to a collector exposing
     * it with the family type of its meter type, and it replaces any meter at
     * its identity. Returns the meter.
     */
    method RegisterMeter(meter: Meter) returns (r: Meter)
      requires Valid()
      modifies this`collectorMap, this`meterMap
      ensures Valid()
      ensures r == meter
      ensures collectorMap == old(collectorMap)[meter.Name() := MeterFamily(meter.Name(), FamilyTypeOf(meter.Type()))]
      ensures meterMap == Put(old(meterMap), meter)
    {
      collectorMap := collectorMap[meter.Name() := MeterFamily(meter.Name(), FamilyTypeOf(meter.Type()))];
      meterMap := meterMap[MeterId(meter.Name(), meter.Tags()) := meter];
      r := meter;
    }

    method GetMeters() returns (ms: set<Meter>)
      ensures ms == meterMap.Values
    {
      ms := meterMap.Values;
    }

    method FindMeterByClass(cls: MeterClass, name: string, tags: seq<Tag>) returns (r: Option<Meter>)
      ensures FindOutcome(meterMap, ByClass(cls), name, tags, r)
    {
      r := FindMeter(meterMap, ByClass(cls), name, tags);
    }

    method FindMeterByType(t: MeterType, name: string, tags: seq<Tag>) returns (r: Option<Meter>)
      ensures FindOutcome(meterMap, ByType(t), name, tags, r)
    {
      r := FindMeter(meterMap, ByType(t), name, tags);
    }
  }
}
