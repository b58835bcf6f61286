/**
 * The minimal in-memory registry: one map from meter identity to meter,
 * written by get-or-create, by unconditional registration and by clear.
 */
module SimpleRegistry {
  import opened Wrappers
  import opened Meters
  import opened MeterMaps

  /** The value of the `quantile` tag: "NaN" for NaN, otherwise `Double.toString` of the quantile. */
  function QuantileTagValue(formatDouble: real -> string, q: Double): string {
    match q
    case NaN => "NaN"
    case Num(v) => formatDouble(v)
  }

  /** The identity of the gauge that reads quantile `q`: the caller's tags, then the quantile tag. */
  function QuantileId(formatDouble: real -> string, name: string, tags: seq<Tag>, q: Double): MeterId {
    MeterId(name + ".quantiles", tags + [Tag("quantile", QuantileTagValue(formatDouble, q))])
  }

  /** The map after get-or-create of one quantile gauge per monitored quantile, in order. */
  function WithQuantileGauges(m: MeterMap, formatDouble: real -> string, name: string, tags: seq<Tag>, qs: seq<Double>): MeterMap
    decreases |qs|
  {
    if qs == [] then m
    else
      var q := qs[|qs| - 1];
      GetOrCreate(WithQuantileGauges(m, formatDouble, name, tags, qs[..|qs| - 1]),
                  QuantileId(formatDouble, name, tags, q), QuantileGaugeMeter(q)).0
  }

  /** The map after `registerQuantilesGaugeIfNecessary`: unchanged when no quantiles were asked for. */
  function QuantileGaugesIfNecessary(m: MeterMap, formatDouble: real -> string, name: string, tags: seq<Tag>,
                                     quantiles: Option<Quantiles>): MeterMap
  {
    match quantiles
    case None => m
    case Some(qs) => WithQuantileGauges(m, formatDouble, name, tags, qs.monitored)
  }

  /**
   * Registering the quantile gauges keeps every existing entry, adds an entry
   * for every monitored quantile, adds nothing else, and keeps every meter
   * under its own identity.
   */
  lemma {:induction false} QuantileGaugesRegistered(m: MeterMap, formatDouble: real -> string, name: string,
                                                    tags: seq<Tag>, qs: seq<Double>)
    ensures var r := WithQuantileGauges(m, formatDouble, name, tags, qs);
            && (forall k :: k in m ==> k in r && r[k] == m[k])
            && (forall i :: 0 <= i < |qs| ==> QuantileId(formatDouble, name, tags, qs[i]) in r)
            && r.Keys == m.Keys + (set q | q in qs :: QuantileId(formatDouble, name, tags, q))
            && (Keyed(m) ==> Keyed(r))
    decreases |qs|
  {
    if qs != [] {
      var init := qs[..|qs| - 1];
      var q := qs[|qs| - 1];
      QuantileGaugesRegistered(m, formatDouble, name, tags, init);
      var before := WithQuantileGauges(m, formatDouble, name, tags, init);
      var r := WithQuantileGauges(m, formatDouble, name, tags, qs);
      assert r == GetOrCreate(before, QuantileId(formatDouble, name, tags, q), QuantileGaugeMeter(q)).0;
      forall i | 0 <= i < |qs| ensures QuantileId(formatDouble, name, tags, qs[i]) in r {
        if i < |qs| - 1 {
          assert qs[i] == init[i];
        }
      }
      assert qs == init + [q];
      assert (set x | x in qs :: QuantileId(formatDouble, name, tags, x))
          == (set x | x in init :: QuantileId(formatDouble, name, tags, x)) + {QuantileId(formatDouble, name, tags, q)};
      if Keyed(m) {
        WritesKeepKeyed(before, QuantileId(formatDouble, name, tags, q), QuantileGaugeMeter(q), Meter(QuantileId(formatDouble, name, tags, q), QuantileGaugeMeter(q)));
      }
    }
  }

  /** A registry keeping every meter in one map; common-tag merging and number formatting are supplied to it. */
  class SimpleMeterRegistry {
    var meterMap: MeterMap
    /** Merges the registry-wide common tags into a caller's tags. */
    const withCommonTags: seq<Tag> -> seq<Tag>
    /** `Double.toString`, used to render a quantile tag. */
    const formatDouble: real -> string

    ghost predicate Valid()
      reads this
    {
      Keyed(meterMap)
    }

    constructor (withCommonTags: seq<Tag> -> seq<Tag>, formatDouble: real -> string)
      ensures Valid() && meterMap == map[]
      ensures this.withCommonTags == withCommonTags && this.formatDouble == formatDouble
    {
      meterMap := map[];
      this.withCommonTags := withCommonTags;
      this.formatDouble := formatDouble;
    }

    /** The identity a meter asked for by name and tags gets: the tags with the common tags merged in. */
    function IdOf(name: string, tags: seq<Tag>): MeterId {
      MeterId(name, withCommonTags(tags))
    }

    /** Get-or-create on `id`; the factory builds a meter of `kind` and runs only when `id` is absent. */
    method ComputeIfAbsent(id: MeterId, kind: Kind) returns (m: Meter)
      requires Valid()
      modifies this`meterMap
      ensures Valid()
      ensures (meterMap, m) == GetOrCreate(old(meterMap), id, kind)
    {
      if id in meterMap {
        m := meterMap[id];
      } else {
        m := Meter(id, kind);
        meterMap := meterMap[id := m];
      }
    }

    method Counter(name: string, tags: seq<Tag>) returns (c: Meter)
      requires Valid()
      modifies this`meterMap
      ensures Valid()
      ensures (meterMap, c) == GetOrCreate(old(meterMap), IdOf(name, tags), CounterMeter)
    {
      c := ComputeIfAbsent(IdOf(name, tags), CounterMeter);
    }

    /** A counter that tracks a function of `obj`; returns `obj` whether or not the counter already existed. */
    method FunctionCounter(name: string, tags: seq<Tag>, obj: Ref) returns (r: Ref)
      requires Valid()
      modifies this`meterMap
      ensures Valid()
      ensures r == obj
      ensures meterMap == GetOrCreate(old(meterMap), IdOf(name, tags), FunctionCounterMeter(obj)).0
    {
      var _ := ComputeIfAbsent(IdOf(name, tags), FunctionCounterMeter(obj));
      r := obj;
    }

    /** Quantile gauges first (under the caller's own tags), then get-or-create of the summary. */
    method DistributionSummary(name: string, tags: seq<Tag>, quantiles: Option<Quantiles>) returns (s: Meter)
      requires Valid()
      modifies this`meterMap
      ensures Valid()
      ensures (meterMap, s) == GetOrCreate(QuantileGaugesIfNecessary(old(meterMap), formatDouble, name, tags, quantiles),
                                           IdOf(name, tags), SummaryMeter)
    {
      RegisterQuantilesGaugeIfNecessary(name, tags, quantiles);
      s := ComputeIfAbsent(IdOf(name, tags), SummaryMeter);
    }

    method Timer(name: string, tags: seq<Tag>, quantiles: Option<Quantiles>) returns (t: Meter)
      requires Valid()
      modifies this`meterMap
      ensures Valid()
      ensures (meterMap, t) == GetOrCreate(QuantileGaugesIfNecessary(old(meterMap), formatDouble, name, tags, quantiles),
                                           IdOf(name, tags), TimerMeter)
    {
      RegisterQuantilesGaugeIfNecessary(name, tags, quantiles);
      t := ComputeIfAbsent(IdOf(name, tags), TimerMeter);
    }

    /** One gauge per monitored quantile, named `name + ".quantiles"`; nothing when no quantiles were given. */
    method RegisterQuantilesGaugeIfNecessary(name: string, tags: seq<Tag>, quantiles: Option<Quantiles>)
      requires Valid()
      modifies this`meterMap
      ensures Valid()
      ensures meterMap == QuantileGaugesIfNecessary(old(meterMap), formatDouble, name, tags, quantiles)
    {
      if quantiles.Some? {
        var qs := quantiles.value.monitored;
        var i := 0;
        while i < |qs|
          invariant 0 <= i <= |qs|
          invariant Valid()
          invariant meterMap == WithQuantileGauges(old(meterMap), formatDouble, name, tags, qs[..i])
        {
          var q := qs[i];
          var quantileTags := tags + [Tag("quantile", if q.NaN? then "NaN" else formatDouble(q.v))];
          var _ := ComputeIfAbsent(MeterId(name + ".quantiles", quantileTags), QuantileGaugeMeter(q));
          assert qs[..i + 1][..i] == qs[..i];
          i := i + 1;
        }
        assert qs[..|qs|] == qs;
      }
    }

    method LongTaskTimer(name: string, tags: seq<Tag>) returns (t: Meter)
      requires Valid()
      modifies this`meterMap
      ensures Valid()
      ensures (meterMap, t) == GetOrCreate(old(meterMap), IdOf(name, tags), LongTaskTimerMeter)
    {
      t := ComputeIfAbsent(IdOf(name, tags), LongTaskTimerMeter);
    }

    /** Installs `meter` under its own name and tags, replacing any meter there. */
    method Register(meter: Meter)
      requires Valid()
      modifies this`meterMap
      ensures Valid()
      ensures meterMap == Put(old(meterMap), meter)
    {
      meterMap := meterMap[MeterId(meter.Name(), meter.Tags()) := meter];
    }

    /** A gauge sampling `obj`; returns `obj` whether or not the gauge already existed. */
    method Gauge(name: string, tags: seq<Tag>, obj: Ref) returns (r: Ref)
      requires Valid()
      modifies this`meterMap
      ensures Valid()
      ensures r == obj
      ensures meterMap == GetOrCreate(old(meterMap), IdOf(name, tags), GaugeMeter(obj)).0
    {
      var _ := ComputeIfAbsent(IdOf(name, tags), GaugeMeter(obj));
      r := obj;
    }

    method GetMeters() returns (ms: set<Meter>)
      ensures ms == meterMap.Values
    {
      ms := meterMap.Values;
    }

    method FindMeterByClass(cls: MeterClass, name: string, tags: seq<Tag>) returns (r: Option<Meter>)
      ensures FindOutcome(meterMap, ByClass(cls), name, tags, r)
    {
      r := FindMeter(meterMap, ByClass(cls), name, tags);
    }

    method FindMeterByType(t: MeterType, name: string, tags: seq<Tag>) returns (r: Option<Meter>)
      ensures FindOutcome(meterMap, ByType(t), name, tags, r)
    {
      r := FindMeter(meterMap, ByType(t), name, tags);
    }

    /** Removes every meter: the registry is in the state a new one starts in. */
    method Clear()
      modifies this`meterMap
      ensures Valid() && meterMap == map[]
    {
      meterMap := map[];
    }
  }
}
