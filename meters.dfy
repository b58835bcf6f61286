/**
 * The vocabulary both registries share: tags, meter identities, measurements,
 * meter types, and the meters a registry stores.
 */
module Meters {

  /** A key/value label attached to a meter. */
  datatype Tag = Tag(key: string, value: string)

  /**
   * The registry key: a meter name and the tag list it was built from.
   * Two identities are equal when their names and their tag lists are equal.
   */
  datatype MeterId = MeterId(name: string, tags: seq<Tag>) {

    /** The same name with `extra` appended to the tags. */
    function WithTags(extra: seq<Tag>): MeterId {
      MeterId(name, tags + extra)
    }
  }

  /** One sample of a meter: the identity it is reported under and its value. */
  datatype Measurement = Measurement(id: MeterId, value: real)

  /** A Java `double` as far as this model needs one: a real number, or NaN. */
  datatype Double = NaN | Num(v: real)

  /** The set of quantiles a distribution summary or a timer asks to be monitored. */
  datatype Quantiles = Quantiles(monitored: seq<Double>)

  /** The type every meter reports about itself. */
  datatype MeterType = Counter | Gauge | Timer | DistributionSummary | LongTaskTimer | Other

  /** The identity of an externally owned object that a gauge or a function counter samples. */
  type Ref = nat

  /** Which kind of meter a registry built for an identity, with what it was built from. */
  datatype Kind =
    | CounterMeter                      // a plain counter
    | FunctionCounterMeter(target: Ref) // a FunctionTrackingCounter over a weakly held object
    | GaugeMeter(target: Ref)           // a gauge over a weakly held object
    | QuantileGaugeMeter(quantile: Double) // a gauge reading one monitored quantile
    | SummaryMeter
    | TimerMeter
    | LongTaskTimerMeter
    | CustomMeter(customType: MeterType) // a meter built by the caller, implementing only `Meter`

  /** A meter as the registry sees it: its identity and its kind. */
  datatype Meter = Meter(id: MeterId, kind: Kind) {

    function Name(): string { id.name }

    function Tags(): seq<Tag> { id.tags }

    /** `getType()` of each kind: a function counter reports itself as a counter. */
    function Type(): MeterType {
      match kind
      case CounterMeter => Counter
      case FunctionCounterMeter(_) => Counter
      case GaugeMeter(_) => Gauge
      case QuantileGaugeMeter(_) => Gauge
      case SummaryMeter => DistributionSummary
      case TimerMeter => Timer
      case LongTaskTimerMeter => LongTaskTimer
      case CustomMeter(t) => t
    }
  }

  /** The meter interfaces a caller can ask `findMeter` for by class. */
  datatype MeterClass =
    | AnyMeterClass
    | CounterClass
    | GaugeClass
    | TimerClass
    | DistributionSummaryClass
    | LongTaskTimerClass

  /**
   * `mClass.isInstance(m)`. A function-tracking counter implements only `Meter`,
   * not `Counter`, although its type is `Counter`.
   */
  predicate IsInstance(m: Meter, cls: MeterClass) {
    match cls
    case AnyMeterClass => true
    case CounterClass => m.kind.CounterMeter?
    case GaugeClass => m.kind.GaugeMeter? || m.kind.QuantileGaugeMeter?
    case TimerClass => m.kind.TimerMeter?
    case DistributionSummaryClass => m.kind.SummaryMeter?
    case LongTaskTimerClass => m.kind.LongTaskTimerMeter?
  }

  /** `tags.containsAll(wanted)`: every wanted tag occurs among `tags`. */
  predicate ContainsAll(tags: seq<Tag>, wanted: seq<Tag>) {
    forall t :: t in wanted ==> t in tags
  }
}
