/**
 * A counter whose value is a function of an object it holds only weakly: it
 * reports that value while the object lives and nothing once it is gone.
 */
module FunctionTracking {
  import opened Wrappers
  import opened Meters

  /** `ref` is the weakly held object: `None` once it has been reclaimed. */
  datatype FunctionTrackingCounter<!T> = FunctionTrackingCounter(id: MeterId, ref: Option<T>, f: T -> real) {

    function Name(): (n: string)
      ensures n == id.name
    {
      id.name
    }

    function Tags(): (ts: seq<Tag>)
      ensures ts == id.tags
    {
      id.tags
    }

    /** Always a counter, whatever it tracks. */
    function Type(): (t: MeterType)
      ensures t == Counter
    {
      Counter
    }

    /** One measurement of `f` under the counter's own identity while the object lives; none after. */
    function Measure(): (ms: seq<Measurement>)
      ensures ms == [] <==> ref.None?
      ensures ref.Some? ==> |ms| == 1 && ms[0].id == id && ms[0].value == f(ref.value)
    {
      match ref
      case None => []
      case Some(obj) => [Measurement(id, f(obj))]
    }

    /** The same counter after its object has been reclaimed. */
    function Reclaimed(): FunctionTrackingCounter<T> {
      this.(ref := None)
    }
  }

  /** A new counter: it holds `obj` weakly and has not seen it reclaimed. */
  function Track<T>(id: MeterId, obj: T, f: T -> real): (c: FunctionTrackingCounter<T>)
    ensures c.id == id && c.ref == Some(obj) && c.f == f
    ensures c.Measure() == [Measurement(id, f(obj))]
  {
    FunctionTrackingCounter(id, Some(obj), f)
  }

  /** Reclaiming the object silences the counter but keeps its name, tags and type. */
  lemma ReclaimedReportsNothing<T>(c: FunctionTrackingCounter<T>)
    ensures c.Reclaimed().Measure() == []
    ensures c.Reclaimed().Name() == c.Name() && c.Reclaimed().Tags() == c.Tags()
    ensures c.Reclaimed().Type() == Counter
  {
  }

  /** An `AtomicLong` as the tracked object: its current value. */
  datatype AtomicLong = AtomicLong(value: int)

  /**
   * The heisen-counter scenario: a counter tracking an `AtomicLong` that was
   * incremented once from 0 reports 1. The counter is built here with `Track`
   * directly; the scenario itself registers it through the registry and looks
   * it up again with `findMeter(Meter.class, "heisen")`, which this lemma does
   * not model.
   */
  lemma HeisenCounterAfterOneIncrement(id: MeterId)
    ensures var n := AtomicLong(0 + 1);
            Track(id, n, (a: AtomicLong) => a.value as real).Measure() == [Measurement(id, 1.0)]
  {
  }
}
