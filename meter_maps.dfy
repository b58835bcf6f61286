/**
 * The meter map both registries keep, from meter identity to meter, and the
 * three ways they write it: get-or-create, unconditional overwrite and clear.
 * Also the lookup both registries use to find a meter by name, tags and
 * class or type.
 */
module MeterMaps {
  import opened Wrappers
  import opened Meters

  type MeterMap = map<MeterId, Meter>

  /** Every meter is stored under its own identity. Both registries keep this. */
  ghost predicate Keyed(m: MeterMap) {
    forall id :: id in m ==> m[id].id == id
  }

  /**
   * Get-or-create on `id`, with a factory that builds a meter of `kind` for it:
   * an existing entry is returned and nothing is written; otherwise exactly one
   * new entry, the built meter, is added.
   */
  function GetOrCreate(m: MeterMap, id: MeterId, kind: Kind): (r: (MeterMap, Meter))
    ensures r.0.Keys == m.Keys + {id}
    ensures forall k :: k in m ==> r.0[k] == m[k]
    ensures id in r.0 && r.1 == r.0[id]
    ensures id !in m ==> r.1 == Meter(id, kind)
  {
    if id in m then (m, m[id]) else (m[id := Meter(id, kind)], Meter(id, kind))
  }

  /**
   * Unconditional registration: the meter is stored under the identity made of
   * its own name and tags, replacing whatever was there; nothing else changes.
   */
  function Put(m: MeterMap, meter: Meter): (r: MeterMap)
    ensures r.Keys == m.Keys + {MeterId(meter.Name(), meter.Tags())}
    ensures r[MeterId(meter.Name(), meter.Tags())] == meter
    ensures forall k :: k in m && k != MeterId(meter.Name(), meter.Tags()) ==> r[k] == m[k]
  {
    m[MeterId(meter.Name(), meter.Tags()) := meter]
  }

  /** Asking twice for the same identity returns the meter created by the first call, and adds nothing. */
  lemma GetOrCreateTwice(m: MeterMap, id: MeterId, first: Kind, second: Kind)
    ensures var (m1, a) := GetOrCreate(m, id, first);
            GetOrCreate(m1, id, second) == (m1, a)
    ensures |GetOrCreate(m, id, first).0| <= |m| + 1
  {
  }

  /** Both writes keep every meter under its own identity. */
  lemma WritesKeepKeyed(m: MeterMap, id: MeterId, kind: Kind, meter: Meter)
    requires Keyed(m)
    ensures Keyed(GetOrCreate(m, id, kind).0)
    ensures Keyed(Put(m, meter))
  {
  }

  /** In a keyed map the meters' own identities are exactly the keys: one meter per identity. */
  lemma KeyedMetersCarryTheirKeys(m: MeterMap)
    requires Keyed(m)
    ensures (set v | v in m.Values :: v.id) == m.Keys
  {
  }

  /** `id` has the requested name and carries every requested tag. */
  predicate Matches(id: MeterId, name: string, wanted: seq<Tag>) {
    id.name == name && ContainsAll(id.tags, wanted)
  }

  /** The last stage of a lookup: by Java class (`findMeter(Class, ...)`) or by meter type. */
  datatype Filter = ByClass(cls: MeterClass) | ByType(t: MeterType)

  predicate Accepts(meter: Meter, filter: Filter) {
    match filter
    case ByClass(cls) => IsInstance(meter, cls)
    case ByType(t) => meter.Type() == t
  }

  /**
   * What a lookup may return. It picks ANY identity whose name and tags match
   * and only then applies the class or type filter, so it returns the picked
   * meter when it passes the filter and nothing otherwise; with no matching
   * identity it returns nothing.
   */
  ghost predicate FindOutcome(m: MeterMap, filter: Filter, name: string, wanted: seq<Tag>, r: Option<Meter>) {
    if exists id :: id in m && Matches(id, name, wanted) then
      exists id :: id in m && Matches(id, name, wanted) &&
        r == (if Accepts(m[id], filter) then Some(m[id]) else None)
    else
      r == None
  }

  /** The lookup: filter the identities by name and tags, pick any, look it up, filter the meter. */
  method FindMeter(m: MeterMap, filter: Filter, name: string, wanted: seq<Tag>) returns (r: Option<Meter>)
    ensures FindOutcome(m, filter, name, wanted, r)
  {
    if exists id :: id in m && Matches(id, name, wanted) {
      var id :| id in m && Matches(id, name, wanted);
      var meter := m[id];
      r := if Accepts(meter, filter) then Some(meter) else None;
    } else {
      r := None;
    }
  }

  /**
   * Whatever a lookup returns is a stored meter with the requested name, every
   * requested tag and the requested class or type.
   */
  lemma FoundMeterMatches(m: MeterMap, filter: Filter, name: string, wanted: seq<Tag>, found: Meter)
    requires Keyed(m)
    requires FindOutcome(m, filter, name, wanted, Some(found))
    ensures found in m.Values
    ensures found.Name() == name && ContainsAll(found.Tags(), wanted)
    ensures Accepts(found, filter)
  {
  }

  /** When some identity matches and every matching meter passes the filter, a lookup finds one. */
  lemma FindSucceedsWhenAllCandidatesPass(m: MeterMap, filter: Filter, name: string, wanted: seq<Tag>, r: Option<Meter>)
    requires exists id :: id in m && Matches(id, name, wanted)
    requires forall id :: id in m && Matches(id, name, wanted) ==> Accepts(m[id], filter)
    requires FindOutcome(m, filter, name, wanted, r)
    ensures r.Some?
  {
  }
}
