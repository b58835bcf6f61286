/**
 * The in-memory distribution summary: a count and a running total of the
 * recorded amounts, where negative amounts are silently ignored.
 */
module SimpleSummary {
  import opened Meters

  const StatCountTag := Tag("statistic", "count")
  const StatAmountTag := Tag("statistic", "amount")

  /** The recorded amounts the summary takes into account: the non-negative ones, in order. */
  function Accepted(amounts: seq<real>): (r: seq<real>)
    ensures |r| <= |amounts|
    ensures forall i :: 0 <= i < |r| ==> r[i] >= 0.0
    ensures forall x :: x in r ==> x in amounts
  {
    if amounts == [] then []
    else (if amounts[0] >= 0.0 then [amounts[0]] else []) + Accepted(amounts[1..])
  }

  function Sum(xs: seq<real>): real {
    if xs == [] then 0.0 else xs[0] + Sum(xs[1..])
  }

  /** Filtering distributes over concatenation. */
  lemma {:induction false} AcceptedConcat(xs: seq<real>, ys: seq<real>)
    ensures Accepted(xs + ys) == Accepted(xs) + Accepted(ys)
  {
    if xs != [] {
      assert (xs + ys)[1..] == xs[1..] + ys;
      AcceptedConcat(xs[1..], ys);
    } else {
      assert xs + ys == ys;
    }
  }

  /** Recording one more amount appends it to the accepted amounts exactly when it is non-negative. */
  lemma AcceptedAppend(amounts: seq<real>, a: real)
    ensures Accepted(amounts + [a]) == Accepted(amounts) + (if a >= 0.0 then [a] else [])
  {
    AcceptedConcat(amounts, [a]);
    assert Accepted([a]) == (if a >= 0.0 then [a] else []) + Accepted([]);
  }

  lemma {:induction false} SumConcat(xs: seq<real>, ys: seq<real>)
    ensures Sum(xs + ys) == Sum(xs) + Sum(ys)
  {
    if xs != [] {
      assert (xs + ys)[1..] == xs[1..] + ys;
      SumConcat(xs[1..], ys);
    } else {
      assert xs + ys == ys;
    }
  }

  lemma {:induction false} SumNonNegative(xs: seq<real>)
    requires forall i :: 0 <= i < |xs| ==> xs[i] >= 0.0
    ensures Sum(xs) >= 0.0
  {
    if xs != [] {
      SumNonNegative(xs[1..]);
    }
  }

  /** Neither the count nor the total ever decreases, whatever is recorded next. */
  lemma TotalsNeverDecrease(before: seq<real>, later: seq<real>)
    ensures |Accepted(before)| <= |Accepted(before + later)|
    ensures Sum(Accepted(before)) <= Sum(Accepted(before + later))
  {
    AcceptedConcat(before, later);
    SumConcat(Accepted(before), Accepted(later));
    SumNonNegative(Accepted(later));
  }

  /**
   * A distribution summary. `recorded` is every amount ever passed to `Record`;
   * the count and the total are those of its non-negative amounts.
   */
  class SimpleDistributionSummary {
    const id: MeterId
    /** The identity the count is reported under. */
    const countId: MeterId
    /** The identity the total is reported under. */
    const amountId: MeterId
    var count: nat
    var amount: real
    ghost var recorded: seq<real>

    ghost predicate Valid()
      reads this
    {
      count == |Accepted(recorded)| && amount == Sum(Accepted(recorded))
    }

    /** A fresh summary; `typeTag` is the tag naming the meter type `DistributionSummary`. */
    constructor (id: MeterId, typeTag: Tag)
      ensures Valid() && recorded == []
      ensures count == 0 && amount == 0.0
      ensures this.id == id
      ensures countId == id.WithTags([typeTag, StatCountTag])
      ensures amountId == id.WithTags([typeTag, StatAmountTag])
    {
      this.id := id;
      countId := id.WithTags([typeTag, StatCountTag]);
      amountId := id.WithTags([typeTag, StatAmountTag]);
      count := 0;
      amount := 0.0;
      recorded := [];
    }

    /** Records `a`; a negative amount changes nothing. */
    method Record(a: real)
      requires Valid()
      modifies this`count, this`amount, this`recorded
      ensures Valid()
      ensures recorded == old(recorded) + [a]
      ensures a < 0.0 ==> count == old(count) && amount == old(amount)
      ensures a >= 0.0 ==> count == old(count) + 1 && amount == old(amount) + a
    {
      AcceptedAppend(recorded, a);
      SumConcat(Accepted(recorded), if a >= 0.0 then [a] else []);
      if a >= 0.0 {
        count := count + 1;
        amount := amount + a;
      }
      recorded := recorded + [a];
    }

    /** The number of non-negative amounts recorded. */
    function Count(): (n: nat)
      reads this
      requires Valid()
      ensures n == |Accepted(recorded)|
    {
      count
    }

    /** The sum of the non-negative amounts recorded; never negative. */
    function TotalAmount(): (t: real)
      reads this
      requires Valid()
      ensures t == Sum(Accepted(recorded))
      ensures t >= 0.0
    {
      SumNonNegative(Accepted(recorded));
      amount
    }

    /** Two measurements, in this order: the count, then the total. */
    function Measure(): (ms: seq<Measurement>)
      reads this
      requires Valid()
      ensures |ms| == 2
      ensures ms[0].id == countId && ms[0].value == |Accepted(recorded)| as real
      ensures ms[1].id == amountId && ms[1].value == Sum(Accepted(recorded))
    {
      [Measurement(countId, count as real), Measurement(amountId, amount)]
    }
  }
}
