/** ctrlers/vpower/limiter.go: how much voting power may change within one block. */
module Limiter {
  import opened Base

  datatype PowerOp = AddPower | SubPower

  datatype Verdict = Accepted | Overflow | RateExceeded

  /** The counters of a limiter, as a value. */
  datatype Counters = Counters(last: int, estimated: int, adding: int, subbing: int, allowRate: int)

  function ResetTo(total: int, allowRate: int): Counters {
    Counters(total, total, 0, 0, allowRate)
  }

  /** The old power that would be left and the total that would result. */
  function Remaining(c: Counters, power: int, op: PowerOp): int {
    c.last - c.subbing - (if op.SubPower? then power else 0)
  }

  function NewTotal(c: Counters, power: int, op: PowerOp): int {
    c.estimated + (if op.AddPower? then power else -power)
  }

  /** `checkTotalPower` divides by the new total unless it has already answered "overflow". */
  predicate Divides(c: Counters, power: int, op: PowerOp) {
    (op.SubPower? && c.last - c.subbing <= power) || NewTotal(c, power, op) != 0
  }

  /** The percentage of old power in the new total: an int64 product, cut down to int32. */
  function RemainRate(remain: int, total: int): int
    requires total != 0
  {
    Wrap32(GoDiv(Wrap64(remain * 100), total))
  }

  function Check(c: Counters, power: int, op: PowerOp): Verdict
    requires Divides(c, power, op)
  {
    if op.SubPower? && c.last - c.subbing <= power then Overflow
    else if 100 - RemainRate(Remaining(c, power, op), NewTotal(c, power, op)) > c.allowRate then RateExceeded
    else Accepted
  }

  /** The counters after the request has been answered. */
  function Apply(c: Counters, power: int, op: PowerOp): Counters
    requires Divides(c, power, op)
  {
    if !Check(c, power, op).Accepted? then c
    else if op.AddPower? then c.(estimated := c.estimated + power, adding := c.adding + power)
    else c.(estimated := c.estimated - power, subbing := c.subbing + power)
  }

  /** What every sequence of requests since the last reset keeps. */
  ghost predicate Bounded(c: Counters) {
    && c.estimated == c.last + c.adding - c.subbing
    && 0 <= c.last && 0 <= c.adding && 0 <= c.subbing && 100 * c.last < TWO63
    && (c.subbing == 0 || c.subbing < c.last)
  }

  /** The power added since the last reset is within `allowRate` percent of the total. */
  predicate WithinRate(c: Counters) { 100 * c.adding <= c.allowRate * c.estimated }

  datatype Request = Request(power: int, op: PowerOp)

  /** Requests carry the power of a staking amount, or of a chunk that slashing may have emptied. */
  predicate Sensible(r: Request) {
    r.power > 0 || (r.power == 0 && r.op.SubPower?)
  }

  lemma QuotientAtLeast(n: int, d: int, q: int)
    requires n >= 0 && d > 0
    ensures n / d >= q <==> n >= q * d
  {
    var k := n / d;
    assert n == k * d + n % d;
    if k >= q {
      assert k * d >= q * d by { MulMonotone(q, k, d); }
    } else {
      assert (k + 1) * d <= q * d by { MulMonotone(k + 1, q, d); }
      assert (k + 1) * d == k * d + d;
    }
  }

  /** As long as a hundred times the old power fits int64, the percentage is right. */
  lemma RemainRateExact(remain: int, total: int)
    requires 0 <= remain <= total && 0 < total && 100 * remain < TWO63
    ensures RemainRate(remain, total) == remain * 100 / total
  {
    QuotientAtLeast(remain * 100, total, 101);
    QuotientAtLeast(remain * 100, total, 0);
    assert 101 * total > remain * 100;
  }

  lemma MulMonotone(a: int, b: int, d: int)
    requires a <= b && d > 0
    ensures a * d <= b * d
  {
    assert (b - a) * d >= 0;
    assert (b - a) * d == b * d - a * d;
  }

  /** The division is never by zero, and a request is accepted exactly when some old power stays
      and the freshly added power is within `allowRate` percent of the resulting total. */
  lemma AcceptedIffWithinRate(c: Counters, r: Request)
    requires Bounded(c) && Sensible(r)
    ensures Divides(c, r.power, r.op)
    ensures var added := c.adding + (if r.op.AddPower? then r.power else 0);
            Check(c, r.power, r.op).Accepted? <==>
              && (r.op.SubPower? ==> r.power < c.last - c.subbing)
              && 100 * added <= c.allowRate * NewTotal(c, r.power, r.op)
  {
    var total := NewTotal(c, r.power, r.op);
    var left := Remaining(c, r.power, r.op);
    if r.op.AddPower? || r.power < c.last - c.subbing {
      assert total > 0 && total >= left >= 0;
      RemainRateExact(left, total);
      QuotientAtLeast(left * 100, total, 100 - c.allowRate);
      assert (100 - c.allowRate) * total == 100 * total - c.allowRate * total;
    }
  }

  lemma ServeOne(c: Counters, r: Request)
    requires Bounded(c) && Sensible(r)
    ensures Divides(c, r.power, r.op) && Bounded(Apply(c, r.power, r.op))
    ensures WithinRate(c) ==> WithinRate(Apply(c, r.power, r.op))
  {
    AcceptedIffWithinRate(c, r);
    hide Check;
    if r.op.SubPower? && Check(c, r.power, r.op).Accepted? {
      assert c.allowRate * (c.estimated - r.power) == c.allowRate * NewTotal(c, r.power, r.op);
    }
  }

  function Serve(c: Counters, rs: seq<Request>): Counters
    requires forall r <- rs :: Sensible(r)
    requires Bounded(c)
    decreases |rs|
  {
    if rs == [] then c
    else
      AcceptedIffWithinRate(c, rs[0]);
      Serve(Apply(c, rs[0].power, rs[0].op), rs[1..])
  }

  /** After any sequence of accepted and rejected requests the bounds still hold, and the baseline
      and the rate are those of the reset. */
  lemma {:induction false} EveryRunIsBounded(c: Counters, rs: seq<Request>)
    requires forall r <- rs :: Sensible(r)
    requires Bounded(c)
    ensures Bounded(Serve(c, rs)) && (WithinRate(c) ==> WithinRate(Serve(c, rs)))
    ensures Serve(c, rs).last == c.last && Serve(c, rs).allowRate == c.allowRate
    ensures c.last > 0 ==> Serve(c, rs).last - Serve(c, rs).subbing > 0
    decreases |rs|
  {
    if rs != [] {
      ServeOne(c, rs[0]);
      EveryRunIsBounded(Apply(c, rs[0].power, rs[0].op), rs[1..]);
    }
  }

  class VPowerLimiter {
    var lastTotalPower: int
    var estimatedTotalPower: int
    var addingPower: int
    var subingPower: int
    var allowRate: int

    function View(): (c: Counters)
      reads this
    {
      Counters(lastTotalPower, estimatedTotalPower, addingPower, subingPower, allowRate)
    }

    constructor ()
      ensures View() == ResetTo(0, 0)
    {
      lastTotalPower, estimatedTotalPower, addingPower, subingPower, allowRate := 0, 0, 0, 0, 0;
    }

    method Reset(total: int, rate: int)
      modifies this
      ensures View() == ResetTo(total, rate)
      ensures 0 <= total && 100 * total < TWO63 && rate >= 0 ==> Bounded(View()) && WithinRate(View())
    {
      lastTotalPower, estimatedTotalPower := total, total;
      addingPower, subingPower := 0, 0;
      allowRate := rate;
    }

    method CheckLimit(power: int, op: PowerOp) returns (verdict: Verdict)
      requires Bounded(View()) && Sensible(Request(power, op))
      modifies this
      ensures Divides(old(View()), power, op) && verdict == Check(old(View()), power, op)
      ensures View() == Apply(old(View()), power, op)
      ensures Bounded(View()) && (WithinRate(old(View())) ==> WithinRate(View()))
      ensures !verdict.Accepted? ==> View() == old(View())
    {
      ServeOne(View(), Request(power, op));
      verdict := CheckTotalPower(power, op);
      if !verdict.Accepted? { return; }
      if op.AddPower? {
        estimatedTotalPower := estimatedTotalPower + power;
        addingPower := addingPower + power;
      } else {
        estimatedTotalPower := estimatedTotalPower - power;
        subingPower := subingPower + power;
      }
    }

    method CheckTotalPower(diff: int, op: PowerOp) returns (verdict: Verdict)
      requires Divides(View(), diff, op)
      ensures verdict == Check(View(), diff, op)
    {
      var remainTotal, newTotal := lastTotalPower - subingPower, estimatedTotalPower;
      if op.SubPower? && remainTotal <= diff {
        return Overflow;
      }
      if op.AddPower? {
        newTotal := newTotal + diff;
      } else {
        remainTotal, newTotal := remainTotal - diff, newTotal - diff;
      }
      var remainRate := RemainRate(remainTotal, newTotal);
      if 100 - remainRate > allowRate {
        return RateExceeded;
      }
      return Accepted;
    }
  }
}
