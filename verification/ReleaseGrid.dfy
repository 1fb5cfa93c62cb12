/** Moving a release time past now, along a fixed grid. */
module ReleaseGrid {
  import opened Counters

  /** The first point of the grid next, next + interval, ... that lies after now. */
  function FirstAfter(next: nat, now: nat, interval: nat): (t: nat)
    requires interval > 0 && next <= now
    ensures now < t <= now + interval
  {
    QuotientBounds(now - next, interval);
    next + ((now - next) / interval + 1) * interval
  }

  lemma QuotientBounds(elapsed: nat, interval: nat)
    requires interval > 0
    ensures elapsed < (elapsed / interval + 1) * interval <= elapsed + interval
    ensures elapsed / interval <= elapsed
  {
    var q := elapsed / interval;
    assert elapsed == q * interval + elapsed % interval;
    assert (q + 1) * interval == q * interval + interval;
    assert q * interval == q + q * (interval - 1);
    assert 0 <= q * (interval - 1) by {
      Nonnegative(q, interval - 1);
    }
  }

  lemma Nonnegative(a: nat, b: nat)
    ensures 0 <= a * b
  {
  }

  lemma ProductOrder(a: nat, b: nat, c: nat)
    requires a <= b
    ensures a * c <= b * c
  {
    assert b * c == a * c + (b - a) * c;
    Nonnegative(b - a, c);
  }

  /** The grid point is unique: on the grid, after now, and no more than one interval after it. */
  lemma FirstAfterIsUnique(next: nat, now: nat, interval: nat, k: nat)
    requires interval > 0 && next <= now
    requires now < next + k * interval <= now + interval
    ensures next + k * interval == FirstAfter(next, now, interval)
  {
    var q := (now - next) / interval + 1;
    QuotientBounds(now - next, interval);
    assert (q - 1) * interval == q * interval - interval && (q + 1) * interval == q * interval + interval;
    if k < q {
      ProductOrder(k, q - 1, interval);
    } else if q < k {
      ProductOrder(q + 1, k, interval);
    }
  }

  function Saturated(t: nat): (r: uint64) {
    if t > UINT64_MAX then UINT64_MAX else t
  }

  /** The division form: how many grid points have passed, and where the next one lies. */
  function PeriodsDue(next: uint64, now: uint64, interval: nat, force: bool): (r: (nat, uint64))
    requires interval > 0
    ensures 0 <= r.0 <= UINT64_MAX + 1
  {
    if force then (1, Saturated(now + interval))
    else if next == UINT64_MAX || now < next then (0, next)
    else
      QuotientBounds(now - next, interval);
      var periods := (now - next) / interval + 1;
      if periods > (UINT64_MAX - next) / interval then (periods, UINT64_MAX)
      else
        ProductFits(UINT64_MAX - next, periods, interval);
        (periods, next + periods * interval)
  }

  lemma ProductFits(limit: nat, periods: nat, interval: nat)
    requires interval > 0
    ensures periods <= limit / interval <==> periods * interval <= limit
  {
    QuotientBounds(limit, interval);
    if periods <= limit / interval {
      ProductOrder(periods, limit / interval, interval);
      assert limit == limit / interval * interval + limit % interval;
    } else {
      ProductOrder(limit / interval + 1, periods, interval);
    }
  }

  /** Unless the end of time was already reached, the division form lands on the first grid point after now. */
  lemma DivisionFormIsFirst(next: uint64, now: uint64, interval: nat)
    requires interval > 0 && next <= now && next != UINT64_MAX
    ensures PeriodsDue(next, now, interval, false) ==
            ((now - next) / interval + 1, Saturated(FirstAfter(next, now, interval)))
  {
    ProductFits(UINT64_MAX - next, (now - next) / interval + 1, interval);
  }

  /** The stepping form: add the interval until now is passed, stopping at the end of time. */
  method StepPast(start: uint64, now: uint64, interval: nat) returns (due: bool, next: uint64)
    ensures due <==> interval != 0 && start <= now
    ensures !due ==> next == start
    ensures due ==> next == Saturated(FirstAfter(start, now, interval))
  {
    next := start;
    if interval == 0 || now < next {
      return false, next;
    }
    ghost var k := 0;
    while true
      invariant next == start + k * interval && next <= now
      decreases now - next
    {
      var remaining := UINT64_MAX - next;
      assert (k + 1) * interval == k * interval + interval;
      if now < next + interval {
        FirstAfterIsUnique(start, now, interval, k + 1);
      }
      if remaining < interval {
        next := UINT64_MAX;
        break;
      }
      next := next + interval;
      k := k + 1;
      if next > now {
        break;
      }
    }
    return true, next;
  }

  /** The two forms agree whenever the end of time has not been reached before. */
  lemma FormsAgree(next: uint64, now: uint64, interval: nat)
    requires interval > 0 && next <= now
    ensures PeriodsDue(next, now, interval, false).1 == Saturated(FirstAfter(next, now, interval))
    ensures PeriodsDue(next, now, interval, false).0 > 0 <==> next != UINT64_MAX
  {
    if next != UINT64_MAX {
      DivisionFormIsFirst(next, now, interval);
    }
  }
}
