/** Motor command snapshots, their freshness, and the logical-to-physical mapping. */
module MotorCommands {
  import opened Counters

  const MOTOR_COUNT: nat := 4
  const STOP_THRESHOLD: real := 0.001

  type Throttles = t: seq<real> | |t| == 4 witness [0.0, 0.0, 0.0, 0.0]

  const ZeroThrottle: Throttles := [0.0, 0.0, 0.0, 0.0]

  datatype Command = Command(throttle: Throttles, timestamp: nat, valid: bool)

  const InvalidCommand: Command := Command(ZeroThrottle, 0, false)

  predicate InRange(throttle: Throttles) {
    0.0 <= throttle[0] <= 1.0 && 0.0 <= throttle[1] <= 1.0 && 0.0 <= throttle[2] <= 1.0 && 0.0 <= throttle[3] <= 1.0
  }

  function Settle(x: real): (r: real) {
    if x <= STOP_THRESHOLD then 0.0 else x
  }

  function SettleAll(t: Throttles): (r: Throttles) {
    [Settle(t[0]), Settle(t[1]), Settle(t[2]), Settle(t[3])]
  }

  /** A command is made only from four throttles in range; near-zero values become exactly zero. */
  function Create(throttle: Throttles, timestamp: nat): (c: Option<Command>) {
    if InRange(throttle) then Some(Command(SettleAll(throttle), timestamp, true)) else None
  }

  method CreateCommand(throttle: Throttles, timestamp: nat) returns (c: Option<Command>)
    ensures c == Create(throttle, timestamp)
  {
    var candidate := new real[MOTOR_COUNT](i => 0.0);
    for index := 0 to MOTOR_COUNT
      invariant forall i | 0 <= i < index :: 0.0 <= throttle[i] <= 1.0 && candidate[i] == Settle(throttle[i])
    {
      if !(0.0 <= throttle[index] <= 1.0) {
        return None;
      }
      candidate[index] := if throttle[index] <= STOP_THRESHOLD then 0.0 else throttle[index];
    }
    assert candidate[..] == SettleAll(throttle);
    return Some(Command(candidate[..], timestamp, true));
  }

  predicate IsFresh(c: Command, now: nat, timeout: nat) {
    c.valid && timeout != 0 && now >= c.timestamp && now - c.timestamp <= timeout
  }

  predicate IsStop(c: Command) {
    c.valid && c.throttle == ZeroThrottle
  }

  type Mapping = m: seq<nat> | |m| == 4 witness [0, 1, 2, 3]

  const IdentityMapping: Mapping := [0, 1, 2, 3]

  predicate IsPermutation(m: Mapping) {
    && m[0] < MOTOR_COUNT && m[1] < MOTOR_COUNT && m[2] < MOTOR_COUNT && m[3] < MOTOR_COUNT
    && m[0] != m[1] && m[0] != m[2] && m[0] != m[3] && m[1] != m[2] && m[1] != m[3] && m[2] != m[3]
  }

  /** One pass with a seen-flag per output accepts exactly the permutations. */
  method AssignmentIsPermutation(m: Mapping) returns (ok: bool)
    ensures ok <==> IsPermutation(m)
  {
    var seen := new bool[MOTOR_COUNT](i => false);
    for logical := 0 to MOTOR_COUNT
      invariant forall i | 0 <= i < logical :: m[i] < MOTOR_COUNT
      invariant forall i, j | 0 <= i < j < logical :: m[i] != m[j]
      invariant forall p | 0 <= p < MOTOR_COUNT :: seen[p] <==> p in m[..logical]
    {
      if m[logical] >= MOTOR_COUNT {
        return false;
      }
      if seen[m[logical]] {
        var i :| 0 <= i < logical && m[..logical][i] == m[logical];
        assert m[i] == m[logical];
        return false;
      }
      seen[m[logical]] := true;
      assert m[..logical + 1] == m[..logical] + [m[logical]];
    }
    return true;
  }

  /** Physical output p receives the value of the logical motor mapped to it. */
  function Scatter<T>(m: Mapping, values: seq<T>): (physical: seq<T>)
    requires IsPermutation(m) && |values| == MOTOR_COUNT
    ensures |physical| == MOTOR_COUNT
    ensures forall i | 0 <= i < MOTOR_COUNT :: physical[m[i]] == values[i]
  {
    PermutationIsOnto(m);
    seq(MOTOR_COUNT, p requires 0 <= p < MOTOR_COUNT =>
      if m[0] == p then values[0] else if m[1] == p then values[1] else if m[2] == p then values[2] else values[3])
  }

  lemma PermutationIsOnto(m: Mapping)
    requires IsPermutation(m)
    ensures forall p | 0 <= p < MOTOR_COUNT :: p in m
  {
    forall p | 0 <= p < MOTOR_COUNT ensures p in m {
      assert m[0] == p || m[1] == p || m[2] == p || m[3] == p;
    }
  }

  /** Every physical output carries the value of exactly one logical motor. */
  lemma ScatterPermutes<T>(m: Mapping, values: seq<T>, p: nat)
    requires IsPermutation(m) && |values| == MOTOR_COUNT && p < MOTOR_COUNT
    ensures exists i :: 0 <= i < MOTOR_COUNT && m[i] == p && Scatter(m, values)[p] == values[i]
    ensures forall i, j | 0 <= i < MOTOR_COUNT && 0 <= j < MOTOR_COUNT && m[i] == p && m[j] == p :: i == j
  {
    PermutationIsOnto(m);
    assert p in m;
    var i :| 0 <= i < MOTOR_COUNT && m[i] == p;
    assert Scatter(m, values)[m[i]] == values[i];
  }

  /** The physical command made from a logical one; None when a throttle is out of range. */
  function MapCommand(m: Mapping, c: Command): (p: Option<Command>)
    requires IsPermutation(m)
  {
    if c.valid then Create(Scatter(m, c.throttle), c.timestamp) else None
  }

  method ApplyMapping(m: Mapping, c: Command) returns (p: Option<Command>)
    requires IsPermutation(m)
    ensures p == MapCommand(m, c)
  {
    if !c.valid {
      return None;
    }
    var physical := new real[MOTOR_COUNT](i => 0.0);
    for logical := 0 to MOTOR_COUNT
      invariant forall i | 0 <= i < logical :: physical[m[i]] == c.throttle[i]
    {
      physical[m[logical]] := c.throttle[logical];
    }
    PermutationIsOnto(m);
    assert physical[..] == Scatter(m, c.throttle);
    p := CreateCommand(physical[..], c.timestamp);
  }

  lemma SettleScatters(m: Mapping, t: Throttles)
    requires IsPermutation(m)
    ensures Scatter(m, SettleAll(t)) == SettleAll(Scatter(m, t))
    ensures InRange(Scatter(m, t)) <==> InRange(t)
  {
    forall p | 0 <= p < MOTOR_COUNT
      ensures Scatter(m, SettleAll(t))[p] == Settle(Scatter(m, t)[p])
      ensures InRange(t) ==> 0.0 <= Scatter(m, t)[p] <= 1.0
    {
      ScatterPermutes(m, t, p);
    }
    forall i | 0 <= i < MOTOR_COUNT && InRange(Scatter(m, t))
      ensures 0.0 <= t[i] <= 1.0
    {
      assert Scatter(m, t)[m[i]] == t[i];
    }
  }

  lemma SettleTwice(t: Throttles)
    ensures SettleAll(SettleAll(t)) == SettleAll(t)
    ensures InRange(t) ==> InRange(SettleAll(t))
  {
    var s := SettleAll(t);
    assert forall i | 0 <= i < MOTOR_COUNT :: s[i] == Settle(t[i]);
    assert forall i | 0 <= i < MOTOR_COUNT :: SettleAll(s)[i] == Settle(s[i]);
  }

  /** Validating twice changes nothing, and mapping commutes with validation. */
  lemma ValidationIsIdempotent(m: Mapping, throttle: Throttles, timestamp: nat)
    requires IsPermutation(m) && InRange(throttle)
    ensures Create(SettleAll(throttle), timestamp) == Create(throttle, timestamp)
    ensures MapCommand(m, Create(throttle, timestamp).value) == Create(Scatter(m, throttle), timestamp)
  {
    SettleTwice(throttle);
    SettleTwice(Scatter(m, throttle));
    SettleScatters(m, throttle);
    SettleScatters(m, SettleAll(throttle));
  }
}
