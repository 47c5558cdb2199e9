/**
 * The ball estimator of the viewer: a buffer of the six newest ball samples, the reference
 * samples picked from it after each update, and the estimates of velocity, position, final
 * position and arrival time derived from them under exponential rolling friction.
 */
module BallEstimation {
  import opened Wrappers
  import opened Vectors
  import opened Elementaries

  // ---------------------------------------------------------------------------------------
  // Numbers
  // ---------------------------------------------------------------------------------------

  /** The friction exponent `k` of the ball: velocity decays as `exp(k * t)`. */
  const BallExpK: real := -1.05719

  /** The sign of a quotient of a positive numerator. */
  lemma QuotientSign(a: real, b: real)
    requires a > 0.0 && b != 0.0
    ensures b > 0.0 ==> a / b > 0.0
    ensures b < 0.0 ==> a / b < 0.0
  {
    assert a / b * b == a;
  }

  /** A float result: a finite value, or one of the IEEE non-finite values. */
  datatype Extended = Finite(value: real) | PlusInfinity | MinusInfinity | NotANumber

  /** What `estimatedTime` answers for a distance the ball cannot roll. */
  const NeverArrives: real := 100000.0

  // ---------------------------------------------------------------------------------------
  // Closed forms
  // ---------------------------------------------------------------------------------------

  /**
   * `-k / (exp(-k * dt) - 1)`: the ratio between the ball's velocity at the newer sample and
   * its average velocity over the `dt` seconds since the older one.
   */
  function Gain(e: Elementary, dt: real): (g: real)
    requires Sound(e) && dt != 0.0
    ensures dt > 0.0 ==> g > 0.0
    ensures dt < 0.0 ==> g < 0.0
  {
    var grown := e.exp(-BallExpK * dt);
    assert dt > 0.0 ==> grown > 1.0;
    assert dt < 0.0 ==> grown < 1.0;
    QuotientSign(-BallExpK, grown - 1.0);
    -BallExpK / (grown - 1.0)
  }

  /**
   * The velocity `relTime` seconds after the newer sample `p`, from the older sample `q`
   * taken `dt` seconds before it: the displacement over `dt`, scaled by `factorVel` (which
   * is `Gain * dt`), flattened to the ground, decayed by `exp(k * relTime)`.
   */
  function Velocity(e: Elementary, p: Vec3, q: Vec3, dt: real, relTime: real): Vec3
    requires Sound(e) && dt != 0.0
  {
    var factorVel := Gain(e, dt) * dt;
    var current := p.Minus(q).Over(dt).Times(factorVel).WithZ(0.0);
    current.Times(e.exp(BallExpK * relTime))
  }

  /**
   * The velocity at the newer sample is the ground displacement scaled by `Gain`, which is
   * positive when the older sample really is older: the estimate points from the older
   * sample to the newer one.
   */
  lemma VelocityAlongDisplacement(e: Elementary, p: Vec3, q: Vec3, dt: real)
    requires Sound(e) && dt != 0.0
    ensures Velocity(e, p, q, dt, 0.0) ==
      Vec3((p.x - q.x) * Gain(e, dt), (p.y - q.y) * Gain(e, dt), 0.0)
  {
    var g := Gain(e, dt);
    assert (p.x - q.x) / dt * (g * dt) == (p.x - q.x) * g;
    assert (p.y - q.y) / dt * (g * dt) == (p.y - q.y) * g;
  }

  /** The velocity `relTime` seconds on is the one at the sample, decayed by `exp(k * relTime)`. */
  lemma VelocityLater(e: Elementary, p: Vec3, q: Vec3, dt: real, relTime: real)
    requires Sound(e) && dt != 0.0
    ensures Velocity(e, p, q, dt, relTime) == Velocity(e, p, q, dt, 0.0).Times(e.exp(BallExpK * relTime))
  {
    assert e.exp(BallExpK * 0.0) == 1.0;
  }

  /** Later velocities are the one at the sample, decayed: the ground speed only shrinks. */
  lemma VelocityDecays(e: Elementary, p: Vec3, q: Vec3, dt: real, relTime: real)
    requires Sound(e) && dt != 0.0 && relTime > 0.0
    ensures var v0 := Velocity(e, p, q, dt, 0.0);
            var v := Velocity(e, p, q, dt, relTime);
            v == v0.Times(e.exp(BallExpK * relTime)) &&
            v.z == 0.0 &&
            v.LengthSquared() == e.exp(BallExpK * relTime) * e.exp(BallExpK * relTime) * v0.LengthSquared() &&
            v.LengthSquared() <= v0.LengthSquared()
  {
    var f := e.exp(BallExpK * relTime);
    assert 0.0 < f < 1.0;
    ScaledLength(Velocity(e, p, q, dt, 0.0), f);
  }

  /** A square is never negative. */
  lemma SquareSign(x: real)
    ensures x * x >= 0.0
  {
    if x < 0.0 {
      assert x * x == (-x) * (-x);
    }
  }

  /** A squared length is never negative. */
  lemma LengthSquaredSign(v: Vec3)
    ensures v.LengthSquared() >= 0.0
  {
    SquareSign(v.x);
    SquareSign(v.y);
    SquareSign(v.z);
  }

  /** Scaling by a factor in (0, 1) scales the squared length by its square: it never grows. */
  lemma ScaledLength(v: Vec3, f: real)
    requires 0.0 < f < 1.0
    ensures v.Times(f).LengthSquared() == f * f * v.LengthSquared()
    ensures v.Times(f).LengthSquared() <= v.LengthSquared()
  {
    LengthSquaredSign(v);
    SquareSign(f);
    assert f * f < 1.0 by {
      assert f * f < f;
    }
    assert v.Times(f).LengthSquared() == f * f * v.LengthSquared();
    ScaleDown(f * f, v.LengthSquared());
  }

  lemma ScaleDown(g: real, l: real)
    requires 0.0 <= g <= 1.0 && l >= 0.0
    ensures g * l <= l
  {
    assert (1.0 - g) * l >= 0.0;
  }

  /**
   * The position `relTime` seconds after the reference `refPos` of a ball rolling with
   * velocity `v` at the reference: `refPos + v / k * exp(k * relTime) - v / k`, at the
   * reference's height.
   */
  function Position(e: Elementary, refPos: Vec3, v: Vec3, relTime: real): Vec3
  {
    refPos.Plus(v.Over(BallExpK).Times(e.exp(BallExpK * relTime))).Minus(v.Over(BallExpK)).WithZ(refPos.z)
  }

  /** Where the ball comes to rest: `refPos - v / k`, at the reference's height. */
  function FinalPosition(from: Vec3, v: Vec3, height: real): Vec3
  {
    from.Minus(v.Over(BallExpK)).WithZ(height)
  }

  /** At the reference time the estimated position is the reference itself. */
  lemma PositionAtReference(e: Elementary, refPos: Vec3, v: Vec3)
    requires Sound(e)
    ensures Position(e, refPos, v, 0.0) == refPos
  {
  }

  /** A ball at rest is estimated where it is, at any time. */
  lemma PositionAtRest(e: Elementary, refPos: Vec3, relTime: real)
    ensures Position(e, refPos, Zero, relTime) == refPos
  {
    assert Zero.Over(BallExpK) == Zero;
  }

  /** A ball at rest stays where it is. */
  lemma FinalPositionAtRest(from: Vec3, height: real)
    ensures FinalPosition(from, Zero, height) == from.WithZ(height)
  {
    assert Zero.Over(BallExpK) == Zero;
  }

  /**
   * The way still to go from the position at `relTime` to the resting point is the
   * velocity at `relTime` over `-k`: the position estimate integrates the velocity estimate.
   */
  lemma RemainingRoll(e: Elementary, refPos: Vec3, v: Vec3, relTime: real)
    requires v.z == 0.0
    ensures FinalPosition(refPos, v, refPos.z).Minus(Position(e, refPos, v, relTime))
         == v.Times(e.exp(BallExpK * relTime)).Over(-BallExpK)
  {
    var f := e.exp(BallExpK * relTime);
    assert refPos.x - v.x / BallExpK - (refPos.x + v.x / BallExpK * f - v.x / BallExpK) == v.x * f / -BallExpK;
    assert refPos.y - v.y / BallExpK - (refPos.y + v.y / BallExpK * f - v.y / BallExpK) == v.y * f / -BallExpK;
  }

  /**
   * The position estimate integrates the velocity estimate: at any time, the way still to go
   * to the resting point is the velocity then over `-k`.
   */
  lemma PositionFollowsVelocity(e: Elementary, p: Vec3, q: Vec3, dt: real, relTime: real)
    requires Sound(e) && dt != 0.0
    ensures var v := Velocity(e, p, q, dt, 0.0);
      FinalPosition(p, v, p.z).Minus(Position(e, p, v, relTime)) == Velocity(e, p, q, dt, relTime).Over(-BallExpK)
  {
    RemainingRoll(e, p, Velocity(e, p, q, dt, 0.0), relTime);
    VelocityLater(e, p, q, dt, relTime);
  }

  /** The distance a ball leaving at `speed` has rolled after `t` seconds. */
  function Rolled(e: Elementary, speed: real, t: real): real
  {
    speed / -BallExpK * (1.0 - e.exp(BallExpK * t))
  }

  /**
   * `estimatedTime`: the time the ball needs to roll `d`, `log(d / (speed / k) + 1) / k`.
   * Where the logarithm's argument is negative the distance is out of reach and the answer
   * is `NeverArrives`; the float division by a zero speed and the logarithm of zero give
   * their IEEE results.
   */
  function TimeToRoll(e: Elementary, speed: real, d: real): Extended
    requires speed >= 0.0
  {
    if speed == 0.0 then
      // d / -0.0 is -inf, +inf or NaN; then -inf + 1 < 0, log(+inf) / k = -inf, NaN stays NaN.
      if d > 0.0 then Finite(NeverArrives)
      else if d < 0.0 then MinusInfinity
      else NotANumber
    else
      var aux := d / (speed / BallExpK) + 1.0;
      if aux < 0.0 then Finite(NeverArrives)
      else if aux == 0.0 then PlusInfinity
      else Finite(e.log(aux) / BallExpK)
  }

  /** The ground speed of `v`: its length. */
  function Speed(e: Elementary, v: Vec3): (s: real)
    requires Sound(e)
    ensures s >= 0.0 && s * s == v.LengthSquared()
    ensures v == Zero ==> s == 0.0
  {
    LengthSquaredSign(v);
    e.sqrt(v.LengthSquared())
  }

  /** How far a ball leaving at `speed` rolls before it comes to rest. */
  function Reach(speed: real): real
  {
    speed / -BallExpK
  }

  /** For a moving ball the logarithm's argument in `TimeToRoll` is `1 - d / Reach(speed)`. */
  lemma RollArgument(speed: real, d: real)
    requires speed > 0.0
    ensures Reach(speed) > 0.0
    ensures d / (speed / BallExpK) + 1.0 == 1.0 - d / Reach(speed)
  {
    var reach := Reach(speed);
    assert speed / BallExpK == -reach;
    assert d / -reach == -(d / reach);
  }

  /**
   * A distance short of the resting point is reached at the time `TimeToRoll` answers: the
   * ball has rolled exactly `d` by then.
   */
  lemma TimeToRollRoundTrip(e: Elementary, speed: real, d: real)
    requires Sound(e) && speed > 0.0 && 0.0 <= d < Reach(speed)
    ensures TimeToRoll(e, speed, d).Finite?
    ensures Rolled(e, speed, TimeToRoll(e, speed, d).value) == d
  {
    var reach := Reach(speed);
    RollArgument(speed, d);
    var aux := 1.0 - d / reach;
    assert d / reach < 1.0 by {
      var q := d / reach;
      assert q * reach == d;
      assert (q - 1.0) * reach == d - reach;
    }
    var t := e.log(aux) / BallExpK;
    assert BallExpK * t == e.log(aux);
    assert e.exp(BallExpK * t) == aux;
    assert Rolled(e, speed, t) == reach * (d / reach);
  }

  /** `TimeToRollRoundTrip` for any speed, as an implication. */
  lemma TimeToRollReaches(e: Elementary, speed: real, d: real)
    requires Sound(e)
    ensures speed > 0.0 && 0.0 <= d < Reach(speed) ==>
      TimeToRoll(e, speed, d).Finite? && Rolled(e, speed, TimeToRoll(e, speed, d).value) == d
  {
    if speed > 0.0 && 0.0 <= d < Reach(speed) {
      TimeToRollRoundTrip(e, speed, d);
    }
  }

  /** A distance beyond the resting point is never reached; the resting point itself takes forever. */
  lemma TimeToRollOutOfReach(e: Elementary, speed: real, d: real)
    requires speed > 0.0
    ensures d > Reach(speed) ==> TimeToRoll(e, speed, d) == Finite(NeverArrives)
    ensures d == Reach(speed) ==> TimeToRoll(e, speed, d) == PlusInfinity
    ensures TimeToRoll(e, speed, d).Finite? && TimeToRoll(e, speed, d).value != NeverArrives ==>
      d < Reach(speed)
  {
    var reach := Reach(speed);
    RollArgument(speed, d);
    assert d / reach * reach == d;
    if d > reach {
      assert d / reach > 1.0;
    } else if d < reach {
      assert d / reach < 1.0;
    }
  }

  // ---------------------------------------------------------------------------------------
  // The sample buffer
  // ---------------------------------------------------------------------------------------

  /** How many samples the buffer keeps. */
  const MaxSamples: nat := 6

  /** The period of the vision cycles the references are measured in. */
  const VisionCycle: real := 0.06

  /**
   * Bound on the parser's minimum distance to the ball, which is a SQUARED distance: below
   * it (an agent within about 0.55, the square root of 0.3) the away reference moves.
   */
  const AwayDistance: real := 0.3

  /** `addFirst` after dropping the oldest sample of a full buffer. */
  function Push<T>(q: seq<T>, x: T): (r: seq<T>)
    ensures 1 <= |r| <= |q| + 1 && (|q| <= MaxSamples ==> |r| <= MaxSamples)
    ensures r[0] == x
  {
    [x] + (if |q| == MaxSamples then q[..MaxSamples - 1] else q)
  }

  /** The buffer after a push is the newest `MaxSamples` of the new sample followed by the old ones. */
  lemma PushKeepsNewest<T>(q: seq<T>, x: T)
    requires |q| <= MaxSamples
    ensures Push(q, x) == ([x] + q)[..if |q| < MaxSamples then |q| + 1 else MaxSamples]
  {
    if |q| == MaxSamples {
      assert ([x] + q)[..MaxSamples] == [x] + q[..MaxSamples - 1];
    } else {
      assert ([x] + q)[..|q| + 1] == [x] + q;
    }
  }

  /**
   * The first index from `i` on whose sample is more than `gap` seconds older than `now`,
   * or 0 when there is none.
   */
  function FirstOlderFrom(ts: seq<real>, now: real, gap: real, i: nat): (r: nat)
    requires 1 <= i
    decreases |ts| - i
    ensures r != 0 ==> i <= r < |ts| && now - ts[r] > gap &&
                       forall j :: i <= j < r ==> now - ts[j] <= gap
    ensures r == 0 <==> forall j :: i <= j < |ts| ==> now - ts[j] <= gap
  {
    if i >= |ts| then 0
    else if now - ts[i] > gap then i
    else FirstOlderFrom(ts, now, gap, i + 1)
  }

  /** The first sample after the newest that is more than `gap` older than `now`, or 0. */
  function FirstOlder(ts: seq<real>, now: real, gap: real): nat
  {
    FirstOlderFrom(ts, now, gap, 1)
  }

  /**
   * A longer gap finds its reference no earlier in the buffer: whenever the longer gap finds
   * one, the shorter gap finds one too, at the same index or a newer one.
   */
  lemma FirstOlderMonotone(ts: seq<real>, now: real, shorter: real, longer: real)
    requires shorter <= longer
    ensures FirstOlder(ts, now, longer) != 0 ==>
      FirstOlder(ts, now, shorter) != 0 && FirstOlder(ts, now, shorter) <= FirstOlder(ts, now, longer)
  {
    var l := FirstOlder(ts, now, longer);
    if l != 0 {
      assert now - ts[l] > shorter;
      var s := FirstOlder(ts, now, shorter);
      assert s != 0;
    }
  }

  /** A reference: its index in the buffer (0 when there is none), its position and its time. */
  datatype Ref = Ref(ind: nat, pos: Option<Vec3>, time: real)

  /**
   * The reference for `gap` after an update: the first buffered sample more than `gap` older
   * than `now`, or, when there is none, the previous reference `prev` with its index reset
   * to 0 (its sample and time are kept).
   */
  function Choose(q: seq<Vec3>, ts: seq<real>, now: real, gap: real, prev: Ref): (r: Ref)
    requires |q| == |ts|
    ensures r.ind == FirstOlder(ts, now, gap)
    ensures r.ind != 0 ==> r.ind < |q| && r.pos == Some(q[r.ind]) && r.time == ts[r.ind] && now - r.time > gap
    ensures r.ind == 0 ==> r.pos == prev.pos && r.time == prev.time
  {
    var i := FirstOlder(ts, now, gap);
    if i == 0 then Ref(0, prev.pos, prev.time) else Ref(i, Some(q[i]), ts[i])
  }

  /**
   * A scan for the reference for `gap` has looked at the samples before index `i`: when
   * `found`, it holds its final answer; otherwise it still holds `prev` with index 0, and
   * the answer lies at `i` or later.
   */
  ghost predicate Scanning(q: seq<Vec3>, ts: seq<real>, now: real, gap: real, i: nat,
                           found: bool, r: Ref, prev: Ref)
  {
    1 <= i <= |q| == |ts| &&
    (found ==> 1 <= r.ind < i && r == Choose(q, ts, now, gap, prev)) &&
    (!found ==> r == Ref(0, prev.pos, prev.time) && FirstOlder(ts, now, gap) == FirstOlderFrom(ts, now, gap, i))
  }

  /** Before the scan nothing is found. */
  lemma ScanStart(q: seq<Vec3>, ts: seq<real>, now: real, gap: real, prev: Ref)
    requires 1 <= |q| == |ts|
    ensures Scanning(q, ts, now, gap, 1, false, Ref(0, prev.pos, prev.time), prev)
  {
  }

  /** Looking at sample `i` keeps the scan's invariant: it is taken if nothing was found yet and it is old enough. */
  lemma ScanStep(q: seq<Vec3>, ts: seq<real>, now: real, gap: real, i: nat, found: bool, r: Ref, prev: Ref)
    requires Scanning(q, ts, now, gap, i, found, r, prev) && i < |q|
    ensures var take := !found && now - ts[i] > gap;
      Scanning(q, ts, now, gap, i + 1, found || take, if take then Ref(i, Some(q[i]), ts[i]) else r, prev)
  {
  }

  /** After the last sample the scan holds the chosen reference. */
  lemma ScanEnd(q: seq<Vec3>, ts: seq<real>, now: real, gap: real, found: bool, r: Ref, prev: Ref)
    requires Scanning(q, ts, now, gap, |q|, found, r, prev)
    ensures r == Choose(q, ts, now, gap, prev)
  {
  }

  /** A reference in use (index not 0) is a buffered sample more than `gap` older than `now`. */
  ghost predicate Referenced(q: seq<Vec3>, ts: seq<real>, now: real, gap: real, r: Ref)
  {
    r.ind != 0 ==> r.ind < |q| && r.ind < |ts| && r.pos == Some(q[r.ind]) && r.time == ts[r.ind] && now - r.time > gap
  }

  /** The three references, three, four and five vision cycles back. */
  datatype Reference = Three | Four | Five

  /** How much older than the newest sample a reference must be: half a cycle short of its count. */
  function Gap(r: Reference): (g: real)
    ensures g > 0.0
  {
    match r
    case Three => VisionCycle * 2.5
    case Four => VisionCycle * 3.5
    case Five => VisionCycle * 4.5
  }

  // ---------------------------------------------------------------------------------------
  // The estimator
  // ---------------------------------------------------------------------------------------

  /** The estimator's fields, as one value. */
  datatype State = State(posQueue: seq<Vec3>, timeQueue: seq<real>, refPos: Option<Vec3>, refTime: real,
                         indRefTime: nat, ref3: Ref, ref4: Ref, ref5: Ref,
                         refPosAway: Option<Vec3>, refTimeAway: real)

  /**
   * What holds between updates: the two queues run in step and hold at most `MaxSamples`
   * samples; `refPos` and `refTime` are the newest sample once there is one; each reference
   * in use is a buffered sample old enough for it; and an away time is only ever set
   * together with its position.
   */
  ghost predicate Consistent(s: State)
  {
    |s.posQueue| == |s.timeQueue| <= MaxSamples &&
    (s.refPos.Some? <==> |s.posQueue| != 0) &&
    (|s.posQueue| != 0 ==> s.refPos == Some(s.posQueue[0]) && s.refTime == s.timeQueue[0]) &&
    s.indRefTime == 0 &&
    Referenced(s.posQueue, s.timeQueue, s.refTime, Gap(Three), s.ref3) &&
    Referenced(s.posQueue, s.timeQueue, s.refTime, Gap(Four), s.ref4) &&
    Referenced(s.posQueue, s.timeQueue, s.refTime, Gap(Five), s.ref5) &&
    (s.refTimeAway != 0.0 ==> s.refPosAway.Some? && s.refPos.Some?)
  }

  /**
   * The state after `update` with the ball at `ball` at `time`: the sample is pushed into
   * both queues and becomes the newest reference, each of the three references is chosen
   * afresh, and the away reference moves to the ball when the squared distance of the
   * closest agent is below `AwayDistance` (an agent within about 0.55 of the ball).
   */
  function Updated(s: State, ball: Vec3, time: real, minimumDistanceToBall: real): State
    requires |s.posQueue| == |s.timeQueue|
  {
    var q := Push(s.posQueue, ball);
    var ts := Push(s.timeQueue, time);
    var near := minimumDistanceToBall < AwayDistance;
    State(q, ts, Some(ball), time, 0,
          Choose(q, ts, time, Gap(Three), s.ref3),
          Choose(q, ts, time, Gap(Four), s.ref4),
          Choose(q, ts, time, Gap(Five), s.ref5),
          if near then Some(ball) else s.refPosAway,
          if near then time else s.refTimeAway)
  }

  /** An update keeps the estimator consistent. */
  lemma UpdatedConsistent(s: State, ball: Vec3, time: real, minimumDistanceToBall: real)
    requires Consistent(s)
    ensures Consistent(Updated(s, ball, time, minimumDistanceToBall))
  {
  }

  /**
   * What an update does to the buffer and the away reference: the buffer becomes the newest
   * `MaxSamples` of the new sample followed by the old ones, every reference index lies in
   * the buffer, and the away reference moves to the new sample when the squared distance of
   * the closest agent is below `AwayDistance` (an agent within about 0.55 of the ball) and
   * stays exactly as it was otherwise.
   */
  lemma UpdatedBuffers(s: State, ball: Vec3, time: real, minimumDistanceToBall: real)
    requires Consistent(s)
    ensures var r := Updated(s, ball, time, minimumDistanceToBall);
      var n := if |s.posQueue| < MaxSamples then |s.posQueue| + 1 else MaxSamples;
      r.posQueue == ([ball] + s.posQueue)[..n] && r.timeQueue == ([time] + s.timeQueue)[..n] &&
      r.ref3.ind < n && r.ref4.ind < n && r.ref5.ind < n &&
      (minimumDistanceToBall < AwayDistance ==> r.refPosAway == Some(ball) && r.refTimeAway == time) &&
      (minimumDistanceToBall >= AwayDistance ==> r.refPosAway == s.refPosAway && r.refTimeAway == s.refTimeAway)
  {
    PushKeepsNewest(s.posQueue, ball);
    PushKeepsNewest(s.timeQueue, time);
  }
}

/** The estimator object: its fields, `update`, and the estimates it answers. */
module Estimator {
  import opened Wrappers
  import opened Vectors
  import opened Elementaries
  import opened BallEstimation

  /**
   * The loop of `update`: one pass over the buffer after the newest sample, each reference
   * taking the first sample old enough for it.
   */
  method PickReferences(q: seq<Vec3>, ts: seq<real>, now: real, prev3: Ref, prev4: Ref, prev5: Ref)
    returns (r3: Ref, r4: Ref, r5: Ref)
    requires 1 <= |q| == |ts|
    ensures r3 == Choose(q, ts, now, Gap(Three), prev3)
    ensures r4 == Choose(q, ts, now, Gap(Four), prev4)
    ensures r5 == Choose(q, ts, now, Gap(Five), prev5)
  {
    r3, r4, r5 := Ref(0, prev3.pos, prev3.time), Ref(0, prev4.pos, prev4.time), Ref(0, prev5.pos, prev5.time);
    var found3, found4, found5 := false, false, false;
    var i := 1;
    ScanStart(q, ts, now, Gap(Three), prev3);
    ScanStart(q, ts, now, Gap(Four), prev4);
    ScanStart(q, ts, now, Gap(Five), prev5);
    while i < |q|
      invariant Scanning(q, ts, now, Gap(Three), i, found3, r3, prev3)
      invariant Scanning(q, ts, now, Gap(Four), i, found4, r4, prev4)
      invariant Scanning(q, ts, now, Gap(Five), i, found5, r5, prev5)
    {
      ScanStep(q, ts, now, Gap(Three), i, found3, r3, prev3);
      ScanStep(q, ts, now, Gap(Four), i, found4, r4, prev4);
      ScanStep(q, ts, now, Gap(Five), i, found5, r5, prev5);
      if !found3 && now - ts[i] > Gap(Three) {
        r3, found3 := Ref(i, Some(q[i]), ts[i]), true;
      }
      if !found4 && now - ts[i] > Gap(Four) {
        r4, found4 := Ref(i, Some(q[i]), ts[i]), true;
      }
      if !found5 && now - ts[i] > Gap(Five) {
        r5, found5 := Ref(i, Some(q[i]), ts[i]), true;
      }
      i := i + 1;
    }
    ScanEnd(q, ts, now, Gap(Three), found3, r3, prev3);
    ScanEnd(q, ts, now, Gap(Four), found4, r4, prev4);
    ScanEnd(q, ts, now, Gap(Five), found5, r5, prev5);
  }

  class BallEstimator {
    /** Newest first; `ballPosQueue` and `ballPosTimeQueue` of the source. */
    var posQueue: seq<Vec3>
    var timeQueue: seq<real>
    /** The newest sample; `None` until the first update. */
    var refPos: Option<Vec3>
    var refTime: real
    var indRefTime: nat
    /** `indRefTime3`, `refPos3` and `refTime3` of the source, and likewise for four and five. */
    var ref3: Ref
    var ref4: Ref
    var ref5: Ref
    /** The ball when an agent last came close to it. */
    var refPosAway: Option<Vec3>
    var refTimeAway: real

    function Snapshot(): State
      reads this
    {
      State(posQueue, timeQueue, refPos, refTime, indRefTime, ref3, ref4, ref5, refPosAway, refTimeAway)
    }

    ghost predicate Valid()
      reads this
    {
      Consistent(Snapshot())
    }

    /** Reference `r`. */
    function RefOf(r: Reference): Ref
      reads this
    {
      match r
      case Three => ref3
      case Four => ref4
      case Five => ref5
    }

    constructor ()
      ensures Valid()
      ensures posQueue == [] && timeQueue == [] && refPos == None && refTimeAway == 0.0
      ensures ref3.ind == 0 && ref4.ind == 0 && ref5.ind == 0
    {
      posQueue, timeQueue := [], [];
      refPos, refPosAway := None, None;
      refTime, refTimeAway := 0.0, 0.0;
      indRefTime := 0;
      ref3, ref4, ref5 := Ref(0, None, 0.0), Ref(0, None, 0.0), Ref(0, None, 0.0);
    }

    /**
     * `update`: buffer the ball at `time` (the oldest sample dropped once six are held),
     * make it the newest reference, pick the three references in one pass over the
     * buffer, and move the away reference when `minimumDistanceToBall` (the statistics
     * parser's, a squared distance) is below `AwayDistance`.
     */
    method Update(ball: Vec3, time: real, minimumDistanceToBall: real)
      requires Valid()
      modifies this
      ensures Snapshot() == Updated(old(Snapshot()), ball, time, minimumDistanceToBall)
      ensures Valid()
    {
      UpdatedConsistent(Snapshot(), ball, time, minimumDistanceToBall);
      posQueue, timeQueue := Push(posQueue, ball), Push(timeQueue, time);
      refPos := Some(ball);
      refTime := time;
      indRefTime := 0;
      ref3, ref4, ref5 := PickReferences(posQueue, timeQueue, refTime, ref3, ref4, ref5);
      if minimumDistanceToBall < AwayDistance {
        refPosAway := refPos;
        refTimeAway := refTime;
      }
    }

    /**
     * `estimatedVel`, `estimatedVel4` and `estimatedVel5`: the velocity `relTime` seconds
     * after the newest sample, from the newest sample and reference `r`; zero while `r`
     * is not in use.
     */
    function EstimatedVel(e: Elementary, r: Reference, relTime: real): (v: Vec3)
      requires Valid() && Sound(e)
      reads this
      ensures v.z == 0.0
      ensures RefOf(r).ind == 0 ==> v == Zero
      ensures RefOf(r).ind != 0 ==>
        var i := RefOf(r).ind;
        v == Velocity(e, posQueue[0], posQueue[i], timeQueue[0] - timeQueue[i], relTime)
    {
      var ref := RefOf(r);
      if ref.ind == 0 then Zero
      else
        assert Referenced(posQueue, timeQueue, refTime, Gap(r), ref);
        Velocity(e, refPos.value, ref.pos.value, refTime - ref.time, relTime)
    }

    /**
     * `estimatedVelAway`: the velocity `relTime` seconds after the newest sample, from the
     * newest sample and the away reference; zero while there is no away reference or it
     * is the newest sample's own time.
     */
    function EstimatedVelAway(e: Elementary, relTime: real): (v: Vec3)
      requires Valid() && Sound(e)
      reads this
      ensures v.z == 0.0
      ensures refTimeAway == 0.0 || refTimeAway == refTime ==> v == Zero
      ensures refTimeAway != 0.0 && refTimeAway != refTime ==>
        |posQueue| != 0 && refPosAway.Some? &&
        v == Velocity(e, posQueue[0], refPosAway.value, timeQueue[0] - refTimeAway, relTime)
    {
      if refTimeAway == 0.0 || refTimeAway == refTime then Zero
      else Velocity(e, refPos.value, refPosAway.value, refTime - refTimeAway, relTime)
    }

    /**
     * `estimatedPos`, `estimatedPos4` and `estimatedPos5`: where the ball is `relTime`
     * seconds after the newest sample, at the newest sample's height. `None` before the
     * first update, where the source dereferences a null `refPos`.
     */
    function EstimatedPos(e: Elementary, r: Reference, relTime: real): (p: Option<Vec3>)
      requires Valid() && Sound(e)
      reads this
      ensures p.None? <==> |posQueue| == 0
      ensures p.Some? ==> p.value.z == posQueue[0].z
      ensures p.Some? && (RefOf(r).ind == 0 || relTime == 0.0) ==> p.value == posQueue[0]
    {
      if refPos.None? then None
      else
        PositionAtReference(e, refPos.value, EstimatedVel(e, r, 0.0));
        PositionAtRest(e, refPos.value, relTime);
        Some(Position(e, refPos.value, EstimatedVel(e, r, 0.0), relTime))
    }

    /**
     * `estimatedFinalPos`, `estimatedFinalPos4` and `estimatedFinalPos5`: where the ball
     * comes to rest, at the newest sample's height; `None` before the first update.
     */
    function EstimatedFinalPos(e: Elementary, r: Reference): (p: Option<Vec3>)
      requires Valid() && Sound(e)
      reads this
      ensures p.None? <==> |posQueue| == 0
      ensures p.Some? ==> p.value.z == posQueue[0].z
      ensures p.Some? && RefOf(r).ind == 0 ==> p.value == posQueue[0]
    {
      if refPos.None? then None
      else
        FinalPositionAtRest(refPos.value, refPos.value.z);
        Some(FinalPosition(refPos.value, EstimatedVel(e, r, 0.0), refPos.value.z))
    }

    /**
     * `estimatedFinalPosAway`: where the ball now at `ball` (the world's ball) comes to
     * rest with the away velocity, at the newest sample's height; `None` before the first
     * update.
     */
    function EstimatedFinalPosAway(e: Elementary, ball: Vec3): (p: Option<Vec3>)
      requires Valid() && Sound(e)
      reads this
      ensures p.None? <==> |posQueue| == 0
      ensures p.Some? ==> p.value.z == posQueue[0].z
      ensures p.Some? && (refTimeAway == 0.0 || refTimeAway == refTime) ==> p.value == ball.WithZ(posQueue[0].z)
    {
      if refPos.None? then None
      else
        FinalPositionAtRest(ball, refPos.value.z);
        Some(FinalPosition(ball, EstimatedVelAway(e, 0.0), refPos.value.z))
    }

    /**
     * `estimatedTime`, `estimatedTime4` and `estimatedTime5`: the time the ball needs to
     * roll `travelDistance` at the speed estimated from reference `r`.
     */
    function EstimatedTime(e: Elementary, r: Reference, travelDistance: real): (t: Extended)
      requires Valid() && Sound(e)
      reads this
      ensures RefOf(r).ind == 0 ==>
        t == (if travelDistance > 0.0 then Finite(NeverArrives)
              else if travelDistance < 0.0 then MinusInfinity else NotANumber)
      ensures var speed := Speed(e, EstimatedVel(e, r, 0.0));
        speed > 0.0 && 0.0 <= travelDistance < Reach(speed) ==>
          t.Finite? && Rolled(e, speed, t.value) == travelDistance
    {
      var speed := Speed(e, EstimatedVel(e, r, 0.0));
      TimeToRollReaches(e, speed, travelDistance);
      TimeToRoll(e, speed, travelDistance)
    }

    /**
     * The estimates agree with each other: for every reference and time, the way from the
     * estimated position to the estimated resting point is the estimated velocity over
     * `-k`.
     */
    lemma EstimatesAgree(e: Elementary, r: Reference, relTime: real)
      requires Valid() && Sound(e) && |posQueue| != 0
      ensures EstimatedFinalPos(e, r).value.Minus(EstimatedPos(e, r, relTime).value)
           == EstimatedVel(e, r, relTime).Over(-BallExpK)
    {
      var i := RefOf(r).ind;
      if i == 0 {
        RemainingRoll(e, posQueue[0], Zero, relTime);
      } else {
        assert Referenced(posQueue, timeQueue, refTime, Gap(r), RefOf(r));
        PositionFollowsVelocity(e, posQueue[0], posQueue[i], timeQueue[0] - timeQueue[i], relTime);
      }
    }
  }
}
