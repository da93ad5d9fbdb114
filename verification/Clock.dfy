/** The player's external clock: a value that runs at an adjustable speed, frozen while
    paused. A value may be undefined (NaN) until the first seek or sync. */
module Clock {
  import opened Common

  // `drift` is the base value minus the time it was set at.
  datatype ClockState = ClockState(
    pts: Option<real>,
    drift: Option<real>,
    lastUpdated: real,
    speed: real,
    paused: bool)

  const SPEED_MIN: real := 0.900
  const SPEED_MAX: real := 1.010
  const SPEED_STEP: real := 0.001
  const MIN_FRAMES: int := 2
  const MAX_FRAMES: int := 10

  function Reading(drift: real, lastUpdated: real, speed: real, time: real): real {
    drift + time - (time - lastUpdated) * (1.0 - speed)
  }

  function Get(c: ClockState, time: real): Option<real> {
    if c.paused then c.pts
    else if c.drift.None? then None
    else Some(Reading(c.drift.value, c.lastUpdated, c.speed, time))
  }

  function SetAt(c: ClockState, pts: Option<real>, time: real): ClockState {
    c.(pts := pts,
       lastUpdated := time,
       drift := match pts case None => None case Some(x) => Some(x - time))
  }

  // What a queue holds: no stream, or that many packets.
  datatype Queue = NoStream | Packets(n: int)

  predicate Starving(q: Queue) { q.Packets? && q.n <= MIN_FRAMES }

  predicate Flooded(q: Queue) { q.NoStream? || q.n > MAX_FRAMES }

  function NewSpeed(speed: real, video: Queue, audio: Queue): real {
    if Starving(video) || Starving(audio) then
      if SPEED_MIN < speed - SPEED_STEP then speed - SPEED_STEP else SPEED_MIN
    else if Flooded(video) && Flooded(audio) then
      if speed + SPEED_STEP < SPEED_MAX then speed + SPEED_STEP else SPEED_MAX
    else if speed == 1.0 then speed
    else if speed < 1.0 then speed + SPEED_STEP
    else speed - SPEED_STEP
  }

  // Every operation reads the clock at `t1` and sets it at `t2`.
  datatype Op =
    | CheckSpeed(video: Queue, audio: Queue, t1: real, t2: real)
    | TogglePause(t1: real, t2: real)

  /** Whether check_external_clock_speed leaves the clock alone. */
  predicate Untouched(c: ClockState, op: Op) {
    op.CheckSpeed? && c.speed == 1.0 && !Starving(op.video) && !Starving(op.audio)
    && !(Flooded(op.video) && Flooded(op.audio))
  }

  function Apply(c: ClockState, op: Op): ClockState {
    if Untouched(c, op) then c
    else
      var d := SetAt(c, Get(c, op.t1), op.t2);
      match op
      case CheckSpeed(video, audio, _, _) => d.(speed := NewSpeed(c.speed, video, audio))
      case TogglePause(_, _) => d.(paused := !c.paused)
  }

  function ApplyAll(c: ClockState, ops: seq<Op>): ClockState {
    if ops == [] then c else Apply(ApplyAll(c, ops[..|ops| - 1]), ops[|ops| - 1])
  }

  /** Time never runs backwards, from the clock's last update to `end`. */
  ghost predicate InTime(c: ClockState, ops: seq<Op>, end: real) {
    if ops == [] then c.lastUpdated <= end
    else
      var last := ops[|ops| - 1];
      InTime(c, ops[..|ops| - 1], last.t1) && last.t1 <= last.t2 <= end
  }

  /** Consistent, and at a speed within the limits. */
  ghost predicate Valid(c: ClockState) {
    && SPEED_MIN <= c.speed <= SPEED_MAX
    && (c.pts.None? <==> c.drift.None?)
    && (c.pts.Some? ==> c.drift.value == c.pts.value - c.lastUpdated)
  }

  /** Time run unpaused up to `end`, without the moments between the two readings of an
      operation that sets the clock. */
  function Running(c: ClockState, ops: seq<Op>, end: real): real {
    if ops == [] then if c.paused then 0.0 else end - c.lastUpdated
    else
      var before := ApplyAll(c, ops[..|ops| - 1]);
      var last := ops[|ops| - 1];
      if Untouched(before, last) then Running(c, ops[..|ops| - 1], end)
      else
        Running(c, ops[..|ops| - 1], last.t1) + if Apply(before, last).paused then 0.0 else end - last.t2
  }

  /** The speed stays within its limits, and setting the clock or pausing it does not
      change its value: what was read at `t1` is what it shows at `t2`. */
  lemma ApplyKeepsValid(c: ClockState, op: Op)
    requires Valid(c)
    ensures Valid(Apply(c, op))
    ensures !Untouched(c, op) ==> Get(Apply(c, op), op.t2) == Get(c, op.t1)
    ensures op.TogglePause? ==> Apply(c, op).paused == !c.paused && Apply(c, op).speed == c.speed
    ensures op.CheckSpeed? ==> Apply(c, op).paused == c.paused
  {
    if !Untouched(c, op) {
      var d := Apply(c, op);
      ReadingWhenSet(d.lastUpdated, d.speed);
      assert d.drift.Some? ==> Reading(d.drift.value, d.lastUpdated, d.speed, op.t2) == d.drift.value + op.t2;
    }
  }

  lemma ReadingWhenSet(time: real, speed: real)
    ensures forall drift :: Reading(drift, time, speed, time) == drift + time
  {
    assert (time - time) * (1.0 - speed) == 0.0;
  }

  lemma {:induction false} RunKeepsValid(c: ClockState, ops: seq<Op>)
    requires Valid(c)
    ensures Valid(ApplyAll(c, ops))
    ensures c.pts.Some? ==> ApplyAll(c, ops).pts.Some?
  {
    if ops != [] {
      RunKeepsValid(c, ops[..|ops| - 1]);
      ApplyKeepsValid(ApplyAll(c, ops[..|ops| - 1]), ops[|ops| - 1]);
    }
  }

  lemma Scale(d: real, s: real)
    requires d >= 0.0 && SPEED_MIN <= s <= SPEED_MAX
    ensures SPEED_MIN * d <= d * s <= SPEED_MAX * d
  {
  }

  /** A clock advances by its speed times the time that passes, and not while paused. */
  lemma Ticks(c: ClockState, from: real, to: real)
    requires Valid(c) && c.pts.Some?
    ensures Get(c, to).Some? && Get(c, from).Some?
    ensures Get(c, to).value - Get(c, from).value == if c.paused then 0.0 else (to - from) * c.speed
  {
  }

  /** Over any run the clock advances by between 0.9 and 1.01 times the time it ran. */
  lemma {:induction false} AdvanceBounded(c: ClockState, ops: seq<Op>, end: real)
    requires Valid(c) && c.pts.Some? && InTime(c, ops, end)
    ensures Get(ApplyAll(c, ops), end).Some?
    ensures var advance := Get(ApplyAll(c, ops), end).value - c.pts.value;
            SPEED_MIN * Running(c, ops, end) <= advance <= SPEED_MAX * Running(c, ops, end)
  {
    if ops == [] {
      AdvanceOne(c, c.lastUpdated, end);
      ReadingWhenSet(c.lastUpdated, c.speed);
      assert Get(c, c.lastUpdated) == c.pts;
    } else {
      var before := ApplyAll(c, ops[..|ops| - 1]);
      var last := ops[|ops| - 1];
      RunKeepsValid(c, ops[..|ops| - 1]);
      if Untouched(before, last) {
        InTimeLater(c, ops[..|ops| - 1], last.t1, end);
        AdvanceBounded(c, ops[..|ops| - 1], end);
      } else {
        AdvanceBounded(c, ops[..|ops| - 1], last.t1);
        ApplyKeepsValid(before, last);
        AdvanceOne(Apply(before, last), last.t2, end);
        hide Get, Apply, Untouched;
      }
    }
  }

  lemma AdvanceOne(c: ClockState, from: real, to: real)
    requires Valid(c) && c.pts.Some? && from <= to
    ensures Get(c, to).Some? && Get(c, from).Some?
    ensures var time := if c.paused then 0.0 else to - from;
            SPEED_MIN * time <= Get(c, to).value - Get(c, from).value <= SPEED_MAX * time
  {
    hide Get, Valid;
    Ticks(c, from, to);
    assert SPEED_MIN <= c.speed <= SPEED_MAX by { SpeedInRange(c); }
    Scale(to - from, c.speed);
  }

  lemma SpeedInRange(c: ClockState)
    requires Valid(c)
    ensures SPEED_MIN <= c.speed <= SPEED_MAX
  {
  }

  lemma InTimeLater(c: ClockState, ops: seq<Op>, end: real, later: real)
    requires InTime(c, ops, end) && end <= later
    ensures InTime(c, ops, later)
  {
  }

  /** While paused the clock stands still, whatever the speed checks do. */
  lemma {:induction false} PausedStandsStill(c: ClockState, ops: seq<Op>, end: real)
    requires Valid(c) && c.paused && forall op <- ops :: op.CheckSpeed?
    ensures ApplyAll(c, ops).paused && Get(ApplyAll(c, ops), end) == c.pts
  {
    if ops != [] {
      assert forall op <- ops[..|ops| - 1] :: op in ops;
      PausedStandsStill(c, ops[..|ops| - 1], ops[|ops| - 1].t1);
    }
  }

  lemma UnitStep(x: real)
    requires x != 0.0
    ensures x > 0.0 ==> SPEED_STEP * x / x == SPEED_STEP
    ensures x < 0.0 ==> SPEED_STEP * x / (0.0 - x) == 0.0 - SPEED_STEP
  {
    assert SPEED_STEP * x == (0.0 - SPEED_STEP) * (0.0 - x);
  }

  // ----- which way the speed goes -----

  /** A queue with hardly a packet slows the clock, however full the other one is; only two
      full queues, or full and missing ones, speed it up; by one step, within the limits. */
  lemma SpeedFollowsQueues(speed: real, video: Queue, audio: Queue)
    requires SPEED_MIN <= speed <= SPEED_MAX
    ensures
      var low := (video.Packets? && video.n <= 2) || (audio.Packets? && audio.n <= 2);
      var high := (video.Packets? ==> video.n > 10) && (audio.Packets? ==> audio.n > 10);
      var next := NewSpeed(speed, video, audio);
      && (low ==> next <= speed && (speed > SPEED_MIN ==> next < speed) && speed - next <= SPEED_STEP)
      && (low && speed - SPEED_STEP >= SPEED_MIN ==> next == speed - SPEED_STEP)
      && (!low && high ==> next >= speed && (speed < SPEED_MAX ==> next > speed) && next - speed <= SPEED_STEP)
      && (!low && high && speed + SPEED_STEP <= SPEED_MAX ==> next == speed + SPEED_STEP)
      && (!low && !high ==> Off(next) == if Off(speed) >= SPEED_STEP then Off(speed) - SPEED_STEP
                                         else if speed == 1.0 then 0.0 else SPEED_STEP - Off(speed))
  {
  }

  // How far a speed is from the normal one.
  function Off(speed: real): real { if speed < 1.0 then 1.0 - speed else speed - 1.0 }

  // Checks that find the queues neither low nor high.
  ghost predicate Calm(ops: seq<Op>) {
    forall op <- ops :: op.CheckSpeed? && !Starving(op.video) && !Starving(op.audio)
                        && !(Flooded(op.video) && Flooded(op.audio))
  }

  /** The speed is `n` steps from the normal one, as it always is from a fresh clock on. */
  predicate Steps(speed: real, n: nat) { Off(speed) == n as real * SPEED_STEP }

  /** Left to themselves the checks bring the speed back to normal, one step each, and keep
      it there. */
  lemma {:induction false} SpeedComesBack(c: ClockState, ops: seq<Op>, n: nat)
    requires Steps(c.speed, n) && Calm(ops)
    ensures Steps(ApplyAll(c, ops).speed, if |ops| < n then n - |ops| else 0)
  {
    if ops != [] {
      var before, op := ops[..|ops| - 1], ops[|ops| - 1];
      assert op in ops && forall x <- before :: x in ops;
      SpeedComesBack(c, before, n);
      CalmStep(ApplyAll(c, before), op, if |before| < n then n - |before| else 0);
    }
  }

  lemma CalmStep(c: ClockState, op: Op, n: nat)
    requires Steps(c.speed, n) && Calm([op])
    ensures Steps(Apply(c, op).speed, if n > 0 then n - 1 else 0)
  {
    assert op in [op];
    if n > 0 { assert n as real * SPEED_STEP == (n - 1) as real * SPEED_STEP + SPEED_STEP; }
  }

  /** And every speed of a run from the normal one is a whole number of steps off it. */
  lemma {:induction false} SpeedIsInSteps(c: ClockState, ops: seq<Op>) returns (n: nat)
    requires c.speed == 1.0
    ensures Steps(ApplyAll(c, ops).speed, n) && SPEED_MIN <= ApplyAll(c, ops).speed <= SPEED_MAX
  {
    if ops == [] {
      n := 0;
    } else {
      var before := ApplyAll(c, ops[..|ops| - 1]);
      var m := SpeedIsInSteps(c, ops[..|ops| - 1]);
      n := OneStepOff(before, ops[|ops| - 1], m);
    }
  }

  lemma OneStepOff(c: ClockState, op: Op, m: nat) returns (n: nat)
    requires Steps(c.speed, m) && SPEED_MIN <= c.speed <= SPEED_MAX
    ensures Steps(Apply(c, op).speed, n) && SPEED_MIN <= Apply(c, op).speed <= SPEED_MAX
  {
    var d, e := Off(c.speed), Off(Apply(c, op).speed);
    assert d <= 100.0 * SPEED_STEP;
    n := if e == d then m else if e < d then m - 1 else m + 1;
    assert (m + 1) as real * SPEED_STEP == m as real * SPEED_STEP + SPEED_STEP;
    assert m > 0 ==> (m - 1) as real * SPEED_STEP == m as real * SPEED_STEP - SPEED_STEP;
  }

  class ExternalClock {
    var pts: Option<real>
    var ptsDrift: Option<real>
    var lastUpdated: real
    var speed: real
    var paused: bool

    ghost function Value(): ClockState
      reads this
    {
      ClockState(pts, ptsDrift, lastUpdated, speed, paused)
    }

    constructor (time: real)
      ensures Valid(Value()) && Value() == ClockState(None, None, time, 1.0, false)
    {
      pts, ptsDrift, lastUpdated, speed, paused := None, None, time, 1.0, false;
    }

    method GetClock(time: real) returns (r: Option<real>)
      ensures r == Get(Value(), time)
    {
      if paused {
        return pts;
      }
      if ptsDrift.None? {
        return None;
      }
      return Some(Reading(ptsDrift.value, lastUpdated, speed, time));
    }

    method SetClockAt(newPts: Option<real>, time: real)
      modifies `pts, `ptsDrift, `lastUpdated
      ensures Value() == SetAt(old(Value()), newPts, time)
    {
      pts := newPts;
      lastUpdated := time;
      ptsDrift := if newPts.Some? then Some(newPts.value - time) else None;
    }

    method SetSpeed(newSpeed: real, t1: real, t2: real)
      modifies this
      ensures Value() == SetAt(old(Value()), Get(old(Value()), t1), t2).(speed := newSpeed)
    {
      var now := GetClock(t1);
      SetClockAt(now, t2);
      speed := newSpeed;
    }

    method CheckExternalSpeed(video: Queue, audio: Queue, t1: real, t2: real)
      modifies this
      ensures Value() == Apply(old(Value()), CheckSpeed(video, audio, t1, t2))
    {
      if (video.Packets? && video.n <= MIN_FRAMES) || (audio.Packets? && audio.n <= MIN_FRAMES) {
        SetSpeed(if SPEED_MIN > speed - SPEED_STEP then SPEED_MIN else speed - SPEED_STEP, t1, t2);
      } else if (video.NoStream? || video.n > MAX_FRAMES) && (audio.NoStream? || audio.n > MAX_FRAMES) {
        SetSpeed(if SPEED_MAX < speed + SPEED_STEP then SPEED_MAX else speed + SPEED_STEP, t1, t2);
      } else if speed != 1.0 {
        var distance := if speed < 1.0 then 1.0 - speed else speed - 1.0;
        UnitStep(1.0 - speed);
        SetSpeed(speed + SPEED_STEP * (1.0 - speed) / distance, t1, t2);
      }
    }

    /** The external clock's share of stream_toggle_pause. */
    method ToggleClockPause(t1: real, t2: real)
      modifies this
      ensures Value() == Apply(old(Value()), TogglePause(t1, t2))
    {
      var now := GetClock(t1);
      SetClockAt(now, t2);
      paused := !paused;
    }
  }
}
