/** The spinning reel of the web front-end: where the drawn item lands,
    how far the reel may travel, the three animation phases and the tick
    interval, and the guard that lets one spin run at a time. Pixel
    measures are reals. */
module Wheel {
  import opened Wrappers

  datatype Item = Item(name: string, rarity: string)

  /** One `controls.start` call: the offset reached and the duration in
      seconds. */
  datatype Move = Move(y: real, duration: real)

  const AccelRatio: real := 0.12
  const SteadyRatio: real := 0.72
  const DecelRatio: real := 0.16
  /** The whole spin, in milliseconds. */
  const DurationMs: int := 4200
  /** The shortest tick interval, in milliseconds. */
  const MinTickMs: int := 8

  function Min(a: real, b: real): real {
    if a <= b then a else b
  }

  function Max(a: real, b: real): real {
    if a >= b then a else b
  }

  function Abs(a: real): real {
    if a < 0.0 then -a else a
  }

  // ---------------------------------------------------------------------
  // The target

  /** `findIndex` on the names: the first item with the name, or -1. */
  function FindName(items: seq<Item>, name: string): (i: int)
    ensures -1 <= i < |items|
    ensures i >= 0 ==> items[i].name == name && forall j | 0 <= j < i :: items[j].name != name
    ensures i == -1 ==> forall j | 0 <= j < |items| :: items[j].name != name
  {
    if |items| == 0 then -1
    else if items[0].name == name then 0
    else
      var k := FindName(items[1..], name);
      if k == -1 then -1 else k + 1
  }

  /** `Math.floor(r * n)` for a random `r` in [0, 1). */
  function FloorIndex(r: real, n: nat): (i: int)
    requires 0.0 <= r < 1.0 && n > 0
    ensures 0 <= i < n
  {
    assert 0.0 <= r * n as real < n as real;
    (r * n as real).Floor
  }

  /** The item the reel stops on: the first one with the drawn name, else
      a random one. */
  function TargetIndex(items: seq<Item>, name: string, r: real): (i: int)
    requires 0.0 <= r < 1.0 && |items| > 0
    ensures 0 <= i < |items|
    ensures (exists j | 0 <= j < |items| :: items[j].name == name) ==>
      && items[i].name == name
      && forall j | 0 <= j < i :: items[j].name != name
  {
    var idx := FindName(items, name);
    if idx >= 0 then idx else FloorIndex(r, |items|)
  }

  /** The copy of the twice repeated list the reel stops in: 0 or 1. */
  function Cycle(r: real): (c: int)
    requires 0.0 <= r < 1.0
    ensures c == 0 || c == 1
  {
    FloorIndex(r, 2)
  }

  // ---------------------------------------------------------------------
  // The geometry

  /** The top of the target item within the repeated list. */
  function TargetTop(n: nat, index: nat, cycle: nat, h: real): real {
    (cycle * n + index) as real * h
  }

  /** The offset that puts the target's centre on the viewport's centre. */
  function IdealOffset(top: real, h: real, vh: real): (y: real)
    ensures y + top + h / 2.0 == vh / 2.0
  {
    -(top + h / 2.0 - vh / 2.0)
  }

  /** The lowest offset: the end of the list at the viewport's bottom, or
      0 when the list fits. */
  function MinOffset(n: nat, h: real, vh: real): (lo: real)
    ensures lo <= 0.0
  {
    Min(0.0, -((2 * n) as real * h - vh))
  }

  /** `Math.max(lo, Math.min(hi, x))`. */
  function Clamp(lo: real, hi: real, x: real): (r: real)
    requires lo <= hi
    ensures lo <= r <= hi
    ensures lo <= x <= hi ==> r == x
    ensures x < lo ==> r == lo
    ensures hi < x ==> r == hi
  {
    Max(lo, Min(hi, x))
  }

  /** The final offset, clamped to the reel's range. */
  function Landing(n: nat, index: nat, cycle: nat, h: real, vh: real): (y: real)
    ensures MinOffset(n, h, vh) <= y <= 0.0
    ensures y == IdealOffset(TargetTop(n, index, cycle, h), h, vh) || y == MinOffset(n, h, vh) || y == 0.0
  {
    Clamp(MinOffset(n, h, vh), 0.0, IdealOffset(TargetTop(n, index, cycle, h), h, vh))
  }

  /** The displacement after the second clamp, whose bounds are the
      magnitudes of the first one's. */
  function Displacement(landing: real, lo: real): (d: real)
    ensures -Abs(lo) <= d <= 0.0
    ensures -Abs(lo) <= landing <= 0.0 ==> d == landing
  {
    Max(-Abs(lo), Min(Abs(0.0), landing))
  }

  /** The three phases: 12% of the way in 12% of the time, to 84% of the
      way by 84% of the time, then the rest. */
  function Phases(d: real): (ps: seq<Move>)
    ensures |ps| == 3 && ps[2].y == d
    ensures d <= 0.0 ==> ps[2].y <= ps[1].y <= ps[0].y <= 0.0
  {
    [Move(d * AccelRatio, (DurationMs as real * AccelRatio) / 1000.0),
     Move(d * (AccelRatio + SteadyRatio), (DurationMs as real * SteadyRatio) / 1000.0),
     Move(d, (DurationMs as real * DecelRatio) / 1000.0)]
  }

  /** One tick per item passed, but never faster than every 8 ms. */
  function TickInterval(steps: int): (t: int)
    ensures MinTickMs <= t <= DurationMs
    ensures steps <= 1 ==> t == DurationMs
  {
    var q := DurationMs / (if steps > 1 then steps else 1);
    if q > MinTickMs then q else MinTickMs
  }

  /** What a spin computes once the target, the cycle and the measures are
      known. */
  datatype Spin = Spin(targetIndex: nat, cycle: nat, landing: real, displacement: real, phases: seq<Move>, tickInterval: int)

  function PlanSpin(n: nat, index: nat, cycle: nat, h: real, vh: real): (s: Spin)
    ensures s.targetIndex == index && s.cycle == cycle
    ensures MinOffset(n, h, vh) <= s.landing <= 0.0 && s.displacement == s.landing
    ensures s.phases == Phases(s.landing)
    ensures MinTickMs <= s.tickInterval <= DurationMs
  {
    var landing := Landing(n, index, cycle, h, vh);
    var d := Displacement(landing, MinOffset(n, h, vh));
    Spin(index, cycle, landing, d, Phases(d), TickInterval(cycle * n + index))
  }

  /** The final offset stays between the lowest offset and 0. */
  lemma LandingInRange(n: nat, index: nat, cycle: nat, h: real, vh: real)
    ensures MinOffset(n, h, vh) <= Landing(n, index, cycle, h, vh) <= 0.0
  {
  }

  /** When the ideal offset is within range, the target's centre lands on
      the viewport's centre. */
  lemma LandingCentresTarget(n: nat, index: nat, cycle: nat, h: real, vh: real)
    requires MinOffset(n, h, vh) <= IdealOffset(TargetTop(n, index, cycle, h), h, vh) <= 0.0
    ensures Landing(n, index, cycle, h, vh) + TargetTop(n, index, cycle, h) + h / 2.0 == vh / 2.0
  {
  }

  /** The second clamp leaves a clamped offset as it is. */
  lemma SecondClampKeeps(landing: real, lo: real)
    requires lo <= landing <= 0.0
    ensures Displacement(landing, lo) == landing
  {
  }

  /** The phases move monotonically towards the final offset, which is
      the clamped landing. */
  lemma PhasesMonotone(n: nat, index: nat, cycle: nat, h: real, vh: real)
    ensures var s := PlanSpin(n, index, cycle, h, vh);
      && s.displacement == s.landing
      && |s.phases| == 3
      && s.phases[2].y <= s.phases[1].y <= s.phases[0].y <= 0.0
      && s.phases[2].y == s.landing
  {
    var landing := Landing(n, index, cycle, h, vh);
    LandingInRange(n, index, cycle, h, vh);
    SecondClampKeeps(landing, MinOffset(n, h, vh));
    var d := landing;
    assert d * (AccelRatio + SteadyRatio) <= d * AccelRatio;
  }

  /** The phases take 0.504 s, 3.024 s and 0.672 s, 4.2 s in all. */
  lemma PhaseDurations(d: real)
    ensures var p := Phases(d);
      && p[0].duration == 0.504 && p[1].duration == 3.024 && p[2].duration == 0.672
      && p[0].duration + p[1].duration + p[2].duration == DurationMs as real / 1000.0
  {
  }

  // ---------------------------------------------------------------------
  // The component

  /** The reel's state: its items, the spin flag, the offset reached, the
      phases started, the tick intervals set and the vibrations fired. */
  class WheelView {
    var items: seq<Item>
    var isSpinning: bool
    var y: real
    var moves: seq<Move>
    var ticks: seq<int>
    var vibrations: nat

    constructor(items: seq<Item>)
      ensures this.items == items && !isSpinning && y == 0.0
      ensures moves == [] && ticks == [] && vibrations == 0
    {
      this.items := items;
      isSpinning := false;
      y := 0.0;
      moves := [];
      ticks := [];
      vibrations := 0;
    }

    /** The start of `handleGet`, up to the server request: nothing happens
        while a spin runs, without items or without the measured elements. */
    method BeginGet(refsPresent: bool) returns (started: bool)
      modifies this
      ensures started <==> !old(isSpinning) && |items| > 0 && refsPresent
      ensures isSpinning == (old(isSpinning) || started)
      ensures items == old(items) && y == old(y) && moves == old(moves)
      ensures ticks == old(ticks) && vibrations == old(vibrations)
    {
      if isSpinning || |items| == 0 || !refsPresent {
        return false;
      }
      isSpinning := true;
      started := true;
    }

    /** The rest of `handleGet`, once the server answers: a failed request
        or an item that cannot be measured ends the spin without moving;
        otherwise the tick timer is set, the three phases run and a last
        vibration fires. The flag is cleared either way. */
    method FinishGet(server: Outcome<string>, r1: real, r2: real, itemHeight: Option<real>, vh: real)
      returns (spin: Option<Spin>)
      requires isSpinning && |items| > 0
      requires 0.0 <= r1 < 1.0 && 0.0 <= r2 < 1.0
      modifies this
      ensures !isSpinning && items == old(items)
      ensures server.Rejected? || itemHeight.None? ==>
        spin.None? && y == old(y) && moves == old(moves) && ticks == old(ticks) && vibrations == old(vibrations)
      ensures server.Resolved? && itemHeight.Some? ==>
        var s := PlanSpin(|items|, TargetIndex(items, server.data, r1), Cycle(r2), itemHeight.value, vh);
        && spin == Some(s)
        && moves == old(moves) + s.phases && y == s.landing
        && ticks == old(ticks) + [s.tickInterval] && vibrations == old(vibrations) + 1
    {
      if server.Rejected? || itemHeight.None? {
        isSpinning := false;
        return None;
      }
      var index := TargetIndex(items, server.data, r1);
      var cycle := Cycle(r2);
      var s := PlanSpin(|items|, index, cycle, itemHeight.value, vh);
      ticks := ticks + [s.tickInterval];
      moves := moves + [s.phases[0]];
      moves := moves + [s.phases[1]];
      moves := moves + [s.phases[2]];
      y := s.phases[2].y;
      PhasesMonotone(|items|, index, cycle, itemHeight.value, vh);
      assert old(moves) + s.phases == old(moves) + [s.phases[0]] + [s.phases[1]] + [s.phases[2]];
      vibrations := vibrations + 1;
      isSpinning := false;
      spin := Some(s);
    }
  }
}
