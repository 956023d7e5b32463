/** The ring pointing test (Games/ISOFitts.py): a cursor steered by decoded EMG
    classes must dwell inside the goal circle of a ring; goals follow an
    alternating-stride walk and the session ends after a fixed number of trials. */
module IsoFitts {
  import opened Common
  import opened Wire

  // ---------------------------------------------------------------------------
  // Goal-index walk (get_new_goal_circle)
  // ---------------------------------------------------------------------------

  /** goal_circle, next_circle_in and circle_jump. */
  datatype Walk = Walk(goal: int, stride: int, parity: int)

  /** The first call, made from goal_circle == -1. */
  function StartWalk(n: int): Walk
  {
    Walk(0, n / 2, 0)
  }

  /** Every later call: jump by the stride, then swap between n/2 and n/2 + 1. */
  function Advance(n: int, w: Walk): (r: Walk)
    requires n >= 1
    ensures 0 <= r.goal < n
    ensures r.parity == 0 || r.parity == 1
    ensures r.stride == n / 2 + r.parity
    ensures r.parity != w.parity || (w.parity != 0 && w.parity != 1)
  {
    Walk((w.goal + w.stride) % n,
         if w.parity == 0 then n / 2 + 1 else n / 2,
         if w.parity == 0 then 1 else 0)
  }

  /** The walk after k advances past the first call. */
  function WalkAfter(n: int, k: nat): (r: Walk)
    requires n >= 1
    ensures 0 <= r.goal < n
    ensures r.parity == k % 2
    ensures r.stride == n / 2 + r.parity
  {
    if k == 0 then StartWalk(n) else Advance(n, WalkAfter(n, k - 1))
  }

  lemma MulAtLeast(n: int, d: int)
    requires n > 0 && d >= 1
    ensures n * d >= n
  {
    assert n * d == n * (d - 1) + n;
    assert n * (d - 1) >= 0;
  }

  /** Euclidean division has a unique quotient and remainder. */
  lemma ModUnique(x: int, n: int, q: int, rem: int)
    requires n > 0 && 0 <= rem < n && x == n * q + rem
    ensures x % n == rem
  {
    var q', rem' := x / n, x % n;
    assert x == n * q' + rem';
    var d := q - q';
    assert n * q == n * q' + n * d;
    assert n * d == rem' - rem;
    if d >= 1 {
      MulAtLeast(n, d);
    } else if d <= -1 {
      MulAtLeast(n, -d);
    }
  }

  lemma ModSmall(a: int, n: int)
    requires 0 <= a < n
    ensures a % n == a
  {
    ModUnique(a, n, 0, a);
  }

  lemma ModAddMultiple(a: int, q: int, n: int)
    requires n > 0
    ensures (n * q + a) % n == a % n
  {
    assert a == n * (a / n) + a % n;
    assert n * q + a == n * (q + a / n) + a % n;
    ModUnique(n * q + a, n, q + a / n, a % n);
  }

  lemma ModAddLeft(a: int, b: int, n: int)
    requires n > 0
    ensures ((a % n) + b) % n == (a + b) % n
  {
    assert a + b == n * (a / n) + ((a % n) + b);
    ModAddMultiple((a % n) + b, a / n, n);
  }

  lemma MulSucc(k: int, s: int)
    ensures (k - 1) * s + s == k * s
  {
  }

  /** The induction behind WalkClosedForm, with the product k * s named base. */
  lemma {:induction false} WalkPairs(n: int, k: nat, s: int, base: int)
    requires n >= 1 && s == 2 * (n / 2) + 1 && base == k * s
    ensures WalkAfter(n, 2 * k).goal == base % n
    ensures WalkAfter(n, 2 * k + 1).goal == (base + n / 2) % n
  {
    var h := n / 2;
    if k == 0 {
      assert base == 0;
      assert WalkAfter(n, 1) == Advance(n, StartWalk(n));
    } else {
      MulSucc(k, s);
      WalkPairs(n, k - 1, s, base - s);
      var prev := WalkAfter(n, 2 * (k - 1) + 1);
      assert prev.goal == (base - s + h) % n;
      assert prev.stride == h + 1;
      var even := WalkAfter(n, 2 * k);
      assert even == Advance(n, prev);
      ModAddLeft(base - s + h, h + 1, n);
      assert base - s + h + (h + 1) == base;
      assert even.stride == h;
      assert WalkAfter(n, 2 * k + 1) == Advance(n, even);
      ModAddLeft(base, h, n);
    }
  }

  /** Closed form: each pair of advances adds 2(n/2) + 1 to the goal. */
  lemma WalkClosedForm(n: int, k: nat)
    requires n >= 1
    ensures WalkAfter(n, 2 * k).goal == (k * (2 * (n / 2) + 1)) % n
    ensures WalkAfter(n, 2 * k + 1).goal == (k * (2 * (n / 2) + 1) + n / 2) % n
  {
    WalkPairs(n, k, 2 * (n / 2) + 1, k * (2 * (n / 2) + 1));
  }

  /** For an even ring the walk visits k and k + n/2 alternately:
      after 2k advances the goal is k mod n, after 2k+1 it is (k + n/2) mod n. */
  lemma WalkEven(n: int, k: nat)
    requires n >= 2 && n % 2 == 0
    ensures WalkAfter(n, 2 * k).goal == k % n
    ensures WalkAfter(n, 2 * k + 1).goal == (k + n / 2) % n
  {
    WalkClosedForm(n, k);
    assert 2 * (n / 2) + 1 == n + 1;
    assert k * (n + 1) == n * k + k;
    ModAddMultiple(k, k, n);
    assert k * (n + 1) + n / 2 == n * k + (k + n / 2);
    ModAddMultiple(k + n / 2, k, n);
  }

  /** For an odd ring the walk only ever alternates between goals 0 and n/2. */
  lemma WalkOdd(n: int, k: nat)
    requires n >= 1 && n % 2 == 1
    ensures WalkAfter(n, 2 * k).goal == 0
    ensures WalkAfter(n, 2 * k + 1).goal == n / 2
  {
    var s := 2 * (n / 2) + 1;
    WalkClosedForm(n, k);
    assert n == 2 * (n / 2) + n % 2;
    assert s == n;
    assert k * s == n * k;
    ModAddMultiple(0, k, n);
    ModAddMultiple(n / 2, k, n);
    ModSmall(0, n);
    ModSmall(n / 2, n);
  }

  lemma WalkPeriodPair(n: int, k: nat)
    requires n >= 1
    ensures WalkAfter(n, 2 * (k + n)).goal == WalkAfter(n, 2 * k).goal
    ensures WalkAfter(n, 2 * (k + n) + 1).goal == WalkAfter(n, 2 * k + 1).goal
  {
    var s := 2 * (n / 2) + 1;
    WalkClosedForm(n, k);
    WalkClosedForm(n, k + n);
    assert (k + n) * s == n * s + k * s;
    ModAddMultiple(k * s, s, n);
    ModAddMultiple(k * s + n / 2, s, n);
  }

  /** The walk repeats after 2n advances. */
  lemma WalkPeriod(n: int, j: nat)
    requires n >= 1
    ensures WalkAfter(n, j + 2 * n) == WalkAfter(n, j)
  {
    var k := j / 2;
    WalkPeriodPair(n, k);
    if j % 2 == 0 {
      assert j + 2 * n == 2 * (k + n);
    } else {
      assert j == 2 * k + 1 && j + 2 * n == 2 * (k + n) + 1;
    }
  }

  /** For an even ring the walk does not return to goal 0 after n advances. */
  lemma WalkNotPeriodN(n: int)
    requires n >= 2 && n % 2 == 0
    ensures WalkAfter(n, n).goal == n / 2
  {
    var h := n / 2;
    assert n == 2 * h;
    WalkEven(n, h);
    ModSmall(h, n);
  }

  /** The sequence of goals for the default ring of 8 circles. */
  lemma WalkEightCircles()
    ensures [WalkAfter(8, 0).goal, WalkAfter(8, 1).goal, WalkAfter(8, 2).goal,
             WalkAfter(8, 3).goal, WalkAfter(8, 4).goal, WalkAfter(8, 5).goal,
             WalkAfter(8, 6).goal, WalkAfter(8, 7).goal, WalkAfter(8, 8).goal,
             WalkAfter(8, 9).goal] == [0, 4, 1, 5, 2, 6, 3, 7, 4, 0]
  {
    WalkEven(8, 0);
    WalkEven(8, 1);
    WalkEven(8, 2);
    WalkEven(8, 3);
    WalkEven(8, 4);
  }

  /** With three or more circles every advance moves the goal to another circle,
      since both strides lie strictly between 0 and n. */
  lemma WalkAlwaysMoves(n: int, k: nat)
    requires n >= 3
    ensures WalkAfter(n, k + 1).goal != WalkAfter(n, k).goal
  {
    var w := WalkAfter(n, k);
    var g, s := w.goal, w.stride;
    assert WalkAfter(n, k + 1).goal == (g + s) % n;
    assert 1 <= s < n;
    if g + s < n {
      ModSmall(g + s, n);
    } else {
      ModUnique(g + s, n, 1, g + s - n);
    }
  }

  /** With two circles the stride after the first advance is 2, so the goal stays
      on circle 1 for two trials in a row. */
  lemma WalkRepeatsTwoCircles()
    ensures WalkAfter(2, 1).goal == 1 && WalkAfter(2, 2).goal == 1
  {
    assert WalkAfter(2, 1) == Walk(1, 2, 1);
  }

  // ---------------------------------------------------------------------------
  // Trial counter (lines 134-140)
  // ---------------------------------------------------------------------------

  datatype Trials = Trials(trial: int, done: bool)

  /** One confirmation: count the trial, or end the session on the last one. */
  function Confirm(t: Trials, maxTrial: int): Trials
  {
    if t.trial < maxTrial - 1 then Trials(t.trial + 1, t.done) else Trials(t.trial, true)
  }

  /** The counter after c confirmations from the initial trial = 0, done = False. */
  function TrialsAfter(maxTrial: int, c: nat): Trials
  {
    if c == 0 then Trials(0, false) else Confirm(TrialsAfter(maxTrial, c - 1), maxTrial)
  }

  /** The session is done exactly from the max_trial-th confirmation on, and trial
      counts the confirmations up to max_trial - 1. */
  lemma {:induction false} TrialsAfterCount(maxTrial: int, c: nat)
    requires maxTrial >= 1
    ensures TrialsAfter(maxTrial, c).done <==> c >= maxTrial
    ensures TrialsAfter(maxTrial, c).trial == Min(c, maxTrial - 1)
  {
    if c > 0 {
      TrialsAfterCount(maxTrial, c - 1);
    }
  }

  // ---------------------------------------------------------------------------
  // Dwell timer (lines 128-144)
  // ---------------------------------------------------------------------------

  /** dwell_timer (None or the perf_counter value at entry) and duration. */
  datatype Dwell = Dwell(timer: Option<real>, duration: real)

  /** One evaluated tick: the new timer state and whether the goal was confirmed. */
  function DwellStep(s: Dwell, collided: bool, now: real, dwellTime: real): (r: (Dwell, bool))
    ensures !collided ==> r == (Dwell(None, 0.0), false)
    ensures collided && s.timer.None? ==> r.0.duration == s.duration && (r.1 <==> s.duration >= dwellTime)
    ensures collided && s.timer.Some? ==>
              r.0.duration == now - s.timer.value && (r.1 <==> now - s.timer.value >= dwellTime)
    ensures r.1 ==> collided && r.0.timer.None? && r.0.duration >= dwellTime
    ensures collided && !r.1 ==> r.0.timer == (if s.timer.None? then Some(now) else s.timer)
  {
    if collided then
      var started := if s.timer.None? then Dwell(Some(now), s.duration)
                     else Dwell(s.timer, now - s.timer.value);
      if started.duration >= dwellTime then (Dwell(None, started.duration), true)
      else (started, false)
    else
      (Dwell(None, 0.0), false)
  }

  /** Whether a run of collision ticks at the given times confirms at some tick. */
  function Confirms(s: Dwell, times: seq<real>, dwellTime: real): bool
    decreases |times|
  {
    if times == [] then false
    else
      var r := DwellStep(s, true, times[0], dwellTime);
      r.1 || Confirms(r.0, times[1..], dwellTime)
  }

  /** While the timer runs from t0, a collision run confirms iff some tick is at
      least dwell_time after t0. */
  lemma {:induction false} ConfirmsFromEntry(t0: real, d: real, times: seq<real>, dwellTime: real)
    requires d < dwellTime
    ensures Confirms(Dwell(Some(t0), d), times, dwellTime) <==>
            exists i :: 0 <= i < |times| && times[i] - t0 >= dwellTime
    decreases |times|
  {
    if times != [] {
      var r := DwellStep(Dwell(Some(t0), d), true, times[0], dwellTime);
      if !r.1 {
        ConfirmsFromEntry(t0, times[0] - t0, times[1..], dwellTime);
        if exists i :: 0 <= i < |times| && times[i] - t0 >= dwellTime {
          var i :| 0 <= i < |times| && times[i] - t0 >= dwellTime;
          assert i > 0;
          assert times[1..][i - 1] == times[i];
        }
        if exists i :: 0 <= i < |times[1..]| && times[1..][i] - t0 >= dwellTime {
          var i :| 0 <= i < |times[1..]| && times[1..][i] - t0 >= dwellTime;
          assert times[i + 1] == times[1..][i];
        }
      }
    }
  }

  /** No carry-over: after a tick outside the goal (state None, 0), a run of
      collision ticks confirms iff some tick after the entry tick is at least
      dwell_time later than the entry tick. The entry tick itself never confirms. */
  lemma ConfirmsAfterExit(times: seq<real>, dwellTime: real)
    requires dwellTime > 0.0 && |times| >= 1
    ensures Confirms(Dwell(None, 0.0), times, dwellTime) <==>
            exists i :: 1 <= i < |times| && times[i] - times[0] >= dwellTime
  {
    var entry := DwellStep(Dwell(None, 0.0), true, times[0], dwellTime);
    assert entry == (Dwell(Some(times[0]), 0.0), false);
    ConfirmsFromEntry(times[0], 0.0, times[1..], dwellTime);
    if exists i :: 1 <= i < |times| && times[i] - times[0] >= dwellTime {
      var i :| 1 <= i < |times| && times[i] - times[0] >= dwellTime;
      assert times[1..][i - 1] == times[i];
    }
    if exists i :: 0 <= i < |times[1..]| && times[1..][i] - times[0] >= dwellTime {
      var i :| 0 <= i < |times[1..]| && times[1..][i] - times[0] >= dwellTime;
      assert times[i + 1] == times[1..][i];
    }
  }

  /** With a 3 s dwell: enter at 0.0, leave at 2.9, re-enter at 3.0; the tick at
      5.9 does not confirm, the tick at 6.0 does. */
  lemma DwellReentryScenario()
    ensures var t0 := DwellStep(Dwell(None, 0.0), true, 0.0, 3.0);
            var t1 := DwellStep(t0.0, false, 2.9, 3.0);
            var t2 := DwellStep(t1.0, true, 3.0, 3.0);
            var t3 := DwellStep(t2.0, true, 5.9, 3.0);
            var t4 := DwellStep(t3.0, true, 6.0, 3.0);
            !t0.1 && !t1.1 && !t2.1 && !t3.1 && t4.1
  {
  }

  // ---------------------------------------------------------------------------
  // Geometry, decoding and motion
  // ---------------------------------------------------------------------------

  /** A pygame.Rect. */
  datatype Rect = Rect(x: int, y: int, w: int, h: int)
  {
    function CenterX(): int { x + w / 2 }
    function CenterY(): int { y + h / 2 }
  }

  /** The collision test of check_collisions, with the square root removed: the
      reach is circle.w/2 + cursor.w/2. */
  predicate Collides(circle: Rect, cursor: Rect)
  {
    var dx := circle.CenterX() - cursor.CenterX();
    var dy := circle.CenterY() - cursor.CenterY();
    var reach := circle.w as real / 2.0 + cursor.w as real / 2.0;
    reach > 0.0 && (dx * dx + dy * dy) as real < reach * reach
  }

  /** Collides agrees with the source's test `sqrt(dx² + dy²) < reach` for the
      square root dist of the squared centre distance. */
  lemma CollidesIffDistance(circle: Rect, cursor: Rect, dist: real)
    requires dist >= 0.0
    requires var dx := circle.CenterX() - cursor.CenterX();
             var dy := circle.CenterY() - cursor.CenterY();
             dist * dist == (dx * dx + dy * dy) as real
    ensures Collides(circle, cursor) <==> dist < circle.w as real / 2.0 + cursor.w as real / 2.0
  {
    var reach := circle.w as real / 2.0 + cursor.w as real / 2.0;
    var dx := circle.CenterX() - cursor.CenterX();
    var dy := circle.CenterY() - cursor.CenterY();
    var d2 := (dx * dx + dy * dy) as real;
    assert Collides(circle, cursor) <==> reach > 0.0 && d2 < reach * reach;
    assert d2 == dist * dist;
    if reach > 0.0 {
      SquareMonotone(dist, reach);
    }
  }

  /** With the default circle (80 wide) and cursor (14 wide) the reach is 47. */
  lemma CollidesDefaultSizes(circle: Rect, cursor: Rect)
    requires circle.w == 80 && cursor.w == 14
    ensures Collides(circle, cursor) <==>
            var dx := circle.CenterX() - cursor.CenterX();
            var dy := circle.CenterY() - cursor.CenterY();
            dx * dx + dy * dy < 47 * 47
  {
  }

  /** What check_events makes of one datagram (the read is blocking, so one always
      arrives): an uncaught exception, the empty text, or a new direction. */
  datatype Decoded = Crash | Silent | Steer(dx: real, dy: real)

  /** Lines 107-124: both pieces are parsed before the class is looked at. */
  function DecodeIso(d: Datagram, vel: real): (r: Decoded)
    ensures r.Crash? <==> d.Undecodable? || (|d.tokens| > 0 && (Field(d.tokens, 0).None? || Field(d.tokens, 1).None?))
    ensures r.Silent? <==> d == Text([])
    ensures r.Steer? ==> r.dx == 0.0 || r.dy == 0.0
    ensures r.Steer? ==>
              var c, v := d.tokens[0].value, d.tokens[1].value;
              && (c == 1.0 ==> r == Steer(-vel * v, 0.0))
              && (c == 2.0 ==> r == Steer(vel * v, 0.0))
              && (c == 4.0 ==> r == Steer(0.0, -vel * v))
              && (c == 3.0 ==> r == Steer(0.0, vel * v))
              && (c != 1.0 && c != 2.0 && c != 3.0 && c != 4.0 ==> r == Steer(0.0, 0.0))
  {
    match d
    case Undecodable => Crash
    case Text(tokens) =>
      if tokens == [] then Silent
      else
        match (Field(tokens, 0), Field(tokens, 1))
        case (Some(c), Some(v)) =>
          if c == 1.0 then Steer(0.0 - vel * v, 0.0)
          else if c == 2.0 then Steer(0.0 + vel * v, 0.0)
          else if c == 4.0 then Steer(0.0, 0.0 - vel * v)
          else if c == 3.0 then Steer(0.0, 0.0 + vel * v)
          else Steer(0.0, 0.0)
        case _ => Crash
  }

  /** One axis of move(): take the step only if the new position keeps the cursor
      strictly inside (half, extent - half); pygame truncates the float result. */
  function AxisStep(pos: int, delta: real, half: int, extent: int): (r: int)
    requires half >= 0
    ensures var target := pos as real + delta;
            if target > half as real && target + half as real < extent as real
            then r as real <= target < r as real + 1.0
            else r == pos
    ensures r != pos ==> half <= r && r + half < extent
    ensures half <= pos && pos + half < extent ==> half <= r && r + half < extent
    ensures delta == 0.0 ==> r == pos
  {
    var target := pos as real + delta;
    if target > half as real && target + half as real < extent as real then Trunc(target) else pos
  }

  /** The number of circles the draw_circles loop creates with angle increment inc:
      the least c with c * inc >= 360. */
  predicate IsCircleCount(c: int, inc: int)
  {
    c * inc >= 360 && (c - 1) * inc < 360
  }

  /** draw_circles creates exactly num_of_circles circles iff that number divides 360. */
  lemma CircleCountIff(n: int, c: int)
    requires 1 <= n <= 360
    requires IsCircleCount(c, 360 / n)
    ensures c == n <==> 360 % n == 0
  {
    var inc := 360 / n;
    var rem := 360 % n;
    assert 360 == n * inc + rem;
    assert inc >= 1;
    if rem == 0 {
      assert n * inc == 360 && (n - 1) * inc < 360;
    } else {
      assert n * inc < 360;
    }
  }

  /** For 7 circles the loop draws 8: angles 0, 51, ..., 306 and a duplicate near 0 at 357. */
  lemma CircleCountSeven()
    ensures IsCircleCount(8, 360 / 7) && !IsCircleCount(7, 360 / 7)
  {
  }

  /** The angle of circle k when n circles are spread evenly. */
  function EvenAngle(k: int, n: int): real
    requires n >= 1
  {
    k as real * 360.0 / n as real
  }

  /** When n divides 360 the as-written angles k * (360 // n) are the even ones, so
      both layouts draw the same circles; and even angles stay below 360. */
  lemma EvenAngleAgrees(n: int, k: int)
    requires 1 <= n && 0 <= k < n
    ensures 0.0 <= EvenAngle(k, n) < 360.0
    ensures 360 % n == 0 ==> (k * (360 / n)) as real == EvenAngle(k, n)
  {
    var nr := n as real;
    assert k as real * 360.0 < nr * 360.0;
    assert EvenAngle(k, n) * nr == k as real * 360.0;
    if 360 % n == 0 {
      var inc := 360 / n;
      assert n * inc == 360;
      assert (inc as real) * nr == 360.0;
      assert (k * inc) as real * nr == k as real * 360.0;
    }
  }

  /** One tick's inputs: the datagram, the clock and whether a QUIT event is queued. */
  datatype Tick = Tick(datagram: Datagram, now: real, quit: bool)

  // ---------------------------------------------------------------------------
  // The test object (class FittsLawTest)
  // ---------------------------------------------------------------------------

  class FittsLawTest {
    const width: int
    const height: int
    const numCircles: int
    const maxTrial: int
    const vel: real := 20.0
    const dwellTime: real := 3.0
    const cursorSize: int := 14

    var done: bool
    var trial: int
    var circles: seq<Rect>
    var cursor: Rect
    var goalCircle: int
    var nextCircleIn: int
    var circleJump: int
    var currentDirection: (real, real)
    var dwellTimer: Option<real>
    var duration: real
    var eventFlag: bool

    /** Calls of get_new_goal_circle after the first, confirmations so far, and
        whether a QUIT event ended the session. */
    ghost var advances: nat
    ghost var confirmations: nat
    ghost var quitSeen: bool

    function WalkState(): Walk
      reads this
    {
      Walk(goalCircle, nextCircleIn, circleJump)
    }

    ghost predicate Valid()
      reads this
    {
      && numCircles >= 1
      && WalkState() == WalkAfter(numCircles, advances)
      && trial == TrialsAfter(maxTrial, confirmations).trial
      && done == (TrialsAfter(maxTrial, confirmations).done || quitSeen)
      && cursor.w == cursorSize && cursor.h == cursorSize
    }

    /** The cursor lies inside the screen margins move() keeps. */
    predicate InBounds(r: Rect)
      reads this
    {
      cursorSize / 2 <= r.x && r.x + cursorSize / 2 < width &&
      cursorSize / 2 <= r.y && r.y + cursorSize / 2 < height
    }

    constructor (numCircles: int, numTrials: int, width: int, height: int)
      requires numCircles >= 1
      ensures Valid()
      ensures this.numCircles == numCircles && maxTrial == numTrials
      ensures this.width == width && this.height == height
      ensures !done && trial == 0 && circles == []
      ensures cursor == Rect(width / 2 - 7, height / 2 - 7, 14, 14)
      ensures WalkState() == StartWalk(numCircles) && confirmations == 0 && !quitSeen
      ensures currentDirection == (0.0, 0.0)
      ensures dwellTimer == None && duration == 0.0
    {
      this.width := width;
      this.height := height;
      this.numCircles := numCircles;
      maxTrial := numTrials;
      done := false;
      trial := 0;
      circles := [];
      cursor := Rect(width / 2 - 7, height / 2 - 7, 14, 14);
      goalCircle := -1;
      nextCircleIn := 0;
      circleJump := 0;
      currentDirection := (0.0, 0.0);
      dwellTimer := None;
      duration := 0.0;
      eventFlag := false;
      advances := 0;
      confirmations := 0;
      quitSeen := false;
      new;
      GetNewGoalCircle();
    }

    method GetNewGoalCircle()
      requires numCircles >= 1
      requires goalCircle == -1 || WalkState() == WalkAfter(numCircles, advances)
      modifies this`goalCircle, this`nextCircleIn, this`circleJump, this`advances
      ensures old(goalCircle) == -1 ==> WalkState() == StartWalk(numCircles) && advances == 0
      ensures old(goalCircle) != -1 ==>
                WalkState() == Advance(numCircles, old(WalkState())) && advances == old(advances) + 1
      ensures WalkState() == WalkAfter(numCircles, advances)
    {
      if goalCircle == -1 {
        goalCircle := 0;
        nextCircleIn := numCircles / 2;
        circleJump := 0;
        advances := 0;
      } else {
        goalCircle := (goalCircle + nextCircleIn) % numCircles;
        if circleJump == 0 {
          nextCircleIn := numCircles / 2 + 1;
          circleJump := 1;
        } else {
          nextCircleIn := numCircles / 2;
          circleJump := 0;
        }
        advances := advances + 1;
      }
    }

    /** draw_circles as written: the first call fills circles at angles
        0, 360 // n, 2 * (360 // n), ... while the angle is below 360; place stands
        for the trigonometry that turns an angle into the circle's rectangle. */
    method DrawCircles(place: real -> Rect)
      requires 1 <= numCircles <= 360
      modifies this`circles
      ensures old(circles) != [] ==> circles == old(circles)
      ensures old(circles) == [] ==> IsCircleCount(|circles|, 360 / numCircles)
      ensures old(circles) == [] ==>
                forall k :: 0 <= k < |circles| ==> circles[k] == place((k * (360 / numCircles)) as real)
    {
      if |circles| == 0 {
        var angle := 0;
        var increment := 360 / numCircles;
        while angle < 360
          invariant angle == |circles| * increment
          invariant |circles| == 0 || (|circles| - 1) * increment < 360
          invariant forall k :: 0 <= k < |circles| ==> circles[k] == place((k * increment) as real)
          decreases 360 - angle
        {
          circles := circles + [place(angle as real)];
          angle := angle + increment;
        }
      }
    }

    /** draw_circles corrected: exactly one circle per goal index, evenly spaced. */
    method DrawCirclesEvenly(place: real -> Rect)
      requires numCircles >= 1
      modifies this`circles
      ensures old(circles) != [] ==> circles == old(circles)
      ensures old(circles) == [] ==>
                |circles| == numCircles &&
                forall k :: 0 <= k < numCircles ==> circles[k] == place(EvenAngle(k, numCircles))
    {
      if |circles| == 0 {
        var k := 0;
        while k < numCircles
          invariant 0 <= k <= numCircles && |circles| == k
          invariant forall j :: 0 <= j < k ==> circles[j] == place(EvenAngle(j, numCircles))
        {
          circles := circles + [place(EvenAngle(k, numCircles))];
          k := k + 1;
        }
      }
    }

    /** check_collisions: the collision event becomes the flag check_events reads. */
    method CheckCollisions()
      requires 0 <= goalCircle < |circles|
      modifies this`eventFlag
      ensures eventFlag == Collides(circles[goalCircle], cursor)
    {
      eventFlag := Collides(circles[goalCircle], cursor);
    }

    /** Lines 127-144 of check_events: the dwell timer and, on confirmation, the
        next goal and the trial counter. */
    method EvaluateDwell(now: real)
      requires Valid()
      modifies this`dwellTimer, this`duration, this`goalCircle, this`nextCircleIn, this`circleJump,
               this`advances, this`confirmations, this`trial, this`done
      ensures Valid()
      ensures var r := DwellStep(Dwell(old(dwellTimer), old(duration)), eventFlag, now, dwellTime);
              && Dwell(dwellTimer, duration) == r.0
              && (r.1 ==> WalkState() == Advance(numCircles, old(WalkState())) &&
                          confirmations == old(confirmations) + 1)
              && (!r.1 ==> WalkState() == old(WalkState()) && advances == old(advances) &&
                           confirmations == old(confirmations) && trial == old(trial) && done == old(done))
    {
      if eventFlag {
        if dwellTimer.None? {
          dwellTimer := Some(now);
        } else {
          duration := now - dwellTimer.value;
        }
        if duration >= dwellTime {
          GetNewGoalCircle();
          dwellTimer := None;
          confirmations := confirmations + 1;
          if trial < maxTrial - 1 {
            trial := trial + 1;
          } else {
            done := true;
          }
        }
      } else {
        dwellTimer := None;
        duration := 0.0;
      }
    }

    /** check_events for one tick; crashed reports the uncaught parse exception. */
    method CheckEvents(quit: bool, datagram: Datagram, now: real) returns (crashed: bool)
      requires Valid()
      modifies this`dwellTimer, this`duration, this`goalCircle, this`nextCircleIn, this`circleJump,
               this`advances, this`confirmations, this`trial, this`done, this`quitSeen,
               this`currentDirection
      ensures Valid()
      ensures quit ==> done && quitSeen && !crashed && currentDirection == old(currentDirection)
      ensures !quit ==> crashed == DecodeIso(datagram, vel).Crash? && quitSeen == old(quitSeen)
      ensures !quit ==>
                currentDirection == match DecodeIso(datagram, vel)
                                    case Steer(dx, dy) => (dx, dy)
                                    case _ => (0.0, 0.0)
      ensures quit || !DecodeIso(datagram, vel).Steer? ==>
                && WalkState() == old(WalkState()) && advances == old(advances)
                && confirmations == old(confirmations)
                && dwellTimer == old(dwellTimer) && duration == old(duration)
      ensures !quit && !DecodeIso(datagram, vel).Steer? ==> trial == old(trial) && done == old(done)
      ensures !quit && DecodeIso(datagram, vel).Steer? ==>
                var r := DwellStep(Dwell(old(dwellTimer), old(duration)), eventFlag, now, dwellTime);
                && Dwell(dwellTimer, duration) == r.0
                && (r.1 ==> WalkState() == Advance(numCircles, old(WalkState())) &&
                            confirmations == old(confirmations) + 1)
                && (!r.1 ==> WalkState() == old(WalkState()) && confirmations == old(confirmations))
    {
      crashed := false;
      if quit {
        done := true;
        quitSeen := true;
        return;
      }
      currentDirection := (0.0, 0.0);
      var decoded := DecodeIso(datagram, vel);
      if decoded.Crash? {
        crashed := true;
      } else if decoded.Steer? {
        currentDirection := (decoded.dx, decoded.dy);
        EvaluateDwell(now);
      }
    }

    /** move(): each axis takes its step on its own. */
    method Move()
      modifies this`cursor
      ensures cursor == old(cursor).(x := AxisStep(old(cursor.x), currentDirection.0, cursorSize / 2, width),
                                     y := AxisStep(old(cursor.y), currentDirection.1, cursorSize / 2, height))
      ensures InBounds(old(cursor)) ==> InBounds(cursor)
    {
      var x := AxisStep(cursor.x, currentDirection.0, cursorSize / 2, width);
      var y := AxisStep(cursor.y, currentDirection.1, cursorSize / 2, height);
      cursor := cursor.(x := x, y := y);
    }

    /** update_game: draw, test the collision of the goal with the cursor as it was
        before the move, handle the events and move. The layout drawn is the
        corrected one of DrawCirclesEvenly, which equals the as-written one when
        the number of circles divides 360. A crash in check_events skips move(). */
    method UpdateGame(t: Tick, place: real -> Rect) returns (crashed: bool)
      requires Valid()
      requires circles == [] || |circles| == numCircles
      modifies this
      ensures Valid()
      ensures |circles| == numCircles
      ensures old(circles) != [] ==> circles == old(circles)
      ensures old(circles) == [] ==>
                forall k :: 0 <= k < numCircles ==> circles[k] == place(EvenAngle(k, numCircles))
      ensures eventFlag == Collides(circles[old(goalCircle)], old(cursor))
      ensures crashed <==> !t.quit && DecodeIso(t.datagram, vel).Crash?
      ensures t.quit ==> done && quitSeen && currentDirection == old(currentDirection)
      ensures !t.quit ==>
                currentDirection == match DecodeIso(t.datagram, vel)
                                    case Steer(dx, dy) => (dx, dy)
                                    case _ => (0.0, 0.0)
      ensures crashed ==> cursor == old(cursor)
      ensures !crashed ==>
                cursor == old(cursor).(x := AxisStep(old(cursor.x), currentDirection.0, cursorSize / 2, width),
                                       y := AxisStep(old(cursor.y), currentDirection.1, cursorSize / 2, height))
      ensures t.quit || !DecodeIso(t.datagram, vel).Steer? ==>
                && WalkState() == old(WalkState()) && confirmations == old(confirmations)
                && dwellTimer == old(dwellTimer) && duration == old(duration)
      ensures !t.quit && DecodeIso(t.datagram, vel).Steer? ==>
                var r := DwellStep(Dwell(old(dwellTimer), old(duration)), eventFlag, t.now, dwellTime);
                && Dwell(dwellTimer, duration) == r.0
                && (r.1 ==> WalkState() == Advance(numCircles, old(WalkState())) &&
                            confirmations == old(confirmations) + 1)
                && (!r.1 ==> WalkState() == old(WalkState()) && confirmations == old(confirmations))
      ensures InBounds(old(cursor)) ==> InBounds(cursor)
      ensures confirmations == old(confirmations) || confirmations == old(confirmations) + 1
      ensures maxTrial >= 1 ==> 0 <= trial <= maxTrial - 1
      ensures maxTrial >= 1 ==> (done <==> quitSeen || confirmations >= maxTrial)
      ensures maxTrial >= 1 && !old(done) && done && !t.quit ==> confirmations == maxTrial
    {
      DrawCirclesEvenly(place);
      CheckCollisions();
      crashed := CheckEvents(t.quit, t.datagram, t.now);
      if !crashed {
        Move();
      }
      if maxTrial >= 1 {
        TrialsAfterCount(maxTrial, confirmations);
        TrialsAfterCount(maxTrial, old(confirmations));
      }
    }

    /** run(): tick until done, a crash, or the inputs run out; returns the number
        of ticks used. */
    method Run(ticks: seq<Tick>, place: real -> Rect) returns (crashed: bool, used: nat)
      requires Valid()
      requires circles == [] || |circles| == numCircles
      modifies this
      ensures Valid()
      ensures used <= |ticks|
      ensures !crashed && used < |ticks| ==> done
      ensures InBounds(old(cursor)) ==> InBounds(cursor)
      ensures maxTrial >= 1 && !old(done) ==> confirmations <= maxTrial
    {
      crashed := false;
      used := 0;
      if maxTrial >= 1 {
        TrialsAfterCount(maxTrial, confirmations);
      }
      while !done && !crashed && used < |ticks|
        invariant Valid()
        invariant used <= |ticks|
        invariant circles == [] || |circles| == numCircles
        invariant InBounds(old(cursor)) ==> InBounds(cursor)
        invariant maxTrial >= 1 ==> (done <==> quitSeen || confirmations >= maxTrial)
        invariant maxTrial >= 1 && !old(done) ==> confirmations <= maxTrial
        decreases |ticks| - used
      {
        crashed := UpdateGame(ticks[used], place);
        used := used + 1;
      }
    }
  }
}
