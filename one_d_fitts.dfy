/** The single-axis pointing test (Games/OneDFitts.py): a cursor moved left or
    right by decoded classes must stay inside a randomly placed target for the
    dwell time; the session ends after a fixed number of targets. */
module OneDFitts {
  import opened Common
  import opened Wire

  /** Lines 44-55: class 1 moves right by vel, class 2 left; the intensity is
      never read, and every failure of the read or the parse is swallowed. */
  function Nudge(received: Received, vel: int): (r: int)
    ensures LeadingClass(received) == Some(1.0) ==> r == vel
    ensures LeadingClass(received) == Some(2.0) ==> r == -vel
    ensures LeadingClass(received) != Some(1.0) && LeadingClass(received) != Some(2.0) ==> r == 0
    ensures received.Nothing? || received == Got(Undecodable) || received == Got(Text([])) ==> r == 0
  {
    match LeadingClass(received)
    case Some(c) => if c == 1.0 then vel else if c == 2.0 then -vel else 0
    case None => 0
  }

  /** Line 58: max(0, min(x, width)). */
  function Clamp(x: real, width: int): (r: real)
    ensures width >= 0 ==> 0.0 <= r <= width as real
    ensures 0.0 <= x <= width as real ==> r == x
    ensures width >= 0 && x < 0.0 ==> r == 0.0
    ensures width >= 0 && x > width as real ==> r == width as real
  {
    if x <= width as real then (if x >= 0.0 then x else 0.0)
    else (if width as real >= 0.0 then width as real else 0.0)
  }

  /** Clamping twice is clamping once. */
  lemma ClampIdempotent(x: real, width: int)
    requires width >= 0
    ensures Clamp(Clamp(x, width), width) == Clamp(x, width)
  {
  }

  /** Lines 80-89: the new enter_time and whether the target is confirmed.
      `if self.enter_time:` is Python truthiness, so an entry time of 0.0 counts
      as no entry. */
  function DwellStep(enter: Option<real>, inside: bool, now: real, dwellTime: real): (r: (Option<real>, bool))
    ensures !inside ==> r == (None, false)
    ensures r.1 ==> inside && r.0 == None
    ensures inside && enter.None? ==> (r.1 <==> dwellTime <= 0.0 && now != 0.0) && (!r.1 ==> r.0 == Some(now))
    ensures inside && enter.Some? ==>
              (r.1 <==> enter.value != 0.0 && now - enter.value >= dwellTime) && (!r.1 ==> r.0 == enter)
  {
    var e := if inside && enter.None? then Some(now) else if !inside then None else enter;
    if e.Some? && e.value != 0.0 && now - e.value >= dwellTime then (None, true) else (e, false)
  }

  /** Whether a run of ticks inside the target, at the given times, confirms. */
  function Confirms(enter: Option<real>, times: seq<real>, dwellTime: real): bool
    decreases |times|
  {
    if times == [] then false
    else
      var r := DwellStep(enter, true, times[0], dwellTime);
      r.1 || Confirms(r.0, times[1..], dwellTime)
  }

  /** Once entered at t0 (not 0.0), staying inside confirms iff some tick is at
      least dwell_time after t0. */
  lemma {:induction false} ConfirmsFromEntry(t0: real, times: seq<real>, dwellTime: real)
    requires t0 != 0.0
    ensures Confirms(Some(t0), times, dwellTime) <==>
            exists i :: 0 <= i < |times| && times[i] - t0 >= dwellTime
    decreases |times|
  {
    if times != [] {
      var r := DwellStep(Some(t0), true, times[0], dwellTime);
      if !r.1 {
        ConfirmsFromEntry(t0, times[1..], dwellTime);
        if exists i :: 0 <= i < |times| && times[i] - t0 >= dwellTime {
          var i :| 0 <= i < |times| && times[i] - t0 >= dwellTime;
          assert i > 0;
          assert times[1..][i - 1] == times[i];
        }
        if exists i :: 0 <= i < |times[1..]| && times[1..][i] - t0 >= dwellTime {
          var i :| 0 <= i < |times[1..]| && times[1..][i] - t0 >= dwellTime;
          assert times[i + 1] == times[1..][i];
        }
      }
    }
  }

  /** Reset on exit: from enter_time = None (any tick outside leaves it so), a run
      inside the target confirms iff a tick after the entry tick is at least
      dwell_time after it; the entry tick itself never confirms. */
  lemma ConfirmsAfterExit(times: seq<real>, dwellTime: real)
    requires dwellTime > 0.0 && |times| >= 1 && times[0] != 0.0
    ensures Confirms(None, times, dwellTime) <==>
            exists i :: 1 <= i < |times| && times[i] - times[0] >= dwellTime
  {
    assert DwellStep(None, true, times[0], dwellTime) == (Some(times[0]), false);
    ConfirmsFromEntry(times[0], times[1..], dwellTime);
    if exists i :: 1 <= i < |times| && times[i] - times[0] >= dwellTime {
      var i :| 1 <= i < |times| && times[i] - times[0] >= dwellTime;
      assert times[1..][i - 1] == times[i];
    }
    if exists i :: 0 <= i < |times[1..]| && times[1..][i] - times[0] >= dwellTime {
      var i :| 0 <= i < |times[1..]| && times[1..][i] - times[0] >= dwellTime;
      assert times[i + 1] == times[1..][i];
    }
  }

  /** A non-negative span scaled by a draw in [0, 1) stays within [0, span]. */
  lemma ScaledBetween(span: real, draw: real, scaled: real)
    requires span >= 0.0 && 0.0 <= draw < 1.0 && scaled == span * draw
    ensures 0.0 <= scaled <= span
  {
    MulNonNeg(span, draw);
    MulNonNeg(span, 1.0 - draw);
    assert span * (1.0 - draw) == span - span * draw;
  }

  /** A draw in [0, 1) of a positive total stays below the total. */
  lemma FractionBelow(draw: real, total: real, part: real)
    requires total > 0.0 && 0.0 <= draw < 1.0 && part == draw * total
    ensures part < total
  {
    MulPos(1.0 - draw, total);
    assert (1.0 - draw) * total == total - draw * total;
  }

  /** A target bar (class Target). */
  class Target {
    var x: real
    var y: real
    var width: real
    var height: real

    /** Target() with every field still unset; 0.0 stands for None. */
    constructor ()
      ensures x == 0.0 && y == 0.0 && width == 0.0 && height == 0.0
    {
      x, y, width, height := 0.0, 0.0, 0.0, 0.0;
    }

    /** initialize_random, with its two random.random() draws passed in, in the
        order the source makes them. */
    method InitializeRandom(screenWidth: int, screenHeight: int, minWidth: real, maxWidth: real,
                            widthDraw: real, xDraw: real)
      modifies this
      ensures width == minWidth + (maxWidth - minWidth) * widthDraw
      ensures height == 150.0
      ensures x == if xDraw * screenWidth as real - maxWidth < maxWidth then maxWidth + 10.0
                   else xDraw * screenWidth as real - maxWidth
      ensures y == screenHeight as real / 2.0 - 75.0
      ensures x >= maxWidth
      ensures 0.0 <= widthDraw < 1.0 && minWidth <= maxWidth ==> minWidth <= width <= maxWidth
      ensures (0.0 <= widthDraw < 1.0 && minWidth <= maxWidth && 0.0 <= xDraw < 1.0 && screenWidth > 0 &&
               xDraw * screenWidth as real - maxWidth >= maxWidth) ==> x + width < screenWidth as real
    {
      var span := maxWidth - minWidth;
      var scaled := span * widthDraw;
      width := minWidth + scaled;
      height := 150.0;
      var raw := xDraw * screenWidth as real;
      x := raw - maxWidth;
      if x < maxWidth {
        x := maxWidth + 10.0;
      }
      y := screenHeight as real / 2.0 - height / 2.0;
      if 0.0 <= widthDraw < 1.0 && minWidth <= maxWidth {
        ScaledBetween(span, widthDraw, scaled);
        if 0.0 <= xDraw < 1.0 && screenWidth > 0 {
          FractionBelow(xDraw, screenWidth as real, raw);
        }
      }
    }
  }

  /** The test object (class OneDFitts) with the per-tick body of start_game. */
  class OneDFitts {
    const width: int
    const height: int
    const minWidth: real
    const maxWidth: real
    const dwellTime: real
    const vel: int := 4

    var target: Target?
    var cursorX: real
    var cursorY: real
    var enterTime: Option<real>
    var numTargets: int
    var running: bool

    /** The cursor is over the target, on the x axis only, with strict bounds. */
    predicate IsCursorInTarget()
      requires target != null
      reads this, target
      ensures IsCursorInTarget() ==> target.width > 0.0 && target.x < cursorX
    {
      cursorX > target.x && cursorX < target.x + target.width
    }

    constructor (width: int, height: int, minWidth: real, maxWidth: real, dwellTime: real, numTargets: int)
      ensures this.width == width && this.height == height
      ensures this.minWidth == minWidth && this.maxWidth == maxWidth && this.dwellTime == dwellTime
      ensures target == null && enterTime == None && this.numTargets == numTargets && !running
      ensures cursorX == width as real / 2.0 && cursorY == height as real / 2.0
    {
      this.width := width;
      this.height := height;
      this.minWidth := minWidth;
      this.maxWidth := maxWidth;
      this.dwellTime := dwellTime;
      target := null;
      cursorX := width as real / 2.0;
      cursorY := height as real / 2.0;
      enterTime := None;
      this.numTargets := numTargets;
      running := false;
    }

    /** The geometry initialize_random gives a target on this screen for the two
        random() draws: the width, height 150, the x clamp to max_width + 10, and
        the vertical centring. */
    predicate Placed(t: Target, widthDraw: real, xDraw: real)
      reads t
    {
      && t.width == minWidth + (maxWidth - minWidth) * widthDraw
      && t.height == 150.0 && t.y == height as real / 2.0 - 75.0
      && t.x == (if xDraw * width as real - maxWidth < maxWidth then maxWidth + 10.0
                 else xDraw * width as real - maxWidth)
    }

    /** generate_target: a fresh target replaces the current one. */
    method GenerateTarget(widthDraw: real, xDraw: real)
      modifies this`target
      ensures target != null && fresh(target)
      ensures Placed(target, widthDraw, xDraw)
      ensures target.x >= maxWidth
      ensures 0.0 <= widthDraw < 1.0 && minWidth <= maxWidth ==> minWidth <= target.width <= maxWidth
    {
      var t := new Target();
      t.InitializeRandom(width, height, minWidth, maxWidth, widthDraw, xDraw);
      target := t;
    }

    /** Lines 38-40: the first target, then the loop starts. */
    method StartGame(widthDraw: real, xDraw: real)
      modifies this`target, this`running
      ensures target != null && fresh(target) && running
      ensures Placed(target, widthDraw, xDraw) && target.x >= maxWidth
    {
      GenerateTarget(widthDraw, xDraw);
      running := true;
    }

    /** Lines 44-58: read, decode and move, then keep the cursor on the screen. */
    method ReadInput(received: Received)
      modifies this`cursorX
      ensures cursorX == Clamp(old(cursorX) + Nudge(received, vel) as real, width)
    {
      var classId := LeadingClass(received);
      if classId.Some? {
        if classId.value == 1.0 {
          cursorX := cursorX + vel as real;
        } else if classId.value == 2.0 {
          cursorX := cursorX - vel as real;
        }
      }
      cursorX := Clamp(cursorX, width);
    }

    /** Lines 74-89: the dwell state and, on confirmation, a new target and one
        target fewer to go. */
    method EvaluateDwell(now: real, widthDraw: real, xDraw: real)
      modifies this`enterTime, this`target, this`numTargets
      ensures old(target) == null ==>
                target == null && enterTime == old(enterTime) && numTargets == old(numTargets)
      ensures old(target) != null ==>
                var inside := old(target).x < cursorX < old(target).x + old(target).width;
                var r := DwellStep(old(enterTime), inside, now, dwellTime);
                && enterTime == r.0
                && (r.1 ==> target != null && fresh(target) && numTargets == old(numTargets) - 1 &&
                            Placed(target, widthDraw, xDraw) && target.x >= maxWidth)
                && (!r.1 ==> target == old(target) && numTargets == old(numTargets))
    {
      if target != null {
        var inside := IsCursorInTarget();
        if inside && enterTime.None? {
          enterTime := Some(now);
        } else if !inside {
          enterTime := None;
        }
        if enterTime.Some? && enterTime.value != 0.0 {
          if now - enterTime.value >= dwellTime {
            enterTime := None;
            GenerateTarget(widthDraw, xDraw);
            numTargets := numTargets - 1;
          }
        }
      }
    }

    /** One pass of the `while running` loop; quit says whether a QUIT event was
        queued, now is time.time(), and the draws are used only when a new target
        is generated. */
    method Tick(received: Received, quit: bool, now: real, widthDraw: real, xDraw: real)
      modifies this`cursorX, this`running, this`enterTime, this`target, this`numTargets
      ensures cursorX == Clamp(old(cursorX) + Nudge(received, vel) as real, width)
      ensures width >= 0 ==> 0.0 <= cursorX <= width as real
      ensures running == (old(running) && !quit && old(numTargets) != 0)
      ensures old(target) == null ==>
                target == null && enterTime == old(enterTime) && numTargets == old(numTargets)
      ensures old(target) != null ==>
                var inside := old(target).x < cursorX < old(target).x + old(target).width;
                var r := DwellStep(old(enterTime), inside, now, dwellTime);
                && enterTime == r.0
                && (r.1 ==> target != null && fresh(target) && numTargets == old(numTargets) - 1 &&
                            Placed(target, widthDraw, xDraw) && target.x >= maxWidth)
                && (!r.1 ==> target == old(target) && numTargets == old(numTargets))
    {
      ReadInput(received);
      if quit {
        running := false;
      }
      if numTargets == 0 {
        running := false;
      }
      EvaluateDwell(now, widthDraw, xDraw);
    }
  }
}
